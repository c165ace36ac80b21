/** Exactly which streams the parser cuts the same way however they arrive. */
module CleanStreams {
  import opened Text
  import opened StreamParser
  import opened StreamChunking

  /** `x` is zero or more copies of `q`. */
  predicate Repeats(x: string, q: Marker)
    decreases |x|
  {
    x == "" || (q <= x && Repeats(x[|q|..], q))
  }

  /** Inside a thought or a tool call every opener is out of place, except that a
      tool call may begin with copies of one tool opener. */
  ghost predicate InPlace(d: Dialect, st: ParserState, seg: string, q: Marker, i: nat)
    requires i <= |seg|
  {
    st == InToolCall && q in d.toolStarts && Repeats(seg[..i], q)
  }

  ghost predicate Misplaced(d: Dialect, st: ParserState, seg: string, i: nat) {
    st != InText && exists q | q in Openers(d) :: OccursAt(seg, q, i) && !InPlace(d, st, seg, q, i)
  }

  ghost predicate SegmentClean(d: Dialect, st: ParserState, seg: string) {
    forall i: nat :: !Misplaced(d, st, seg, i)
  }

  /** No thought or tool opener inside a thought or tool segment, up to the exception of `InPlace`. */
  ghost predicate Clean(d: Dialect, st: ParserState, w: string)
    decreases |w|
  {
    EarliestMeans(w, Ends(d, st));
    match Earliest(w, Ends(d, st))
    case None => SegmentClean(d, st, w)
    case Some(h) =>
      SegmentClean(d, st, w[..h.pos]) && Clean(d, NextAfterEnd(d, st, h.marker), w[h.pos + |h.marker|..])
  }

  // ----- on clean streams the full parser is the marker-only parser ----------

  ghost predicate Quiet(d: Dialect, st: ParserState, w: string, pos: nat) {
    forall i: nat | i < pos :: !Misplaced(d, st, w, i)
  }

  lemma StartsMeans(d: Dialect, input: string, least: nat)
    ensures match Starts(d, input, least)
            case None =>
              Absent(input, d.thoughtStarts) &&
              forall m | m in d.toolStarts && Find(input, m).Some? :: Find(input, m).value < least
            case Some(h) =>
              && NoneBefore(input, d.thoughtStarts, h.pos)
              && Find(input, h.marker) == Some(h.pos)
              && (h.marker in d.thoughtStarts || (h.marker in d.toolStarts && least <= h.pos))
              && forall m | m in d.toolStarts && Find(input, m).Some? ::
                   Find(input, m).value < least ||
                   h.pos <= Find(input, m).value
  {
    EarliestMeans(input, d.thoughtStarts);
    EarliestOfBounds(None, input, d.thoughtStarts, 0, |d.thoughtStarts|);
    EarliestOfBounds(Earliest(input, d.thoughtStarts), input, d.toolStarts, least, |d.toolStarts|);
  }

  lemma TextDecidesByEnds(d: Dialect, w: string)
    requires WellFormed(d)
    ensures Decide(d, InText, w) == LexDecide(d, InText, w)
  {
    var ms := Ends(d, InText);
    EndsPrefixFree(d, InText);
    StartsMeans(d, w, 0);
    EarliestMeans(w, d.textChannel);
    var start, noop := Starts(d, w, 0), Earliest(w, d.textChannel);
    if noop.Some? && (start.None? || noop.value.pos < start.value.pos) {
      assert IsFirst(w, ms, noop.value.pos, noop.value.marker);
      EarliestIs(w, ms, noop.value.pos, noop.value.marker);
    } else if start.Some? {
      assert IsFirst(w, ms, start.value.pos, start.value.marker);
      EarliestIs(w, ms, start.value.pos, start.value.marker);
    } else {
      AbsentIs(w, ms);
    }
  }

  /** A tool opener found in place is found at the start, where it does not interrupt. */
  lemma InPlaceIsIgnored(d: Dialect, st: ParserState, w: string, q: Marker, i: nat)
    requires OccursAt(w, q, i) && InPlace(d, st, w, q, i)
    ensures Find(w, q) == Some(0)
  {
    if i > 0 {
      assert w[..i][..|q|] == w[..|q|];
    }
    assert OccursAt(w, q, 0);
  }

  /** Up to `pos` nothing interrupts. */
  lemma QuietDoesNotInterrupt(d: Dialect, st: ParserState, w: string, pos: nat)
    requires WellFormed(d) && st != InText && Quiet(d, st, w, pos)
    ensures var h := Starts(d, w, Least(st)); h.None? || pos <= h.value.pos
  {
    StartsMeans(d, w, Least(st));
    var h := Starts(d, w, Least(st));
    if h.Some? && h.value.pos < pos {
      assert !Misplaced(d, st, w, h.value.pos);
      assert h.value.marker in Openers(d);
      InPlaceIsIgnored(d, st, w, h.value.marker, h.value.pos);
    }
  }

  lemma QuietSegment(d: Dialect, st: ParserState, w: string, pos: nat)
    requires pos < |w| && w[pos] == '<' && SegmentClean(d, st, w[..pos])
    ensures Quiet(d, st, w, pos)
  {
    assert w == w[..pos] + w[pos..];
    forall i: nat | i < pos
      ensures !Misplaced(d, st, w, i)
    {
      forall q | q in Openers(d) && OccursAt(w, q, i)
        ensures st == InText || InPlace(d, st, w, q, i)
      {
        NoOverlap(w, q, i, pos);
        OccursInPrefix(w[..pos], w[pos..], q, i);
        assert w[..pos][..i] == w[..i];
        assert !Misplaced(d, st, w[..pos], i);
      }
    }
  }

  /** The segment that `w` opens with. */
  function Segment(d: Dialect, st: ParserState, w: string): string {
    EarliestMeans(w, Ends(d, st));
    match Earliest(w, Ends(d, st))
    case None => w
    case Some(h) => w[..h.pos]
  }

  lemma CleanDecidesByEnds(d: Dialect, st: ParserState, w: string)
    requires WellFormed(d) && SegmentClean(d, st, Segment(d, st, w))
    ensures Decide(d, st, w) == LexDecide(d, st, w)
  {
    EarliestMeans(w, Ends(d, st));
    if st == InText {
      TextDecidesByEnds(d, w);
    } else {
      var end := Earliest(w, Ends(d, st));
      if end.Some? {
        OccursChar(w, end.value.marker, end.value.pos, 0);
        QuietSegment(d, st, w, end.value.pos);
        QuietDoesNotInterrupt(d, st, w, end.value.pos);
      } else {
        QuietDoesNotInterrupt(d, st, w, |w|);
        StartsMeans(d, w, Least(st));
      }
    }
  }

  lemma SameAdvance(f: Step, g: Step, st: ParserState, w: string, pos: nat, m: Marker, next: ParserState)
    requires f(st, w) == g(st, w) == Advance(pos, m, next) && pos + |m| <= |w|
    requires Scan(f, next, w[pos + |m|..]) == Scan(g, next, w[pos + |m|..])
    ensures Scan(f, st, w) == Scan(g, st, w)
  {
  }

  lemma SameHold(f: Step, g: Step, st: ParserState, w: string, at: nat)
    requires f(st, w) == g(st, w) == Hold(at)
    ensures Scan(f, st, w) == Scan(g, st, w)
  {
  }

  lemma CleanStep(d: Dialect, st: ParserState, w: string)
    requires Clean(d, st, w)
    ensures SegmentClean(d, st, Segment(d, st, w))
    ensures match LexDecide(d, st, w)
            case Advance(pos, m, next) => pos + |m| <= |w| && Clean(d, next, w[pos + |m|..])
            case Hold(at) => true
  {
    LexInRange(d, st, w);
  }

  lemma {:induction false} ScanIsLex(d: Dialect, st: ParserState, w: string)
    requires WellFormed(d) && Clean(d, st, w)
    ensures Scan(StepOf(d), st, w) == Scan(LexStep(d), st, w)
    decreases |w|
  {
    CleanStep(d, st, w);
    CleanDecidesByEnds(d, st, w);
    match LexDecide(d, st, w)
    case Advance(pos, m, next) =>
      ScanIsLex(d, next, w[pos + |m|..]);
      SameAdvance(StepOf(d), LexStep(d), st, w, pos, m, next);
    case Hold(at) =>
      SameHold(StepOf(d), LexStep(d), st, w, at);
  }

  // ----- clean streams may be cut anywhere ------------------------------------

  lemma SegmentCleanPrefix(d: Dialect, st: ParserState, x: string, y: string)
    requires SegmentClean(d, st, x + y)
    ensures SegmentClean(d, st, x)
  {
    forall i: nat
      ensures !Misplaced(d, st, x, i)
    {
      forall q | q in Openers(d) && OccursAt(x, q, i)
        ensures st == InText || InPlace(d, st, x, q, i)
      {
        OccursInPrefix(x, y, q, i);
        assert (x + y)[..i] == x[..i];
        assert !Misplaced(d, st, x + y, i);
      }
    }
  }

  lemma OpenerBeforeCut(d: Dialect, st: ParserState, u: string, v: string, h: Hit, q: Marker, i: nat)
    requires WellFormed(d) && Absent(u, Ends(d, st))
    requires Earliest(u + v, Ends(d, st)) == Some(h) && h.pos < |u|
    requires q in Openers(d) && OccursAt(u, q, i)
    ensures i < h.pos
  {
    EarliestMeans(u + v, Ends(d, st));
    OccursInPrefix(u, v, q, i);
    OccursInPrefix(u, v, h.marker, h.pos);
    OccursChar(u, q, i, 0);
    if h.pos < i {
      NoOverlap(u + v, h.marker, h.pos, i);
    } else if i == h.pos {
      assert q in Ends(d, st) + Openers(d) && h.marker in Ends(d, st) + Openers(d);
      if |q| <= |h.marker| {
        SamePosition(u + v, q, h.marker, i);
      } else {
        SamePosition(u + v, h.marker, q, i);
      }
    }
  }

  /** What is left of a segment whose end marker has been cut in two. */
  lemma SegmentCleanCut(d: Dialect, st: ParserState, u: string, v: string, h: Hit)
    requires WellFormed(d) && Absent(u, Ends(d, st))
    requires Earliest(u + v, Ends(d, st)) == Some(h) && h.pos < |u| && SegmentClean(d, st, u[..h.pos])
    ensures SegmentClean(d, st, u)
  {
    EarliestMeans(u + v, Ends(d, st));
    OccursChar(u + v, h.marker, h.pos, 0);
    QuietSegment(d, st, u, h.pos);
    forall i: nat, q | q in Openers(d) && OccursAt(u, q, i)
      ensures i < h.pos
    {
      OpenerBeforeCut(d, st, u, v, h, q, i);
    }
    forall i: nat
      ensures !Misplaced(d, st, u, i)
    {
      assert i < h.pos ==> !Misplaced(d, st, u, i);
    }
  }

  lemma {:induction false} CleanPrefix(d: Dialect, st: ParserState, u: string, v: string)
    requires WellFormed(d) && Clean(d, st, u + v)
    ensures Clean(d, st, u)
    decreases |u|
  {
    hide WellFormed, Ends, Earliest, SegmentClean, PrefixFree;
    CleanStep(d, st, u + v);
    EarliestMeans(u, Ends(d, st));
    EarliestMeans(u + v, Ends(d, st));
    EndsPrefixFree(d, st);
    match Earliest(u, Ends(d, st)) {
      case Some(h) =>
        FirstExtends(u, v, Ends(d, st), h.pos, h.marker);
        EarliestIs(u + v, Ends(d, st), h.pos, h.marker);
        assert (u + v)[..h.pos] == u[..h.pos];
        assert (u + v)[h.pos + |h.marker|..] == u[h.pos + |h.marker|..] + v;
        CleanPrefix(d, NextAfterEnd(d, st, h.marker), u[h.pos + |h.marker|..], v);
      case None =>
        match Earliest(u + v, Ends(d, st)) {
          case None => SegmentCleanPrefix(d, st, u, v);
          case Some(h) =>
            if h.pos < |u| {
              assert (u + v)[..h.pos] == u[..h.pos];
              SegmentCleanCut(d, st, u, v, h);
            } else {
              assert (u + v)[..h.pos] == u + v[..h.pos - |u|];
              SegmentCleanPrefix(d, st, u, v[..h.pos - |u|]);
            }
        }
    }
  }

  lemma ShortCopy(x: string, s: string, q: Marker)
    requires x != "" && s != "" && q <= x + s && |x| < |q|
    ensures s[0] != '<' && x[0..] <= q
  {
    assert q == (x + s)[..|q|];
    assert q[..|x|] == x == x[0..] && q[|x|] == s[0];
  }

  /** Copies stay aligned when text before a `<`, or text without an unfinished copy at its end, is dropped. */
  lemma {:induction false} RepeatsTail(x: string, s: string, q: Marker)
    requires Repeats(x + s, q)
    requires s == "" || s[0] == '<' || forall j: nat | j < |x| && |x| - j < |q| :: !(x[j..] <= q)
    ensures Repeats(s, q)
    decreases |x|
  {
    if x == "" {
      assert x + s == s;
    } else if s != "" {
      if |x| < |q| {
        ShortCopy(x, s, q);
      } else {
        assert (x + s)[|q|..] == x[|q|..] + s;
        forall j: nat | j < |x[|q|..]| && |x[|q|..]| - j < |q|
          ensures s[0] == '<' || !(x[|q|..][j..] <= q)
        {
          assert x[|q|..][j..] == x[|q| + j..];
        }
        RepeatsTail(x[|q|..], s, q);
      }
    }
  }

  lemma SegmentCleanRest(d: Dialect, st: ParserState, x: string, s: string, ms: seq<Marker>)
    requires WellFormed(d) && SegmentClean(d, st, x + s)
    requires ms == Ends(d, st) && Absent(x, ms)
    requires s == "" || s[0] == '<' || forall j: nat | j < |x| :: !HeldAt(x, ms, j)
    ensures SegmentClean(d, st, s)
  {
    forall i: nat
      ensures !Misplaced(d, st, s, i)
    {
      forall q | q in Openers(d) && OccursAt(s, q, i)
        ensures st == InText || InPlace(d, st, s, q, i)
      {
        OccursInSuffix(x, s, q, i);
        assert !Misplaced(d, st, x + s, |x| + i);
        assert (x + s)[..|x| + i] == x + s[..i];
        if st != InText {
          assert InPlace(d, st, x + s, q, |x| + i);
          forall j: nat | j < |x| && |x| - j < |q| && x[j..] <= q
            ensures HeldAt(x, ms, j)
          {
            assert BeginsAnEnd(q, |x| - j, d.toolEnds);
            var e :| e in d.toolEnds && |x| - j < |e| && q[..|x| - j] <= e;
            assert x[j..] == q[..|x| - j];
          }
          RepeatsTail(x, s[..i], q);
        }
      }
    }
  }

  lemma CleanAfterHold(d: Dialect, st: ParserState, x: string, y: string, z: string)
    requires WellFormed(d) && Settled(x, y, Ends(d, st)) && Clean(d, st, x + (y + z))
    ensures Clean(d, st, y + z)
  {
    hide WellFormed, SegmentClean, Clean;
    var t := y + z;
    EndsPrefixFree(d, st);
    LexInRange(d, st, t);
    match LexDecide(d, st, t) {
      case Advance(pos, m, next) =>
        SettledAdvance(d, st, x, y, z, pos, m, next);
        CleanAfterMarker(d, st, x + t, |x| + pos, m, next);
        assert (x + t)[..|x| + pos] == x + t[..pos];
        assert (x + t)[|x| + pos + |m|..] == t[pos + |m|..];
        assert y != "" && t[..pos] != "" ==> t[..pos][0] == y[0];
        SegmentCleanRest(d, st, x, t[..pos], Ends(d, st));
        CleanFromParts(d, st, t, pos, m, next);
      case Hold(at) =>
        SettledHold(d, st, x, y, z, at);
        CleanWithoutEnd(d, st, x + t, |x| + at);
        assert y != "" && t != "" ==> t[0] == y[0];
        SegmentCleanRest(d, st, x, t, Ends(d, st));
        CleanWithoutEnd(d, st, t, at);
    }
  }

  lemma CleanWithoutEnd(d: Dialect, st: ParserState, w: string, at: nat)
    requires LexDecide(d, st, w) == Hold(at)
    ensures Clean(d, st, w) <==> SegmentClean(d, st, w)
  {
  }

  lemma CleanFromParts(d: Dialect, st: ParserState, w: string, pos: nat, m: Marker, next: ParserState)
    requires LexDecide(d, st, w) == Advance(pos, m, next) && pos + |m| <= |w|
    requires SegmentClean(d, st, w[..pos]) && Clean(d, next, w[pos + |m|..])
    ensures Clean(d, st, w)
  {
  }

  lemma CleanAfterMarker(d: Dialect, st: ParserState, w: string, pos: nat, m: Marker, next: ParserState)
    requires LexDecide(d, st, w) == Advance(pos, m, next) && Clean(d, st, w)
    ensures pos + |m| <= |w| && SegmentClean(d, st, w[..pos]) && Clean(d, next, w[pos + |m|..])
  {
    LexInRange(d, st, w);
  }

  lemma ScanPasses(step: Step, st: ParserState, input: string, pos: nat, m: Marker, next: ParserState)
    requires input != "" && step(st, input) == Advance(pos, m, next) && pos + |m| <= |input|
    ensures Scan(step, st, input).state == Scan(step, next, input[pos + |m|..]).state
    ensures Scan(step, st, input).retained == Scan(step, next, input[pos + |m|..]).retained
  {
  }

  /** After any first chunk of a clean stream, what is kept and what follows is clean again. */
  lemma ScanNothing(step: Step, st: ParserState)
    ensures Scan(step, st, "") == Outcome(Done, st, "")
  {
  }

  lemma {:induction false} CleanRest(d: Dialect, st: ParserState, u: string, v: string)
    requires WellFormed(d) && Clean(d, st, u + v)
    ensures var o := Scan(LexStep(d), st, u); Clean(d, o.state, o.retained + v)
    decreases |u|
  {
    hide Scan, Clean, WellFormed, Ends, Earliest, PartialStart, SegmentClean, Absent;
    EndsPrefixFree(d, st);
    LexInRange(d, st, u);
    ScanNothing(LexStep(d), st);
    if u == "" {
      assert u + v == v;
    } else {
      match LexDecide(d, st, u) {
        case Advance(pos, m, next) =>
          FirstExtends(u, v, Ends(d, st), pos, m);
          EarliestIs(u + v, Ends(d, st), pos, m);
          assert (u + v)[pos + |m|..] == u[pos + |m|..] + v;
          CleanAfterMarker(d, st, u + v, pos, m, next);
          ScanPasses(LexStep(d), st, u, pos, m, next);
          CleanRest(d, next, u[pos + |m|..], v);
        case Hold(at) =>
          HoldSettles(u, Ends(d, st));
          assert u + v == u[..at] + (u[at..] + v);
          ScanHolds(LexStep(d), st, u, at);
          CleanAfterHold(d, st, u[..at], u[at..], v);
      }
    }
  }

  /** A kept tail is kept again. */
  ghost predicate Kept(d: Dialect, st: ParserState, buffer: string) {
    SameOutcome(Scan(LexStep(d), st, buffer), Outcome(Done, st, buffer))
  }

  lemma RetainedIsKept(d: Dialect, st: ParserState, u: string)
    requires WellFormed(d)
    ensures var o := Scan(LexStep(d), st, u); Kept(d, o.state, o.retained)
  {
    var o := Scan(LexStep(d), st, u);
    LexSplit(d, st, u, "");
    assert u + "" == u && o.retained + "" == o.retained;
    var p := Scan(LexStep(d), o.state, o.retained);
    assert |Shown(o.trace) + Shown(p.trace)| == |Shown(o.trace)|;
  }

  lemma {:induction false} CleanRunIsOneCall(d: Dialect, st: ParserState, buffer: string, chunks: seq<string>)
    requires WellFormed(d) && Kept(d, st, buffer) && Clean(d, st, buffer + Joined(chunks))
    ensures SameOutcome(Run(StepOf(d), st, buffer, chunks), Scan(LexStep(d), st, buffer + Joined(chunks)))
    decreases |chunks|
  {
    if chunks == [] {
      assert buffer + "" == buffer;
    } else {
      var u, rest := buffer + chunks[0], Joined(chunks[1..]);
      ConcatAssociates(buffer, chunks[0], rest);
      CleanPrefix(d, st, u, rest);
      ScanIsLex(d, st, u);
      CleanRest(d, st, u, rest);
      RetainedIsKept(d, st, u);
      var o := Scan(LexStep(d), st, u);
      CleanRunIsOneCall(d, o.state, o.retained, chunks[1..]);
      LexSplit(d, st, u, rest);
      ShownAppend(o.trace, Run(StepOf(d), o.state, o.retained, chunks[1..]).trace);
    }
  }
}
