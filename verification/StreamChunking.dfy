/** How the streaming parser depends on the way its input is cut into chunks. */
module StreamChunking {
  import opened Text
  import opened StreamParser

  // ----- what a caller can see ----------------------------------------------

  function Tag(b: BlockType, t: string): (r: seq<(BlockType, char)>)
    ensures |r| == |t|
    ensures forall i | 0 <= i < |t| :: r[i] == (b, t[i])
  {
    seq(|t|, i requires 0 <= i < |t| => (b, t[i]))
  }

  lemma TagConcat(b: BlockType, s: string, t: string)
    ensures Tag(b, s + t) == Tag(b, s) + Tag(b, t)
  {
  }

  /** The emitted characters with their block types: the output after adjacent
      pieces of one type have been joined. */
  function Shown(trace: Trace): seq<(BlockType, char)> {
    match trace
    case Done => []
    case Piece(b, t, rest) => Tag(b, t) + Shown(rest)
    case Consumed(_, _, rest) => Shown(rest)
  }

  function Append(a: Trace, b: Trace): Trace {
    match a
    case Done => b
    case Piece(block, text, rest) => Piece(block, text, Append(rest, b))
    case Consumed(m, next, rest) => Consumed(m, next, Append(rest, b))
  }

  lemma ShownAppend(a: Trace, b: Trace)
    ensures Shown(Append(a, b)) == Shown(a) + Shown(b)
  {
  }

  /** Feeding the chunks one after another, from a parser that has kept `buffer`. */
  function Run(step: Step, st: ParserState, buffer: string, chunks: seq<string>): Outcome
    decreases |chunks|
  {
    if chunks == [] then Outcome(Done, st, buffer)
    else
      var o := Scan(step, st, buffer + chunks[0]);
      var rest := Run(step, o.state, o.retained, chunks[1..]);
      Outcome(Append(o.trace, rest.trace), rest.state, rest.retained)
  }

  predicate SameOutcome(a: Outcome, b: Outcome) {
    a.state == b.state && a.retained == b.retained && Shown(a.trace) == Shown(b.trace)
  }

  // ----- first occurrences --------------------------------------------------

  ghost predicate NoneBefore(input: string, ms: seq<Marker>, pos: nat) {
    forall m, k: nat | m in ms && k < pos :: !OccursAt(input, m, k)
  }

  ghost predicate Absent(input: string, ms: seq<Marker>) {
    forall m, k: nat | m in ms :: !OccursAt(input, m, k)
  }

  ghost predicate IsFirst(input: string, ms: seq<Marker>, pos: nat, m: Marker) {
    m in ms && OccursAt(input, m, pos) && NoneBefore(input, ms, pos)
  }

  lemma EarliestMeans(input: string, ms: seq<Marker>)
    ensures match Earliest(input, ms)
            case None => Absent(input, ms)
            case Some(h) => IsFirst(input, ms, h.pos, h.marker)
  {
    EarliestOfBounds(None, input, ms, 0, |ms|);
  }

  lemma EarliestIs(input: string, ms: seq<Marker>, pos: nat, m: Marker)
    requires PrefixFree(ms) && IsFirst(input, ms, pos, m)
    ensures Earliest(input, ms) == Some(Hit(pos, m))
  {
    EarliestMeans(input, ms);
    var h := Earliest(input, ms).value;
    assert h.pos == pos;
    if |m| <= |h.marker| {
      SamePosition(input, m, h.marker, pos);
    } else {
      SamePosition(input, h.marker, m, pos);
    }
  }

  lemma AbsentIs(input: string, ms: seq<Marker>)
    requires Absent(input, ms)
    ensures Earliest(input, ms) == None
  {
    EarliestMeans(input, ms);
  }

  /** More input after a marker does not change which marker is first. */
  lemma FirstExtends(u: string, v: string, ms: seq<Marker>, pos: nat, m: Marker)
    requires IsFirst(u, ms, pos, m)
    ensures IsFirst(u + v, ms, pos, m)
  {
    OccursInPrefix(u, v, m, pos);
    OccursChar(u, m, pos, 0);
    forall n, k: nat | n in ms && k < pos
      ensures !OccursAt(u + v, n, k)
    {
      if OccursAt(u + v, n, k) {
        NoOverlap(u + v, n, k, pos);
        OccursInPrefix(u, v, n, k);
      }
    }
  }

  // ----- the parser that looks only for segment ends ------------------------

  function NextAfterEnd(d: Dialect, st: ParserState, m: Marker): ParserState {
    if st == InText && m in Openers(d) then NextAfterStart(d, m) else InText
  }

  function LexDecide(d: Dialect, st: ParserState, input: string): Decision {
    match Earliest(input, Ends(d, st))
    case Some(h) => Advance(h.pos, h.marker, NextAfterEnd(d, st, h.marker))
    case None => Hold(PartialStart(input, Ends(d, st)))
  }

  lemma LexInRange(d: Dialect, st: ParserState, input: string)
    ensures match LexDecide(d, st, input)
            case Advance(pos, m, next) => OccursAt(input, m, pos) && IsFirst(input, Ends(d, st), pos, m)
            case Hold(at) => at <= |input| && Absent(input, Ends(d, st))
  {
    EarliestMeans(input, Ends(d, st));
  }

  function LexStep(d: Dialect): Step {
    (st, input) => LexDecide(d, st, input)
  }

  lemma ScanShows(step: Step, st: ParserState, input: string, pos: nat, m: Marker, next: ParserState)
    requires input != "" && step(st, input) == Advance(pos, m, next) && pos + |m| <= |input|
    ensures Shown(Scan(step, st, input).trace) == Tag(BlockOf(st), input[..pos]) +
            Shown(Scan(step, next, input[pos + |m|..]).trace)
    ensures Scan(step, st, input).state == Scan(step, next, input[pos + |m|..]).state
    ensures Scan(step, st, input).retained == Scan(step, next, input[pos + |m|..]).retained
  {
  }

  lemma ScanHolds(step: Step, st: ParserState, input: string, at: nat)
    requires input != "" && step(st, input) == Hold(at) && at <= |input|
    ensures Scan(step, st, input).state == st && Scan(step, st, input).retained == input[at..]
    ensures Shown(Scan(step, st, input).trace) == Tag(BlockOf(st), input[..at])
  {
  }

  // ----- text that has been emitted for good --------------------------------

  /** No marker of `ms` that starts inside `x` can be completed by what follows. */
  ghost predicate Settled(x: string, y: string, ms: seq<Marker>) {
    && Absent(x, ms)
    && ((y != "" && y[0] == '<') || forall j: nat | j < |x| :: !HeldAt(x, ms, j))
  }

  /** The held-back tail starts at the last `<`, so it settles what is before it. */
  lemma HoldSettles(u: string, ms: seq<Marker>)
    requires Absent(u, ms)
    ensures var k := PartialStart(u, ms); Settled(u[..k], u[k..], ms)
  {
    var k := PartialStart(u, ms);
    assert u == u[..k] + u[k..];
    forall m, i: nat | m in ms
      ensures !OccursAt(u[..k], m, i)
    {
      OccursInPrefix(u[..k], u[k..], m, i);
    }
    if k < |u| {
      var m :| m in ms && |u| - k < |m| && u[k..] <= m;
      assert u[k..][0] == m[0];
    } else {
      assert u[..k] == u;
    }
  }

  /** A marker that agrees with `w` from `j` on agrees with its prefix `x`. */
  lemma MarkerAcross(x: string, t: string, m: Marker, j: nat)
    requires j < |x|
    ensures OccursAt(x + t, m, j) && j + |m| > |x| ==> x[j..] <= m && t[0] == m[|x| - j]
    ensures |x + t| - j < |m| && (x + t)[j..] <= m ==> x[j..] <= m && (t != "" ==> t[0] == m[|x| - j])
  {
    var w := x + t;
    assert w[j..][..|x| - j] == x[j..];
    if OccursAt(w, m, j) && j + |m| > |x| {
      assert w[j..j + |m|][..|x| - j] == x[j..];
      assert w[j..j + |m|][|x| - j] == t[0];
    }
    if |w| - j < |m| && w[j..] <= m {
      assert m[..|w| - j] == w[j..];
      if t != "" {
        assert w[j..][|x| - j] == t[0];
      }
    }
  }

  lemma SettledNoOccurrence(x: string, y: string, z: string, ms: seq<Marker>, m: Marker, j: nat)
    requires Settled(x, y, ms) && m in ms && j < |x|
    ensures !OccursAt(x + (y + z), m, j)
  {
    OccursInPrefix(x, y + z, m, j);
    MarkerAcross(x, y + z, m, j);
    assert x[j..] <= m && |x| - j < |m| ==> HeldAt(x, ms, j);
    assert y != "" ==> (y + z)[0] == y[0];
  }

  lemma SettledNotHeld(x: string, y: string, z: string, ms: seq<Marker>, j: nat)
    requires Settled(x, y, ms) && j < |x|
    ensures !HeldAt(x + (y + z), ms, j)
  {
    forall m | m in ms
      ensures var w := x + (y + z); !(|w| - j < |m| && w[j..] <= m)
    {
      MarkerAcross(x, y + z, m, j);
      assert x[j..] <= m && |x| - j < |m| ==> HeldAt(x, ms, j);
      assert y != "" ==> (y + z)[0] == y[0];
    }
  }

  lemma HeldShift(x: string, y: string, z: string, ms: seq<Marker>)
    requires Settled(x, y, ms)
    ensures PartialStart(x + (y + z), ms) == |x| + PartialStart(y + z, ms)
  {
    var t, w := y + z, x + (y + z);
    var a, b := PartialStart(w, ms), PartialStart(t, ms);
    forall j: nat | j < |x|
      ensures !HeldAt(w, ms, j)
    {
      SettledNotHeld(x, y, z, ms, j);
    }
    forall j: nat | j <= |t|
      ensures HeldAt(w, ms, |x| + j) == HeldAt(t, ms, j)
    {
      assert w[|x| + j..] == t[j..];
    }
    assert a >= |x|;
    assert HeldAt(w, ms, |x| + (a - |x|)) == HeldAt(t, ms, a - |x|);
    assert HeldAt(w, ms, |x| + b) == HeldAt(t, ms, b);
  }

  lemma SettledNoneBefore(x: string, y: string, z: string, ms: seq<Marker>, pos: nat)
    requires Settled(x, y, ms) && NoneBefore(y + z, ms, pos)
    ensures NoneBefore(x + (y + z), ms, |x| + pos)
  {
    forall n, k: nat | n in ms && k < |x| + pos
      ensures !OccursAt(x + (y + z), n, k)
    {
      if k < |x| {
        SettledNoOccurrence(x, y, z, ms, n, k);
      } else {
        OccursInSuffix(x, y + z, n, k - |x|);
      }
    }
  }

  lemma SettledAbsent(x: string, y: string, z: string, ms: seq<Marker>)
    requires Settled(x, y, ms) && Absent(y + z, ms)
    ensures Absent(x + (y + z), ms)
  {
    forall n, k: nat | n in ms
      ensures !OccursAt(x + (y + z), n, k)
    {
      SettledNoneBefore(x, y, z, ms, k + 1);
    }
  }

  lemma SettledAdvance(d: Dialect, st: ParserState, x: string, y: string, z: string, pos: nat, m: Marker,
                       next: ParserState)
    requires PrefixFree(Ends(d, st)) && Settled(x, y, Ends(d, st))
    requires LexDecide(d, st, y + z) == Advance(pos, m, next)
    ensures LexDecide(d, st, x + (y + z)) == Advance(|x| + pos, m, next)
  {
    LexInRange(d, st, y + z);
    OccursInSuffix(x, y + z, m, pos);
    SettledNoneBefore(x, y, z, Ends(d, st), pos);
    EarliestIs(x + (y + z), Ends(d, st), |x| + pos, m);
  }

  lemma SettledHold(d: Dialect, st: ParserState, x: string, y: string, z: string, at: nat)
    requires Settled(x, y, Ends(d, st))
    requires LexDecide(d, st, y + z) == Hold(at)
    ensures LexDecide(d, st, x + (y + z)) == Hold(|x| + at)
  {
    LexInRange(d, st, y + z);
    SettledAbsent(x, y, z, Ends(d, st));
    AbsentIs(x + (y + z), Ends(d, st));
    HeldShift(x, y, z, Ends(d, st));
  }

  /** Settled text in front only adds to the first piece. */
  lemma PrefixBeforeMarker(step: Step, st: ParserState, x: string, t: string, pos: nat, m: Marker, next: ParserState)
    requires t != "" && pos + |m| <= |t|
    requires step(st, t) == Advance(pos, m, next) && step(st, x + t) == Advance(|x| + pos, m, next)
    ensures PrefixOnly(step, st, x, t)
  {
    hide Scan, Shown, Tag;
    ScanShows(step, st, x + t, |x| + pos, m, next);
    ScanShows(step, st, t, pos, m, next);
    assert (x + t)[..|x| + pos] == x + t[..pos];
    assert (x + t)[|x| + pos + |m|..] == t[pos + |m|..];
    TagConcat(BlockOf(st), x, t[..pos]);
    ConcatAssociates(Tag(BlockOf(st), x), Tag(BlockOf(st), t[..pos]), Shown(Scan(step, next, t[pos + |m|..]).trace));
  }

  lemma PrefixBeforeHold(step: Step, st: ParserState, x: string, t: string, at: nat)
    requires t != "" && at <= |t|
    requires step(st, t) == Hold(at) && step(st, x + t) == Hold(|x| + at)
    ensures PrefixOnly(step, st, x, t)
  {
    ScanHolds(step, st, x + t, |x| + at);
    ScanHolds(step, st, t, at);
    assert (x + t)[..|x| + at] == x + t[..at];
    assert (x + t)[|x| + at..] == t[at..];
    TagConcat(BlockOf(st), x, t[..at]);
  }

  ghost predicate PrefixOnly(step: Step, st: ParserState, x: string, t: string) {
    && Scan(step, st, x + t).state == Scan(step, st, t).state
    && Scan(step, st, x + t).retained == Scan(step, st, t).retained
    && Shown(Scan(step, st, x + t).trace) == Tag(BlockOf(st), x) + Shown(Scan(step, st, t).trace)
  }

  lemma SettledPrefix(d: Dialect, st: ParserState, x: string, y: string, z: string)
    requires PrefixFree(Ends(d, st)) && Settled(x, y, Ends(d, st))
    ensures PrefixOnly(LexStep(d), st, x, y + z)
  {
    LexInRange(d, st, y + z);
    if x == "" {
      assert x + (y + z) == y + z;
    } else if y + z == "" {
      SettledHold(d, st, x, y, z, 0);
      assert x + (y + z) == x;
      ScanHolds(LexStep(d), st, x, |x|);
      assert x[..|x|] == x;
    } else {
      match LexDecide(d, st, y + z)
      case Advance(pos, m, next) =>
        SettledAdvance(d, st, x, y, z, pos, m, next);
        PrefixBeforeMarker(LexStep(d), st, x, y + z, pos, m, next);
      case Hold(at) =>
        SettledHold(d, st, x, y, z, at);
        PrefixBeforeHold(LexStep(d), st, x, y + z, at);
    }
  }

  lemma EndsPrefixFree(d: Dialect, st: ParserState)
    requires WellFormed(d)
    ensures PrefixFree(Ends(d, st))
  {
    assert PrefixFree(Ends(d, st) + Openers(d));
    forall m, n | m in Ends(d, st) && n in Ends(d, st) && m <= n
      ensures m == n
    {
      assert m in Ends(d, st) + Openers(d) && n in Ends(d, st) + Openers(d);
    }
  }

  ghost predicate SplitAgrees(step: Step, st: ParserState, u: string, v: string)
  {
    var o, q := Scan(step, st, u), Scan(step, st, u + v);
    var p := Scan(step, o.state, o.retained + v);
    p.state == q.state && p.retained == q.retained && Shown(o.trace) + Shown(p.trace) == Shown(q.trace)
  }

  /** The marker-only parser does not depend on where its input is cut. */
  lemma {:induction false} LexSplit(d: Dialect, st: ParserState, u: string, v: string)
    requires WellFormed(d)
    ensures SplitAgrees(LexStep(d), st, u, v)
    decreases |u|
  {
    hide SplitAgrees, WellFormed, Scan;
    if u == "" {
      NothingSplit(LexStep(d), st, v);
    } else {
      EndsPrefixFree(d, st);
      LexInRange(d, st, u);
      match LexDecide(d, st, u) {
        case Advance(pos, m, next) =>
          LexSplit(d, next, u[pos + |m|..], v);
          FirstExtends(u, v, Ends(d, st), pos, m);
          EarliestIs(u + v, Ends(d, st), pos, m);
          SplitAfterMarker(LexStep(d), st, u, v, pos, m, next);
        case Hold(at) =>
          HoldSettles(u, Ends(d, st));
          SettledPrefix(d, st, u[..at], u[at..], v);
          SplitAfterHold(LexStep(d), st, u, v, at);
      }
    }
  }

  lemma NothingSplit(step: Step, st: ParserState, v: string)
    ensures SplitAgrees(step, st, "", v)
  {
    assert "" + v == v;
  }

  lemma SplitAfterMarker(step: Step, st: ParserState, u: string, v: string, pos: nat, m: Marker, next: ParserState)
    requires u != "" && step(st, u) == Advance(pos, m, next) && step(st, u + v) == Advance(pos, m, next)
    requires pos + |m| <= |u| && SplitAgrees(step, next, u[pos + |m|..], v)
    ensures SplitAgrees(step, st, u, v)
  {
    ScanShows(step, st, u, pos, m, next);
    ScanShows(step, st, u + v, pos, m, next);
    assert (u + v)[pos + |m|..] == u[pos + |m|..] + v;
    assert (u + v)[..pos] == u[..pos];
    var o := Scan(step, next, u[pos + |m|..]);
    ConcatAssociates(Tag(BlockOf(st), u[..pos]), Shown(o.trace), Shown(Scan(step, o.state, o.retained + v).trace));
  }

  lemma SplitAfterHold(step: Step, st: ParserState, u: string, v: string, at: nat)
    requires u != "" && step(st, u) == Hold(at) && at <= |u|
    requires PrefixOnly(step, st, u[..at], u[at..] + v)
    ensures SplitAgrees(step, st, u, v)
  {
    ScanHolds(step, st, u, at);
    assert u + v == u[..at] + (u[at..] + v);
  }
}
