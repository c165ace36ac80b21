/** A stream that is not clean is cut differently by some way of arriving. */
module UncleanStreams {
  import opened Text
  import opened StreamParser
  import opened StreamChunking
  import opened CleanStreams

  /** The first `n` positions are not misplaced, and position `n` is. */
  ghost predicate FirstMisplaced(d: Dialect, st: ParserState, seg: string, n: nat) {
    Misplaced(d, st, seg, n) && Quiet(d, st, seg, n)
  }

  lemma FindFirstMisplaced(d: Dialect, st: ParserState, seg: string, i: nat) returns (n: nat)
    requires Misplaced(d, st, seg, i)
    ensures FirstMisplaced(d, st, seg, n)
  {
    n := 0;
    while !Misplaced(d, st, seg, n)
      invariant n <= i && Quiet(d, st, seg, n)
      decreases i - n
    {
      n := n + 1;
    }
  }

  lemma DistinctOpeners(d: Dialect, w: string, p: Marker, q: Marker, i: nat)
    requires WellFormed(d) && p in Openers(d) && q in Openers(d) && OccursAt(w, p, i) && OccursAt(w, q, i)
    ensures p == q
  {
    assert PrefixFree(Ends(d, InText) + Openers(d));
    assert p in Ends(d, InText) + Openers(d) && q in Ends(d, InText) + Openers(d);
    if |p| <= |q| {
      SamePosition(w, p, q, i);
    } else {
      SamePosition(w, q, p, i);
    }
  }

  // ----- calls that emit everything, and calls that consume an opener ---------

  lemma HeldOpens(w: string, ms: seq<Marker>, k: nat, i: nat)
    requires HeldAt(w, ms, k) && k <= i < |w|
    ensures w[i] == '<' <==> i == k
  {
    var m :| m in ms && |w| - k < |m| && w[k..] <= m;
    assert w[k..][i - k] == m[i - k];
  }

  lemma NothingHeld(w: string, ms: seq<Marker>, i: nat)
    requires i < |w| && w[i] == '<' && forall j | i < j < |w| :: w[j] != '<'
    requires !HeldAt(w, ms, i)
    ensures PartialStart(w, ms) == |w|
  {
    var k := PartialStart(w, ms);
    if k < |w| {
      HeldOpens(w, ms, k, if k < i then i else k);
    }
  }

  lemma NoOpening(w: string, ms: seq<Marker>)
    requires forall j | 0 <= j < |w| :: w[j] != '<'
    ensures PartialStart(w, ms) == |w| && Absent(w, ms)
  {
    forall k: nat | k < |w|
      ensures !HeldAt(w, ms, k)
    {
      if HeldAt(w, ms, k) {
        HeldOpens(w, ms, k, k);
      }
    }
    forall m, j: nat | m in ms
      ensures !OccursAt(w, m, j)
    {
      if OccursAt(w, m, j) {
        OccursChar(w, m, j, 0);
      }
    }
  }

  lemma ShowsAll(d: Dialect, st: ParserState, w: string)
    requires WellFormed(d) && w != "" && SegmentClean(d, st, w) && Absent(w, Ends(d, st)) &&
             PartialStart(w, Ends(d, st)) == |w|
    ensures SameOutcome(Scan(StepOf(d), st, w), Outcome(Piece(BlockOf(st), w, Done), st, ""))
  {
    AbsentIs(w, Ends(d, st));
    CleanDecidesByEnds(d, st, w);
    ScanHolds(StepOf(d), st, w, |w|);
    assert w[..|w|] == w;
  }

  /** The opener at `i`, the first one that counts, is consumed. */
  lemma Consumes(d: Dialect, st: ParserState, w: string, q: Marker, i: nat)
    requires WellFormed(d) && st != InText && q in Openers(d) && OccursAt(w, q, i) && i + |q| == |w|
    requires Absent(w, Ends(d, st)) && Quiet(d, st, w, i)
    requires q in d.thoughtStarts || (Find(w, q) == Some(i) && Least(st) <= i)
    ensures SameOutcome(Scan(StepOf(d), st, w), Outcome(Piece(BlockOf(st), w[..i], Done), NextAfterStart(d, q), ""))
  {
    var h := Starts(d, w, Least(st));
    QuietDoesNotInterrupt(d, st, w, i);
    StartsMeans(d, w, Least(st));
    DistinctOpeners(d, w, h.value.marker, q, i);
    AbsentIs(w, Ends(d, st));
    assert Decide(d, st, w) == Advance(i, q, NextAfterStart(d, q));
    ScanShows(StepOf(d), st, w, i, q, NextAfterStart(d, q));
    ScanPasses(StepOf(d), st, w, i, q, NextAfterStart(d, q));
    assert w[i + |q|..] == "";
  }

  // ----- the three ways an opener makes a difference ---------------------------

  lemma ShownNothing()
    ensures Shown(Done) == []
  {
  }

  lemma RunTwo(step: Step, st: ParserState, a: string, b: string)
    ensures var o := Scan(step, st, a);
            Shown(Run(step, st, "", [a, b]).trace) == Shown(o.trace) + Shown(Scan(step, o.state, o.retained + b).trace)
  {
    hide Scan, Append, Shown;
    var o := Scan(step, st, a);
    var p := Scan(step, o.state, o.retained + b);
    ShownNothing();
    assert "" + a == a && [a, b][1..] == [b] && [b][1..] == [];
    assert Run(step, p.state, p.retained, []).trace == Done;
    ShownAppend(p.trace, Done);
    assert Run(step, o.state, o.retained, [b]).trace == Append(p.trace, Done);
    ShownAppend(o.trace, Append(p.trace, Done));
  }

  /** `u` ends with an opener at `i` and holds no end marker; nothing before `i` is misplaced. */
  ghost predicate EndsWithOpener(d: Dialect, st: ParserState, u: string, q: Marker, i: nat) {
    && st != InText && q in Openers(d) && OccursAt(u, q, i) && i + |q| == |u|
    && Absent(u, Ends(d, st)) && Quiet(d, st, u, i)
  }

  lemma OnlyOpening(d: Dialect, st: ParserState, u: string, q: Marker, i: nat)
    requires EndsWithOpener(d, st, u, q, i)
    ensures u[i..] == q && u[i] == '<' && forall j | i < j < |u| :: u[j] != '<'
  {
    assert u[i..] == q;
    forall j | i <= j < |u|
      ensures u[j] == q[j - i]
    {
      OccursChar(u, q, i, j - i);
    }
  }

  /** The text before the end of the opener is clean and free of end markers. */
  lemma CutIsClean(d: Dialect, st: ParserState, u: string, q: Marker, i: nat, n: nat)
    requires WellFormed(d) && EndsWithOpener(d, st, u, q, i) && n < |u|
    ensures SegmentClean(d, st, u[..n]) && Absent(u[..n], Ends(d, st))
  {
    OnlyOpening(d, st, u, q, i);
    assert u == u[..n] + u[n..];
    forall e, j: nat | e in Ends(d, st)
      ensures !OccursAt(u[..n], e, j)
    {
      OccursInPrefix(u[..n], u[n..], e, j);
    }
    forall j: nat
      ensures !Misplaced(d, st, u[..n], j)
    {
      forall p | p in Openers(d) && OccursAt(u[..n], p, j)
        ensures InPlace(d, st, u[..n], p, j)
      {
        OccursInPrefix(u[..n], u[n..], p, j);
        OccursChar(u, p, j, 0);
        if j == i {
          DistinctOpeners(d, u, p, q, i);
        }
        assert !Misplaced(d, st, u, j);
        assert u[..n][..j] == u[..j];
      }
    }
  }

  lemma CutIsQuiet(d: Dialect, st: ParserState, u: string, q: Marker, i: nat, c: nat)
    requires EndsWithOpener(d, st, u, q, i) && CutsUnseen(q, c, Ends(d, st))
    ensures i + |q| == |u| && 1 <= c < |q|
    ensures u[..i + c] != "" && PartialStart(u[..i + c], Ends(d, st)) == i + c
  {
    var a := u[..i + c];
    OnlyOpening(d, st, u, q, i);
    assert a[i..] == q[..c];
    assert !HeldAt(a, Ends(d, st), i);
    NothingHeld(a, Ends(d, st), i);
  }

  lemma CutShowsAll(d: Dialect, st: ParserState, u: string, q: Marker, i: nat, c: nat)
    requires WellFormed(d) && EndsWithOpener(d, st, u, q, i) && CutsUnseen(q, c, Ends(d, st))
    ensures i + |q| == |u| && c < |q|
    ensures SameOutcome(Scan(StepOf(d), st, u[..i + c]), Outcome(Piece(BlockOf(st), u[..i + c], Done), st, ""))
  {
    hide *;
    CutIsQuiet(d, st, u, q, i, c);
    CutIsClean(d, st, u, q, i, i + c);
    ShowsAll(d, st, u[..i + c]);
  }

  lemma LengthOf(o: Outcome, st: ParserState, text: string)
    requires SameOutcome(o, Outcome(Piece(BlockOf(st), text, Done), st, ""))
    ensures |Shown(o.trace)| == |text| && o.state == st && o.retained == ""
  {
    assert Shown(Piece(BlockOf(st), text, Done)) == Tag(BlockOf(st), text) + [];
  }

  lemma RestIsPlain(q: Marker, c: nat)
    requires 1 <= c <= |q|
    ensures forall j | 0 <= j < |q[c..]| :: q[c..][j] != '<'
  {
  }

  /** An opener cut where its beginning looks like no end marker is emitted as text. */
  lemma SlipsThrough(d: Dialect, st: ParserState, u: string, q: Marker, i: nat, c: nat)
    requires WellFormed(d) && EndsWithOpener(d, st, u, q, i) && CutsUnseen(q, c, Ends(d, st))
    ensures i + |q| == |u| && c < |q|
    ensures |Shown(Run(StepOf(d), st, "", [u[..i + c], q[c..]]).trace)| == |u|
  {
    hide WellFormed, Scan, Run, EndsWithOpener, CutsUnseen, Shown, SameOutcome, IsMarker;
    CutIsQuiet(d, st, u, q, i, c);
    var a, b := u[..i + c], q[c..];
    CutShowsAll(d, st, u, q, i, c);
    LengthOf(Scan(StepOf(d), st, a), st, a);
    RestIsPlain(q, c);
    ShowsPlain(d, st, b);
    LengthOf(Scan(StepOf(d), st, b), st, b);
    RunTwo(StepOf(d), st, a, b);
    assert "" + b == b;
  }

  lemma ShowsPlain(d: Dialect, st: ParserState, w: string)
    requires WellFormed(d) && w != "" && forall j | 0 <= j < |w| :: w[j] != '<'
    ensures SameOutcome(Scan(StepOf(d), st, w), Outcome(Piece(BlockOf(st), w, Done), st, ""))
  {
    NoOpening(w, Ends(d, st));
    NoOpening(w, Openers(d));
    ShowsAll(d, st, w);
  }

  lemma OpenerAloneIsShown(d: Dialect, q: Marker)
    requires WellFormed(d) && q in d.toolStarts
    ensures SameOutcome(Scan(StepOf(d), InToolCall, q), Outcome(Piece(FormulatingBlock, q, Done), InToolCall, ""))
  {
    var ends := Ends(d, InToolCall);
    assert PrefixFree(ends + Openers(d)) && q in Openers(d) && q in ends + Openers(d);
    forall e, j: nat | e in ends
      ensures !OccursAt(q, e, j)
    {
      assert e in ends + Openers(d);
      if OccursAt(q, e, j) {
        OccursChar(q, e, j, 0);
      }
    }
    forall j: nat
      ensures !Misplaced(d, InToolCall, q, j)
    {
      forall p | p in Openers(d) && OccursAt(q, p, j)
        ensures InPlace(d, InToolCall, q, p, j)
      {
        OccursChar(q, p, j, 0);
        assert OccursAt(q, q, 0);
        DistinctOpeners(d, q, p, q, 0);
      }
    }
    NotHeldWhole(d, InToolCall, q);
    NothingHeld(q, ends, 0);
    ShowsAll(d, InToolCall, q);
  }

  lemma NotHeldWhole(d: Dialect, st: ParserState, q: Marker)
    requires WellFormed(d) && q in Openers(d)
    ensures !HeldAt(q, Ends(d, st), 0)
  {
    assert PrefixFree(Ends(d, st) + Openers(d)) && q in Ends(d, st) + Openers(d);
    assert q[0..] == q;
    forall e | e in Ends(d, st)
      ensures e in Ends(d, st) + Openers(d)
    {
    }
  }

  /** A tool opener cut after `<` is held back, and then stands at the start of the buffer. */
  lemma HeldBackOpenerIsShown(d: Dialect, u: string, q: Marker, i: nat)
    requires WellFormed(d) && EndsWithOpener(d, InToolCall, u, q, i) && q in d.toolStarts && i > 0
    ensures |Shown(Run(StepOf(d), InToolCall, "", [u[..i + 1], q[1..]]).trace)| == |u|
  {
    var a, b, ends := u[..i + 1], q[1..], Ends(d, InToolCall);
    OnlyOpening(d, InToolCall, u, q, i);
    CutIsClean(d, InToolCall, u, q, i, i + 1);
    assert BeginsAnEnd(q, 1, d.toolEnds);
    assert a[i..] == q[..1];
    assert HeldAt(a, ends, i);
    var k := PartialStart(a, ends);
    HeldOpens(a, ends, k, i);
    AbsentIs(a, ends);
    CleanDecidesByEnds(d, InToolCall, a);
    ScanHolds(StepOf(d), InToolCall, a, i);
    OpenerAloneIsShown(d, q);
    RunTwo(StepOf(d), InToolCall, a, b);
    assert a[i..] + b == q;
  }

  // ----- copies of a tool opener that are not aligned --------------------------

  /** How far the leading copies of `q` reach. */
  function CopiesEnd(x: string, q: Marker): (n: nat)
    decreases |x|
    ensures n <= |x| && (q <= x ==> |q| <= n)
  {
    if q <= x then |q| + CopiesEnd(x[|q|..], q) else 0
  }

  lemma {:induction false} CopiesRepeat(x: string, q: Marker)
    ensures Repeats(x[..CopiesEnd(x, q)], q)
    ensures CopiesEnd(x, q) > 0 ==> CopiesEnd(x, q) >= |q| && OccursAt(x, q, CopiesEnd(x, q) - |q|)
    decreases |x|
  {
    if q <= x {
      var n, y := CopiesEnd(x[|q|..], q), x[..CopiesEnd(x, q)];
      CopiesRepeat(x[|q|..], q);
      assert y[|q|..] == x[|q|..][..n] && y[..|q|] == x[..|q|];
      assert x == q + x[|q|..];
      if n > 0 {
        OccursInSuffix(q, x[|q|..], q, n - |q|);
      }
    }
  }

  lemma {:induction false} CopiesEndIsLast(x: string, q: Marker, k: nat)
    requires k <= |x| && Repeats(x[..k], q)
    ensures k <= CopiesEnd(x, q)
    decreases |x|
  {
    if k > 0 {
      assert x[..k][..|q|] == x[..|q|];
      assert x[..k][|q|..] == x[|q|..][..k - |q|];
      CopiesEndIsLast(x[|q|..], q, k - |q|);
    }
  }

  lemma {:induction false} RepeatsOneMore(x: string, q: Marker)
    requires Repeats(x, q)
    ensures Repeats(x + q, q)
    decreases |x|
  {
    if x == "" {
      assert x + q == q && q[|q|..] == "";
    } else {
      assert (x + q)[|q|..] == x[|q|..] + q;
      RepeatsOneMore(x[|q|..], q);
    }
  }

  /** A tool opener that stands at the start of a tool call and again later, out of line. */
  ghost predicate Misaligned(d: Dialect, u: string, q: Marker, i: nat) {
    EndsWithOpener(d, InToolCall, u, q, i) && q in d.toolStarts && Find(u, q) == Some(0) && !Repeats(u[..i], q)
  }

  lemma OnlyOpener(d: Dialect, u: string, q: Marker, i: nat, p: Marker, j: nat)
    requires WellFormed(d) && Misaligned(d, u, q, i) && p in Openers(d) && OccursAt(u, p, j)
    ensures p == q && (j == i || (j < i && Repeats(u[..j], q)))
  {
    OnlyOpening(d, InToolCall, u, q, i);
    OccursChar(u, p, j, 0);
    if j == i {
      DistinctOpeners(d, u, p, q, i);
    } else {
      assert !Misplaced(d, InToolCall, u, j);
      InPlaceIsIgnored(d, InToolCall, u, p, j);
      DistinctOpeners(d, u, p, q, 0);
    }
  }

  lemma MisalignedShownWhole(d: Dialect, u: string, q: Marker, i: nat)
    requires WellFormed(d) && Misaligned(d, u, q, i)
    ensures |Shown(Scan(StepOf(d), InToolCall, u).trace)| == |u|
  {
    var ends := Ends(d, InToolCall);
    StartsMeans(d, u, 1);
    var h := Starts(d, u, 1);
    if h.Some? {
      OnlyOpener(d, u, q, i, h.value.marker, h.value.pos);
    }
    AbsentIs(u, ends);
    OnlyOpening(d, InToolCall, u, q, i);
    WholeOpenerNotHeld(d, InToolCall, u, q, i);
    NothingHeld(u, ends, i);
    ScanHolds(StepOf(d), InToolCall, u, |u|);
    assert u[..|u|] == u;
  }

  lemma WholeOpenerNotHeld(d: Dialect, st: ParserState, u: string, q: Marker, i: nat)
    requires WellFormed(d) && q in Openers(d) && i <= |u| && u[i..] == q
    ensures !HeldAt(u, Ends(d, st), i)
  {
    NotHeldWhole(d, st, q);
    assert q[0..] == q;
  }

  /** The copies end where `p` says: no opener follows them before `i`. */
  lemma NoOpenerAfterCopies(d: Dialect, u: string, q: Marker, i: nat, r: Marker, j: nat)
    requires WellFormed(d) && Misaligned(d, u, q, i) && i <= |u| && r in Openers(d) && CopiesEnd(u[..i], q) <= j < i
    ensures !OccursAt(u, r, j)
  {
    hide Misaligned, WellFormed, Repeats, CopiesEnd;
    if OccursAt(u, r, j) {
      MisalignedEnds(d, u, q, i);
      OnlyOpener(d, u, q, i, r, j);
      NoOverlap(u, q, j, i);
      RepeatsOneMore(u[..j], q);
      assert u[..i][..j + |q|] == u[..j] + q;
      CopiesEndIsLast(u[..i], q, j + |q|);
    }
  }

  lemma MisalignedEnds(d: Dialect, u: string, q: Marker, i: nat)
    requires Misaligned(d, u, q, i)
    ensures i + |q| == |u| && u[i] == '<' && OccursAt(u, q, 0) && 0 < i
  {
    OnlyOpening(d, InToolCall, u, q, i);
  }

  lemma CopiesBefore(d: Dialect, u: string, q: Marker, i: nat) returns (p: nat)
    requires WellFormed(d) && Misaligned(d, u, q, i)
    ensures 0 < p < i <= |u| && p >= |q| && OccursAt(u[..p], q, p - |q|)
    ensures forall r, j: nat | r in Openers(d) && p <= j < i :: !OccursAt(u, r, j)
  {
    hide WellFormed;
    MisalignedEnds(d, u, q, i);
    NoOverlap(u, q, 0, i);
    var x := u[..i];
    p := CopiesEnd(x, q);
    assert x[..|q|] == u[..|q|] == q;
    CopiesRepeat(x, q);
    assert x[..|x|] == x;
    assert x[..p] == u[..p] && u[..p][p - |q|..] == x[p - |q|..p];
    forall r, j: nat | r in Openers(d) && p <= j < i
      ensures !OccursAt(u, r, j)
    {
      NoOpenerAfterCopies(d, u, q, i, r, j);
    }
  }

  /** Arriving after the copies, the same opener is consumed. */
  lemma MisalignedConsumed(d: Dialect, u: string, q: Marker, i: nat, p: nat)
    requires WellFormed(d) && Misaligned(d, u, q, i) && p < i <= |u|
    requires forall r, j: nat | r in Openers(d) && p <= j < i :: !OccursAt(u, r, j)
    ensures |Shown(Scan(StepOf(d), InToolCall, u[p..]).trace)| == i - p
  {
    hide WellFormed, Scan, Decide, Openers, Ends, Find;
    var b := u[p..];
    assert u == u[..p] + b;
    OnlyOpening(d, InToolCall, u, q, i);
    forall r, j: nat
      ensures OccursAt(b, r, j) <==> OccursAt(u, r, p + j)
    {
      OccursInSuffix(u[..p], b, r, j);
    }
    assert OccursAt(u, q, p + (i - p));
    FindIs(b, q, i - p);
    Consumes(d, InToolCall, b, q, i - p);
    assert Shown(Piece(FormulatingBlock, b[..i - p], Done)) == Tag(FormulatingBlock, b[..i - p]) + [];
  }

  lemma MisalignedCut(d: Dialect, u: string, q: Marker, i: nat) returns (p: nat)
    requires WellFormed(d) && Misaligned(d, u, q, i)
    ensures p < i <= |u|
    ensures |Shown(Run(StepOf(d), InToolCall, "", [u[..p], u[p..]]).trace)| == i
  {
    hide WellFormed, Scan, Run, Shown, SameOutcome;
    p := CopiesBefore(d, u, q, i);
    var a := u[..p];
    OnlyOpening(d, InToolCall, u, q, i);
    CutIsClean(d, InToolCall, u, q, i, p);
    EndOfCopies(d, a, q);
    ShowsAll(d, InToolCall, a);
    LengthOf(Scan(StepOf(d), InToolCall, a), InToolCall, a);
    MisalignedConsumed(d, u, q, i, p);
    RunTwo(StepOf(d), InToolCall, a, u[p..]);
    assert "" + u[p..] == u[p..];
  }

  lemma EndOfCopies(d: Dialect, a: string, q: Marker)
    requires WellFormed(d) && q in Openers(d) && |a| >= |q| && OccursAt(a, q, |a| - |q|)
    ensures PartialStart(a, Ends(d, InToolCall)) == |a|
  {
    var k := |a| - |q|;
    assert a[k..] == q;
    forall j | k <= j < |a|
      ensures a[j] == q[j - k]
    {
      OccursChar(a, q, k, j - k);
    }
    WholeOpenerNotHeld(d, InToolCall, a, q, k);
    NothingHeld(a, Ends(d, InToolCall), k);
  }

  // ----- every unclean stream shows a difference -------------------------------

  ghost predicate Differs(d: Dialect, st: ParserState, chunks: seq<string>) {
    !SameOutcome(Run(StepOf(d), st, "", chunks), Scan(StepOf(d), st, Joined(chunks)))
  }

  lemma DifferentLength(d: Dialect, st: ParserState, a: string, b: string)
    requires |Shown(Run(StepOf(d), st, "", [a, b]).trace)| != |Shown(Scan(StepOf(d), st, a + b).trace)|
    ensures Differs(d, st, [a, b])
  {
    JoinedTwo(a, b);
  }

  lemma WholeConsumes(d: Dialect, st: ParserState, u: string, q: Marker, i: nat)
    requires WellFormed(d) && EndsWithOpener(d, st, u, q, i)
    requires q in d.thoughtStarts || (Find(u, q) == Some(i) && Least(st) <= i)
    ensures |Shown(Scan(StepOf(d), st, u).trace)| == i
  {
    Consumes(d, st, u, q, i);
    assert Shown(Piece(BlockOf(st), u[..i], Done)) == Tag(BlockOf(st), u[..i]) + [];
  }

  /** Two chunks that show that the opener at `i` depends on how it arrives. */
  lemma OpenerDiffers(d: Dialect, st: ParserState, u: string, q: Marker, i: nat) returns (a: string, b: string)
    requires WellFormed(d) && EndsWithOpener(d, st, u, q, i) && !InPlace(d, st, u, q, i)
    ensures a + b == u && Differs(d, st, [a, b])
  {
    hide Differs, Scan, Run, Shown;
    OnlyOpening(d, st, u, q, i);
    if st == InThought || q in d.thoughtStarts {
      var c: nat :| CutsUnseen(q, c, Ends(d, st));
      SlipsThrough(d, st, u, q, i, c);
      OpenerInThoughtIsFirst(d, st, u, q, i);
      WholeConsumes(d, st, u, q, i);
      a, b := u[..i + c], q[c..];
      assert u == u[..i + c] + u[i..][c..];
    } else if Find(u, q) == Some(i) {
      HeldBackOpenerIsShown(d, u, q, i);
      WholeConsumes(d, st, u, q, i);
      a, b := u[..i + 1], q[1..];
      assert u == u[..i + 1] + u[i..][1..];
    } else {
      OpenerRepeatedIsMisaligned(d, u, q, i);
      MisalignedShownWhole(d, u, q, i);
      var p := MisalignedCut(d, u, q, i);
      a, b := u[..p], u[p..];
      assert a + b == u;
    }
    DifferentLength(d, st, a, b);
  }

  lemma OpenerInThoughtIsFirst(d: Dialect, st: ParserState, u: string, q: Marker, i: nat)
    requires EndsWithOpener(d, st, u, q, i) && (st == InThought || q in d.thoughtStarts)
    ensures q in d.thoughtStarts || (Find(u, q) == Some(i) && Least(st) <= i)
  {
    if q !in d.thoughtStarts {
      forall k: nat | k < i
        ensures !OccursAt(u, q, k)
      {
        assert !Misplaced(d, st, u, k);
      }
      FindIs(u, q, i);
    }
  }

  lemma OpenerRepeatedIsMisaligned(d: Dialect, u: string, q: Marker, i: nat)
    requires WellFormed(d) && EndsWithOpener(d, InToolCall, u, q, i) && !InPlace(d, InToolCall, u, q, i)
    requires q !in d.thoughtStarts && Find(u, q) != Some(i)
    ensures Misaligned(d, u, q, i)
  {
    var k := Find(u, q).value;
    assert !Misplaced(d, InToolCall, u, k);
    InPlaceIsIgnored(d, InToolCall, u, q, k);
  }

  lemma SegmentOpens(d: Dialect, st: ParserState, w: string)
    ensures Segment(d, st, w) <= w && Absent(Segment(d, st, w), Ends(d, st))
  {
    EarliestMeans(w, Ends(d, st));
    var seg := Segment(d, st, w);
    assert seg <= w;
    assert w == seg + w[|seg|..];
    forall e, j: nat | e in Ends(d, st)
      ensures !OccursAt(seg, e, j)
    {
      OccursInPrefix(seg, w[|seg|..], e, j);
    }
  }

  lemma CutAfterOpener(d: Dialect, st: ParserState, seg: string, q: Marker, i: nat)
    requires st != InText && q in Openers(d) && OccursAt(seg, q, i) && !InPlace(d, st, seg, q, i)
    requires Absent(seg, Ends(d, st)) && Quiet(d, st, seg, i)
    ensures var u := seg[..i + |q|]; EndsWithOpener(d, st, u, q, i) && !InPlace(d, st, u, q, i)
  {
    var u, rest := seg[..i + |q|], seg[i + |q|..];
    assert seg == u + rest;
    forall p, j: nat
      ensures OccursAt(u, p, j) ==> OccursAt(seg, p, j)
    {
      OccursInPrefix(u, rest, p, j);
    }
    OccursInPrefix(u, rest, q, i);
    assert u[..i] == seg[..i];
    forall j: nat | j < i
      ensures !Misplaced(d, st, u, j)
    {
      assert !Misplaced(d, st, seg, j);
      assert u[..j] == seg[..j];
    }
  }

  lemma SegmentEndsWithOpener(d: Dialect, st: ParserState, w: string) returns (u: string, q: Marker, i: nat)
    requires !SegmentClean(d, st, Segment(d, st, w))
    ensures u <= w && EndsWithOpener(d, st, u, q, i) && !InPlace(d, st, u, q, i)
  {
    hide Segment, EndsWithOpener, InPlace;
    SegmentOpens(d, st, w);
    var seg := Segment(d, st, w);
    var bad: nat :| Misplaced(d, st, seg, bad);
    i := FindFirstMisplaced(d, st, seg, bad);
    q :| q in Openers(d) && OccursAt(seg, q, i) && !InPlace(d, st, seg, q, i);
    CutAfterOpener(d, st, seg, q, i);
    u := seg[..i + |q|];
  }

  /** A clean first segment changes nothing: the difference comes after its end marker. */
  lemma DiffersAfterMarker(d: Dialect, st: ParserState, w: string, pos: nat, m: Marker, next: ParserState,
                           chunks: seq<string>)
    requires WellFormed(d) && SegmentClean(d, st, Segment(d, st, w))
    requires LexDecide(d, st, w) == Advance(pos, m, next) && pos + |m| <= |w|
    requires Joined(chunks) <= w[pos + |m|..] && Differs(d, next, chunks)
    ensures Joined([w[..pos + |m|]] + chunks) <= w && Differs(d, st, [w[..pos + |m|]] + chunks)
  {
    var a, t := w[..pos + |m|], Joined(chunks);
    assert ([a] + chunks)[1..] == chunks && "" + a == a;
    assert w == a + w[pos + |m|..] && a + "" == a;
    assert a + t <= w;
    MarkerDecides(d, st, w, pos, m, next, "");
    MarkerDecides(d, st, w, pos, m, next, t);
    ScanShows(StepOf(d), st, a, pos, m, next);
    ScanShows(StepOf(d), st, a + t, pos, m, next);
    assert a[pos + |m|..] == "" && (a + t)[pos + |m|..] == t && a[..pos] == (a + t)[..pos];
    RunAfter(d, st, a, chunks, next);
    var head := Shown(Scan(StepOf(d), st, a).trace);
    assert head == Tag(BlockOf(st), a[..pos]) + [] == Tag(BlockOf(st), a[..pos]);
    SamePrefix(head, Shown(Run(StepOf(d), next, "", chunks).trace), Shown(Scan(StepOf(d), next, t).trace));
  }

  lemma SamePrefix<T>(x: seq<T>, y: seq<T>, z: seq<T>)
    ensures x + y == x + z ==> y == z
  {
    assert (x + y)[|x|..] == y && (x + z)[|x|..] == z;
  }

  lemma RunAfter(d: Dialect, st: ParserState, a: string, chunks: seq<string>, next: ParserState)
    requires Scan(StepOf(d), st, a).state == next && Scan(StepOf(d), st, a).retained == ""
    ensures var r, rest := Run(StepOf(d), st, "", [a] + chunks), Run(StepOf(d), next, "", chunks);
            r.state == rest.state && r.retained == rest.retained &&
            Shown(r.trace) == Shown(Scan(StepOf(d), st, a).trace) + Shown(rest.trace)
  {
    assert ([a] + chunks)[1..] == chunks && "" + a == a;
    ShownAppend(Scan(StepOf(d), st, a).trace, Run(StepOf(d), next, "", chunks).trace);
  }

  /** The first end marker of `w` is decided on as soon as it is complete. */
  lemma MarkerDecides(d: Dialect, st: ParserState, w: string, pos: nat, m: Marker, next: ParserState, t: string)
    requires WellFormed(d) && SegmentClean(d, st, Segment(d, st, w))
    requires LexDecide(d, st, w) == Advance(pos, m, next) && pos + |m| <= |w| && w[..pos + |m|] + t <= w
    ensures Decide(d, st, w[..pos + |m|] + t) == Advance(pos, m, next)
  {
    var u, ends := w[..pos + |m|], Ends(d, st);
    LexInRange(d, st, w);
    EndsPrefixFree(d, st);
    assert w == u + w[pos + |m|..];
    forall e, j: nat | e in ends && j < pos
      ensures !OccursAt(u, e, j)
    {
      OccursInPrefix(u, w[pos + |m|..], e, j);
    }
    OccursInPrefix(u, w[pos + |m|..], m, pos);
    FirstExtends(u, t, ends, pos, m);
    EarliestIs(u + t, ends, pos, m);
    EarliestIs(w, ends, pos, m);
    assert (u + t)[..pos] == w[..pos];
    CleanDecidesByEnds(d, st, u + t);
  }

  lemma LaterSegmentUnclean(d: Dialect, st: ParserState, w: string)
    requires !Clean(d, st, w) && SegmentClean(d, st, Segment(d, st, w))
    ensures match LexDecide(d, st, w)
            case Advance(pos, m, next) => pos + |m| <= |w| && !Clean(d, next, w[pos + |m|..])
            case Hold(at) => false
  {
    LexInRange(d, st, w);
  }

  lemma {:induction false} UncleanDiffers(d: Dialect, st: ParserState, w: string) returns (chunks: seq<string>)
    requires WellFormed(d) && !Clean(d, st, w)
    ensures Joined(chunks) <= w && Differs(d, st, chunks)
    decreases |w|
  {
    hide WellFormed, Clean, SegmentClean, Segment, Differs, Joined, LexDecide, EndsWithOpener, InPlace;
    if SegmentClean(d, st, Segment(d, st, w)) {
      LaterSegmentUnclean(d, st, w);
      match LexDecide(d, st, w)
      case Advance(pos, m, next) =>
        var rest := UncleanDiffers(d, next, w[pos + |m|..]);
        DiffersAfterMarker(d, st, w, pos, m, next, rest);
        chunks := [w[..pos + |m|]] + rest;
    } else {
      var u, q, i := SegmentEndsWithOpener(d, st, w);
      var a, b := OpenerDiffers(d, st, u, q, i);
      JoinedTwo(a, b);
      chunks := [a, b];
    }
  }

  /** However `w`, or as much of it as has arrived, is cut into chunks, the parser
      ends in the same state, keeps the same tail and has shown the same output. */
  ghost predicate ChunkIndependent(d: Dialect, st: ParserState, w: string) {
    forall chunks | Joined(chunks) <= w :: !Differs(d, st, chunks)
  }

  /** The streams that may be cut anywhere are exactly the clean ones. */
  lemma ChunkIndependentIffClean(d: Dialect, st: ParserState, w: string)
    requires WellFormed(d)
    ensures ChunkIndependent(d, st, w) <==> Clean(d, st, w)
  {
    if Clean(d, st, w) {
      forall chunks | Joined(chunks) <= w
        ensures !Differs(d, st, chunks)
      {
        var t := Joined(chunks);
        assert w == t + w[|t|..] && "" + t == t;
        CleanPrefix(d, st, t, w[|t|..]);
        CleanRunIsOneCall(d, st, "", chunks);
        ScanIsLex(d, st, t);
      }
    } else {
      var chunks := UncleanDiffers(d, st, w);
    }
  }
}
