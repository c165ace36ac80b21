/** What the streaming parser does to every stream, clean or not: nothing is lost,
    nothing is kept longer than needed, and no marker that should have ended or
    split a segment is shown inside it. */
module StreamOutput {
  import opened Text
  import opened StreamParser
  import opened StreamChunking
  import opened CleanStreams

  lemma DecideMeans(d: Dialect, st: ParserState, input: string)
    ensures match Decide(d, st, input)
            case Advance(pos, m, next) => OccursAt(input, m, pos) && NoneBefore(input, Ends(d, st), pos)
            case Hold(at) => at == PartialStart(input, Ends(d, st)) && Absent(input, Ends(d, st))
  {
    StartsMeans(d, input, Least(st));
    if st == InText {
      EarliestMeans(input, d.textChannel);
    } else {
      EarliestMeans(input, Ends(d, st));
    }
  }

  // ----- nothing is lost --------------------------------------------------------

  /** The emitted pieces interleaved with the consumed markers. */
  function Flatten(trace: Trace): string {
    match trace
    case Done => ""
    case Piece(_, text, rest) => text + Flatten(rest)
    case Consumed(m, _, rest) => m + Flatten(rest)
  }

  lemma FlattenAppend(a: Trace, b: Trace)
    ensures Flatten(Append(a, b)) == Flatten(a) + Flatten(b)
  {
    match a {
      case Done =>
      case Piece(_, text, rest) =>
        FlattenAppend(rest, b);
        ConcatAssociates(text, Flatten(rest), Flatten(b));
      case Consumed(m, _, rest) =>
        FlattenAppend(rest, b);
        ConcatAssociates(m, Flatten(rest), Flatten(b));
    }
  }

  lemma ScanTrace(step: Step, st: ParserState, input: string, pos: nat, m: Marker, next: ParserState)
    requires input != "" && step(st, input) == Advance(pos, m, next) && pos + |m| <= |input|
    ensures var o, rest := Scan(step, st, input), Scan(step, next, input[pos + |m|..]);
            o == Outcome(Emit(st, input[..pos], Consumed(m, next, rest.trace)), rest.state, rest.retained)
  {
  }

  lemma NoInput(step: Step, st: ParserState)
    ensures Scan(step, st, "") == Outcome(Done, st, "")
  {
  }

  lemma HoldTrace(step: Step, st: ParserState, input: string, at: nat)
    requires input != "" && step(st, input) == Hold(at) && at <= |input|
    ensures Scan(step, st, input) == Outcome(Emit(st, input[..at], Done), st, input[at..])
  {
  }

  lemma MarkerKeepsInput(step: Step, st: ParserState, input: string, pos: nat, m: Marker, next: ParserState)
    requires input != "" && step(st, input) == Advance(pos, m, next) && OccursAt(input, m, pos)
    requires var rest := Scan(step, next, input[pos + |m|..]); Flatten(rest.trace) + rest.retained == input[pos + |m|..]
    ensures var o := Scan(step, st, input); Flatten(o.trace) + o.retained == input
  {
    hide Scan;
    var rest := Scan(step, next, input[pos + |m|..]);
    ScanTrace(step, st, input, pos, m, next);
    assert Flatten(Emit(st, input[..pos], Consumed(m, next, rest.trace))) == input[..pos] + (m + Flatten(rest.trace));
    ConcatAssociates(input[..pos], m + Flatten(rest.trace), rest.retained);
    ConcatAssociates(m, Flatten(rest.trace), rest.retained);
    assert input == input[..pos] + (input[pos..pos + |m|] + input[pos + |m|..]);
  }

  lemma {:induction false} ScanKeepsInput(d: Dialect, st: ParserState, input: string)
    ensures var o := Scan(StepOf(d), st, input); Flatten(o.trace) + o.retained == input
    decreases |input|
  {
    hide Scan, Decide;
    if input == "" {
      NoInput(StepOf(d), st);
    } else {
      DecideMeans(d, st, input);
      match Decide(d, st, input) {
        case Advance(pos, m, next) =>
          ScanKeepsInput(d, next, input[pos + |m|..]);
          MarkerKeepsInput(StepOf(d), st, input, pos, m, next);
        case Hold(at) =>
          HoldTrace(StepOf(d), st, input, at);
          assert Flatten(Emit(st, input[..at], Done)) == input[..at] + "" == input[..at];
      }
    }
  }

  /** Pieces, markers and the kept tail, put together again, are the stream. */
  lemma {:induction false} NothingLost(d: Dialect, st: ParserState, buffer: string, chunks: seq<string>)
    ensures var o := Run(StepOf(d), st, buffer, chunks); Flatten(o.trace) + o.retained == buffer + Joined(chunks)
    decreases |chunks|
  {
    if chunks != [] {
      var o := Scan(StepOf(d), st, buffer + chunks[0]);
      ScanKeepsInput(d, st, buffer + chunks[0]);
      NothingLost(d, o.state, o.retained, chunks[1..]);
      var rest := Run(StepOf(d), o.state, o.retained, chunks[1..]);
      FlattenAppend(o.trace, rest.trace);
      ConcatAssociates(Flatten(o.trace), Flatten(rest.trace), rest.retained);
      ConcatAssociates(Flatten(o.trace), o.retained, Joined(chunks[1..]));
      ConcatAssociates(buffer, chunks[0], Joined(chunks[1..]));
    }
  }

  // ----- nothing is kept longer than needed -------------------------------------

  /** Empty, or the beginning of a marker that is still incomplete. */
  ghost predicate JustBegun(d: Dialect, st: ParserState, tail: string) {
    tail == "" || HeldAt(tail, Ends(d, st), 0)
  }

  lemma {:induction false} ScanKeepsLittle(d: Dialect, st: ParserState, input: string)
    ensures var o := Scan(StepOf(d), st, input); JustBegun(d, o.state, o.retained)
    decreases |input|
  {
    if input != "" {
      DecideMeans(d, st, input);
      match Decide(d, st, input) {
        case Advance(pos, m, next) =>
          ScanKeepsLittle(d, next, input[pos + |m|..]);
          ScanPasses(StepOf(d), st, input, pos, m, next);
        case Hold(at) =>
          ScanHolds(StepOf(d), st, input, at);
          assert input[at..][0..] == input[at..];
      }
    }
  }

  /** After every chunk the kept tail is the beginning of one marker and no more. */
  lemma {:induction false} LittleKept(d: Dialect, st: ParserState, buffer: string, chunks: seq<string>)
    requires JustBegun(d, st, buffer)
    ensures var o := Run(StepOf(d), st, buffer, chunks); JustBegun(d, o.state, o.retained)
    decreases |chunks|
  {
    if chunks != [] {
      var o := Scan(StepOf(d), st, buffer + chunks[0]);
      ScanKeepsLittle(d, st, buffer + chunks[0]);
      LittleKept(d, o.state, o.retained, chunks[1..]);
    }
  }

  // ----- no end marker inside a segment -------------------------------------------

  /** From state `st`, where `shown` has been emitted since the last marker: every
      piece has the type of its segment, and no segment shows one of its end markers. */
  ghost predicate SegmentsFree(d: Dialect, st: ParserState, shown: string, trace: Trace)
    decreases trace
  {
    match trace
    case Done => Absent(shown, Ends(d, st))
    case Piece(b, text, rest) => b == BlockOf(st) && SegmentsFree(d, st, shown + text, rest)
    case Consumed(_, next, rest) => Absent(shown, Ends(d, st)) && SegmentsFree(d, next, "", rest)
  }

  /** What the current segment has shown once the trace is over. */
  function ShownSince(shown: string, trace: Trace): string
    decreases trace
  {
    match trace
    case Done => shown
    case Piece(_, text, rest) => ShownSince(shown + text, rest)
    case Consumed(_, _, rest) => ShownSince("", rest)
  }

  /** The state a trace that starts in `st` ends in. */
  function StateAfter(st: ParserState, trace: Trace): ParserState
    decreases trace
  {
    match trace
    case Done => st
    case Piece(_, _, rest) => StateAfter(st, rest)
    case Consumed(_, next, rest) => StateAfter(next, rest)
  }

  lemma {:induction false} FreeAppend(d: Dialect, st: ParserState, shown: string, a: Trace, b: Trace)
    requires SegmentsFree(d, st, shown, a) && SegmentsFree(d, StateAfter(st, a), ShownSince(shown, a), b)
    ensures SegmentsFree(d, st, shown, Append(a, b))
    ensures ShownSince(shown, Append(a, b)) == ShownSince(ShownSince(shown, a), b)
    ensures StateAfter(st, Append(a, b)) == StateAfter(StateAfter(st, a), b)
    decreases a
  {
    match a
    case Done =>
    case Piece(_, text, rest) => FreeAppend(d, st, shown + text, rest, b);
    case Consumed(_, next, rest) => FreeAppend(d, next, "", rest, b);
  }

  lemma BeforeMarkerFree(d: Dialect, st: ParserState, shown: string, kept: string, z: string, pos: nat, m: Marker)
    requires Settled(shown, kept, Ends(d, st)) && OccursAt(kept + z, m, pos) && NoneBefore(kept + z, Ends(d, st), pos)
    ensures Absent(shown + (kept + z)[..pos], Ends(d, st))
  {
    var t := kept + z;
    SettledNoneBefore(shown, kept, z, Ends(d, st), pos);
    assert shown + t == (shown + t[..pos]) + t[pos..];
    forall e, j: nat | e in Ends(d, st)
      ensures !OccursAt(shown + t[..pos], e, j)
    {
      OccursInPrefix(shown + t[..pos], t[pos..], e, j);
    }
  }

  lemma HoldKeepsSettled(d: Dialect, st: ParserState, shown: string, kept: string, z: string)
    requires Settled(shown, kept, Ends(d, st)) && Absent(kept + z, Ends(d, st))
    ensures var t, ms := kept + z, Ends(d, st); var at := PartialStart(t, ms); Settled(shown + t[..at], t[at..], ms)
  {
    var t, ms := kept + z, Ends(d, st);
    var at := PartialStart(t, ms);
    SettledAbsent(shown, kept, z, ms);
    HeldShift(shown, kept, z, ms);
    HoldSettles(shown + t, ms);
    assert (shown + t)[..|shown| + at] == shown + t[..at];
    assert (shown + t)[|shown| + at..] == t[at..];
  }

  /** One call, from a parser whose segment has shown `shown` and keeps `kept`. */
  lemma {:induction false} ScanFree(d: Dialect, st: ParserState, shown: string, kept: string, z: string)
    requires Settled(shown, kept, Ends(d, st))
    ensures var o := Scan(StepOf(d), st, kept + z);
            && SegmentsFree(d, st, shown, o.trace)
            && StateAfter(st, o.trace) == o.state
            && Settled(ShownSince(shown, o.trace), o.retained, Ends(d, o.state))
    decreases |kept + z|
  {
    hide Settled, Decide;
    var t := kept + z;
    if t == "" {
      SettledMeans(shown, kept, Ends(d, st));
      assert kept == "";
    } else {
      DecideMeans(d, st, t);
      match Decide(d, st, t) {
        case Advance(pos, m, next) =>
          BeforeMarkerFree(d, st, shown, kept, z, pos, m);
          NothingSettled(t[pos + |m|..], Ends(d, next));
          assert "" + t[pos + |m|..] == t[pos + |m|..];
          ScanFree(d, next, "", "", t[pos + |m|..]);
          AdvanceFree(d, st, shown, t, pos, m, next);
        case Hold(at) =>
          HoldKeepsSettled(d, st, shown, kept, z);
          SettledMeans(shown + t[..at], t[at..], Ends(d, st));
          HoldFree(d, st, shown, t, at);
      }
    }
  }

  lemma SettledMeans(x: string, y: string, ms: seq<Marker>)
    requires Settled(x, y, ms)
    ensures Absent(x, ms)
  {
  }

  lemma NothingSettled(y: string, ms: seq<Marker>)
    ensures Settled("", "", ms) && Absent("", ms)
  {
  }

  lemma AdvanceFree(d: Dialect, st: ParserState, shown: string, t: string, pos: nat, m: Marker, next: ParserState)
    requires t != "" && Decide(d, st, t) == Advance(pos, m, next) && pos + |m| <= |t|
    requires Absent(shown + t[..pos], Ends(d, st))
    requires SegmentsFree(d, next, "", Scan(StepOf(d), next, t[pos + |m|..]).trace)
    ensures var o, rest := Scan(StepOf(d), st, t), Scan(StepOf(d), next, t[pos + |m|..]);
            && SegmentsFree(d, st, shown, o.trace)
            && StateAfter(st, o.trace) == StateAfter(next, rest.trace)
            && ShownSince(shown, o.trace) == ShownSince("", rest.trace)
            && o.state == rest.state && o.retained == rest.retained
  {
    hide Scan, Decide, Absent;
    ScanTrace(StepOf(d), st, t, pos, m, next);
    assert t[..pos] == "" ==> shown + t[..pos] == shown;
  }

  lemma HoldFree(d: Dialect, st: ParserState, shown: string, t: string, at: nat)
    requires t != "" && Decide(d, st, t) == Hold(at) && at <= |t|
    requires Absent(shown + t[..at], Ends(d, st))
    ensures var o := Scan(StepOf(d), st, t);
            && SegmentsFree(d, st, shown, o.trace)
            && StateAfter(st, o.trace) == st == o.state
            && ShownSince(shown, o.trace) == shown + t[..at] && o.retained == t[at..]
  {
    hide Scan, Decide, Absent;
    HoldTrace(StepOf(d), st, t, at);
    assert t[..at] == "" ==> shown + t[..at] == shown;
  }

  /** Over every chunk sequence, from every state. */
  lemma {:induction false} RunFree(d: Dialect, st: ParserState, shown: string, kept: string, chunks: seq<string>)
    requires Settled(shown, kept, Ends(d, st))
    ensures SegmentsFree(d, st, shown, Run(StepOf(d), st, kept, chunks).trace)
    decreases |chunks|
  {
    if chunks != [] {
      var o := Scan(StepOf(d), st, kept + chunks[0]);
      ScanFree(d, st, shown, kept, chunks[0]);
      RunFree(d, o.state, ShownSince(shown, o.trace), o.retained, chunks[1..]);
      FreeAppend(d, st, shown, o.trace, Run(StepOf(d), o.state, o.retained, chunks[1..]).trace);
    }
  }

  /** A new parser, whatever it is fed, never shows an end marker inside a segment. */
  lemma FreshParserFree(d: Dialect, mode: ParserMode, chunks: seq<string>)
    ensures SegmentsFree(d, InitialState(mode), "", Run(StepOf(d), InitialState(mode), "", chunks).trace)
  {
    NothingSettled("", Ends(d, InitialState(mode)));
    RunFree(d, InitialState(mode), "", "", chunks);
  }
}
