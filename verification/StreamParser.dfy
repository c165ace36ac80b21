/** The streaming marker parser: cuts model output into text, thought and
    tool-call pieces while the stream is still arriving. */
module StreamParser {
  import opened Text

  datatype ParserState = InText | InThought | InToolCall

  datatype ParserMode = Gemma4 | Qwen3

  datatype BlockType = TextBlock | ThoughtBlock | FormulatingBlock

  datatype Hit = Hit(pos: nat, marker: Marker)

  /** The marker tables of the source, as one value. */
  datatype Dialect = Dialect(thoughtStarts: seq<Marker>, toolStarts: seq<Marker>, textChannel: seq<Marker>,
                             thoughtEnds: seq<Marker>, toolEnds: seq<Marker>)

  const MARKERS := Dialect(
    ["<|channel>thought", "<thought>", "<think>"],
    ["<|tool_call>", "<tool_call>"],
    ["<|channel>text"],
    ["<channel|>", "</thought>", "</think>", "<|channel>text"],
    ["<tool_call|>", "<|tool_call|>", "</tool_call>", "<|tool_call|>"])

  function Openers(d: Dialect): seq<Marker> {
    d.thoughtStarts + d.toolStarts
  }

  /** The markers that end a segment; their beginnings are also what is held back. */
  function Ends(d: Dialect, st: ParserState): seq<Marker> {
    match st
    case InText => d.thoughtStarts + d.toolStarts + d.textChannel
    case InThought => d.thoughtEnds
    case InToolCall => d.toolEnds
  }

  /** `q` can be cut after `c` characters without the first part being the beginning of an end marker. */
  ghost predicate CutsUnseen(q: Marker, c: nat, ends: seq<Marker>) {
    1 <= c < |q| && forall e | e in ends :: !(q[..c] <= e)
  }

  ghost predicate BeginsAnEnd(q: Marker, c: nat, ends: seq<Marker>) {
    c <= |q| && exists e | e in ends :: c < |e| && q[..c] <= e
  }

  /** What the laws rely on beyond the shape of single markers: no two markers
      that compete share a beginning, openers of tool calls are held back as long
      as they are incomplete inside a tool call, and all others can slip through. */
  ghost predicate WellFormed(d: Dialect) {
    && (forall st :: PrefixFree(Ends(d, st) + Openers(d)))
    && (forall m | m in d.thoughtStarts :: m !in d.toolStarts)
    && (forall st, m | st != InText && m in Ends(d, st) :: m !in Openers(d))
    && (forall q, c | q in d.toolStarts && 1 <= c < |q| :: BeginsAnEnd(q, c, d.toolEnds))
    && (forall q | q in Openers(d) :: exists c :: CutsUnseen(q, c, d.thoughtEnds))
    && (forall q | q in d.thoughtStarts :: exists c :: CutsUnseen(q, c, d.toolEnds))
  }

  function InitialState(mode: ParserMode): ParserState {
    match mode
    case Gemma4 => InThought
    case Qwen3 => InText
  }

  function BlockOf(st: ParserState): BlockType {
    match st
    case InText => TextBlock
    case InThought => ThoughtBlock
    case InToolCall => FormulatingBlock
  }

  // ----- one decision -------------------------------------------------------

  /** Keeps the earlier of `best` and the first occurrence of `m`; an occurrence before `least` is ignored. */
  function Better(best: Option<Hit>, input: string, m: Marker, least: nat): Option<Hit> {
    match Find(input, m)
    case Some(p) => if least <= p && (best.None? || p < best.value.pos) then Some(Hit(p, m)) else best
    case None => best
  }

  function EarliestOf(best: Option<Hit>, input: string, ms: seq<Marker>, least: nat, n: nat): Option<Hit>
    requires n <= |ms|
  {
    if n == 0 then best else Better(EarliestOf(best, input, ms, least, n - 1), input, ms[n - 1], least)
  }

  lemma EarliestOfBounds(best: Option<Hit>, input: string, ms: seq<Marker>, least: nat, n: nat)
    requires n <= |ms|
    ensures var r := EarliestOf(best, input, ms, least, n);
            && (r == best || (r.Some? && r.value.marker in ms && r.value.pos >= least &&
               Find(input, r.value.marker) == Some(r.value.pos)))
            && (best.Some? ==> r.Some? && r.value.pos <= best.value.pos)
            && forall k | 0 <= k < n && Find(input, ms[k]).Some? && Find(input, ms[k]).value >= least ::
                 r.Some? && r.value.pos <= Find(input, ms[k]).value
  {
  }

  function Earliest(input: string, ms: seq<Marker>): Option<Hit> {
    EarliestOf(None, input, ms, 0, |ms|)
  }

  /** The tail from `k` is a marker that has begun but not finished. */
  predicate HeldAt(input: string, ms: seq<Marker>, k: nat) {
    k < |input| && exists m | m in ms :: |input| - k < |m| && input[k..] <= m
  }

  function PartialFrom(input: string, ms: seq<Marker>, k: nat): (r: nat)
    requires k <= |input|
    decreases |input| - k
    ensures k <= r <= |input|
    ensures r < |input| ==> HeldAt(input, ms, r)
    ensures forall j | k <= j < r :: !HeldAt(input, ms, j)
  {
    if k == |input| || HeldAt(input, ms, k) then k else PartialFrom(input, ms, k + 1)
  }

  /** Where the held-back tail begins; the whole length when nothing is held back. */
  function PartialStart(input: string, ms: seq<Marker>): (r: nat)
    ensures r <= |input|
    ensures r < |input| ==> HeldAt(input, ms, r)
    ensures forall j: nat | j < r :: !HeldAt(input, ms, j)
  {
    PartialFrom(input, ms, 0)
  }

  /** Consume a marker at `pos`, or hold back everything from `at`. */
  datatype Decision = Advance(pos: nat, marker: Marker, next: ParserState) | Hold(at: nat)

  function NextAfterStart(d: Dialect, m: Marker): ParserState {
    if m in d.thoughtStarts then InThought else InToolCall
  }

  /** Inside a tool call an opener at the very start of the buffer does not interrupt. */
  function Least(st: ParserState): nat {
    match st
    case InToolCall => 1
    case _ => 0
  }

  function Starts(d: Dialect, input: string, least: nat): Option<Hit> {
    EarliestOf(Earliest(input, d.thoughtStarts), input, d.toolStarts, least, |d.toolStarts|)
  }

  function Decide(d: Dialect, st: ParserState, input: string): Decision {
    match st
    case InText =>
      var start := Starts(d, input, 0);
      var noop := Earliest(input, d.textChannel);
      if noop.Some? && (start.None? || noop.value.pos < start.value.pos) then
        Advance(noop.value.pos, noop.value.marker, InText)
      else if start.Some? then
        Advance(start.value.pos, start.value.marker, NextAfterStart(d, start.value.marker))
      else
        Hold(PartialStart(input, Ends(d, st)))
    case _ =>
      var end := Earliest(input, Ends(d, st));
      var interrupt := Starts(d, input, Least(st));
      if interrupt.Some? && (end.None? || interrupt.value.pos < end.value.pos) then
        Advance(interrupt.value.pos, interrupt.value.marker, NextAfterStart(d, interrupt.value.marker))
      else if end.Some? then
        Advance(end.value.pos, end.value.marker, InText)
      else
        Hold(PartialStart(input, Ends(d, st)))
  }

  /** One decision per state and buffered input. */
  type Step = (ParserState, string) -> Decision

  function StepOf(d: Dialect): Step {
    (st, input) => Decide(d, st, input)
  }

  predicate InRange(decision: Decision, input: string) {
    match decision
    case Advance(pos, m, next) => pos + |m| <= |input|
    case Hold(at) => at <= |input|
  }

  lemma DecideInRange(d: Dialect, st: ParserState, input: string)
    ensures InRange(Decide(d, st, input), input)
  {
    EarliestOfBounds(None, input, d.thoughtStarts, 0, |d.thoughtStarts|);
    EarliestOfBounds(Earliest(input, d.thoughtStarts), input, d.toolStarts, Least(st), |d.toolStarts|);
    EarliestOfBounds(None, input, d.textChannel, 0, |d.textChannel|);
    EarliestOfBounds(None, input, Ends(d, st), 0, |Ends(d, st)|);
  }

  /** What a run does, in order: pieces emitted and markers consumed between them. */
  datatype Trace =
    | Done
    | Piece(block: BlockType, text: string, rest: Trace)
    | Consumed(marker: Marker, next: ParserState, rest: Trace)

  datatype Outcome = Outcome(trace: Trace, state: ParserState, retained: string)

  /** Empty pieces are not emitted. */
  function Emit(st: ParserState, text: string, rest: Trace): Trace {
    if text == "" then rest else Piece(BlockOf(st), text, rest)
  }

  /** What one call does to the buffered input: the pieces it emits, the markers
      it consumes between them, the state it ends in and the tail it keeps. A
      decision outside the input, which `DecideInRange` excludes, stops the call. */
  function Scan(step: Step, st: ParserState, input: string): Outcome
    decreases |input|
  {
    if input == "" || !InRange(step(st, input), input) then Outcome(Done, st, input)
    else
      match step(st, input)
      case Advance(pos, m, next) =>
        var rest := Scan(step, next, input[pos + |m|..]);
        Outcome(Emit(st, input[..pos], Consumed(m, next, rest.trace)), rest.state, rest.retained)
      case Hold(at) =>
        Outcome(Emit(st, input[..at], Done), st, input[at..])
  }

  /** The pieces of a trace, which is all that a caller of the parser sees. */
  function Pieces(trace: Trace): seq<(BlockType, string)> {
    match trace
    case Done => []
    case Piece(b, t, rest) => [(b, t)] + Pieces(rest)
    case Consumed(_, _, rest) => Pieces(rest)
  }

  function Piecewise(st: ParserState, text: string): seq<(BlockType, string)> {
    if text == "" then [] else [(BlockOf(st), text)]
  }

  /** One turn of the loop: what is emitted now, and the call on what is left. */
  lemma PiecesAdvance(step: Step, st: ParserState, input: string, pos: nat, m: Marker, next: ParserState)
    requires input != "" && step(st, input) == Advance(pos, m, next) && pos + |m| <= |input|
    ensures Pieces(Scan(step, st, input).trace) == Piecewise(st, input[..pos]) +
            Pieces(Scan(step, next, input[pos + |m|..]).trace)
    ensures Scan(step, st, input).state == Scan(step, next, input[pos + |m|..]).state
    ensures Scan(step, st, input).retained == Scan(step, next, input[pos + |m|..]).retained
  {
  }

  lemma PiecesHold(step: Step, st: ParserState, input: string, at: nat)
    requires input != "" && step(st, input) == Hold(at) && at <= |input|
    ensures Pieces(Scan(step, st, input).trace) == Piecewise(st, input[..at])
    ensures Scan(step, st, input).state == st && Scan(step, st, input).retained == input[at..]
  {
  }

  method EarliestIn(best: Option<Hit>, input: string, ms: seq<Marker>, least: nat) returns (r: Option<Hit>)
    ensures r == EarliestOf(best, input, ms, least, |ms|)
  {
    r := best;
    for n := 0 to |ms|
      invariant r == EarliestOf(best, input, ms, least, n)
    {
      var found := Find(input, ms[n]);
      if found.Some? && least <= found.value && (r.None? || found.value < r.value.pos) {
        r := Some(Hit(found.value, ms[n]));
      }
    }
  }

  /** The longest tail of `input` that is the beginning of a marker. */
  method FindPartialMarkerStart(input: string, ms: seq<Marker>) returns (best: Option<nat>)
    ensures best == if PartialStart(input, ms) < |input| then Some(PartialStart(input, ms)) else None
  {
    best := None;
    for n := 0 to |ms|
      invariant best.Some? ==> HeldAt(input, ms, best.value)
      invariant forall j: nat, k | 0 <= k < n && j < |input| && |input| - j < |ms[k]| && input[j..] <= ms[k] ::
                  best.Some? && best.value <= j
    {
      var m := ms[n];
      for i := 1 to |m|
        invariant best.Some? ==> HeldAt(input, ms, best.value)
        invariant forall j: nat, k | 0 <= k < n && j < |input| && |input| - j < |ms[k]| && input[j..] <= ms[k] ::
                    best.Some? && best.value <= j
        invariant forall j: nat | j < |input| && |input| - j < i && input[j..] <= m :: best.Some? && best.value <= j
      {
        if i <= |input| && input[|input| - i..] == m[..i] {
          var start := |input| - i;
          if best.None? || start < best.value {
            best := Some(start);
          }
        }
      }
    }
  }

  class StreamParser {
    const markers: Dialect
    var state: ParserState
    var mode: ParserMode
    var buffer: string

    constructor (mode: ParserMode)
      ensures this.mode == mode && state == (if mode == Gemma4 then InThought else InText)
      ensures buffer == "" && markers == MARKERS
    {
      markers := MARKERS;
      this.mode := mode;
      state := InitialState(mode);
      buffer := "";
    }

    method Reset()
      modifies this
      ensures state == (if mode == Gemma4 then InThought else InText) && buffer == "" && mode == old(mode)
    {
      state := InitialState(mode);
      buffer := "";
    }

    /** The earliest marker in the buffer that changes anything, or what to hold back. */
    method NextDecision() returns (decision: Decision)
      ensures decision == Decide(markers, state, buffer)
    {
      var start := EarliestIn(None, buffer, markers.thoughtStarts, 0);
      start := EarliestIn(start, buffer, markers.toolStarts, Least(state));
      if state == InText {
        var noop := EarliestIn(None, buffer, markers.textChannel, 0);
        if noop.Some? && (start.None? || noop.value.pos < start.value.pos) {
          return Advance(noop.value.pos, noop.value.marker, InText);
        } else if start.Some? {
          return Advance(start.value.pos, start.value.marker, NextAfterStart(markers, start.value.marker));
        }
      } else {
        var end := EarliestIn(None, buffer, Ends(markers, state), 0);
        if start.Some? && (end.None? || start.value.pos < end.value.pos) {
          return Advance(start.value.pos, start.value.marker, NextAfterStart(markers, start.value.marker));
        } else if end.Some? {
          return Advance(end.value.pos, end.value.marker, InText);
        }
      }
      var partial := FindPartialMarkerStart(buffer, Ends(markers, state));
      return Hold(if partial.Some? then partial.value else |buffer|);
    }

    method ParseChunk(chunk: string) returns (results: seq<(BlockType, string)>)
      modifies this
      ensures mode == old(mode)
      ensures var o := Scan(StepOf(markers), old(state), old(buffer) + chunk);
              results == Pieces(o.trace) && state == o.state && buffer == o.retained
    {
      buffer := buffer + chunk;
      results := [];
      ghost var step := StepOf(markers);
      ghost var whole := Scan(step, state, buffer);
      while buffer != ""
        invariant mode == old(mode)
        invariant var o := Scan(step, state, buffer);
                  results + Pieces(o.trace) == Pieces(whole.trace) && o.state == whole.state &&
                      o.retained == whole.retained
        decreases |buffer|
      {
        var decision := NextDecision();
        DecideInRange(markers, state, buffer);
        assert decision == step(state, buffer);
        match decision {
          case Advance(pos, marker, next) =>
            PiecesAdvance(step, state, buffer, pos, marker, next);
            ConcatAssociates(results, Piecewise(state, buffer[..pos]),
                Pieces(Scan(step, next, buffer[pos + |marker|..]).trace));
            results := results + Piecewise(state, buffer[..pos]);
            state, buffer := next, buffer[pos + |marker|..];
          case Hold(at) =>
            PiecesHold(step, state, buffer, at);
            results := results + Piecewise(state, buffer[..at]);
            buffer := buffer[at..];
            return;
        }
      }
    }
  }
}
