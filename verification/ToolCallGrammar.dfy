/** The text form of tool calls: printing one, and the forgiving parser that reads it. */
module ToolCallGrammar {
  import opened Text
  import opened Trimming
  import opened Utf8
  import opened Decimals

  /** Values of arguments. Objects and arrays are not part of this model; a number with a
      point is kept as its text. */
  datatype Value = Null | Bool(b: bool) | Int(n: int) | Float(text: string) | Str(s: string)

  const QUOTE: Marker := "<|\"|>"

  /** The delimiters a value may be wrapped in, in the order they are tried. */
  datatype Wrap = Wrap(open: string, close: string)

  const WRAPS: seq<Wrap> := [
    Wrap("<|\"|>", "<|\"|>"),
    Wrap("<|'|>", "<|'|>"),
    Wrap("<|tool_parameter|>", "<|tool_parameter|>"),
    Wrap("<|tool_parameter>", "<tool_parameter|>"),
    Wrap("<|tool_parameter|>", "<tool_parameter|>"),
    Wrap("<|\\\\\">", "<|\\\\\">"),
    Wrap("<|\\\">", "<|\\\">"),
    Wrap("<|\">", "<|\">"),
    Wrap("<|'>", "<|'>")]

  /** The delimiters a scan jumps over, in the order they are tried. */
  const TAGS: seq<Marker> := ["<|\"|>", "<|\\\\\">", "<|\\\">", "<|\">", "<|'|>", "<|'>"]

  // ----- one value -------------------------------------------------------------

  predicate Quoted(s: string) {
    |s| >= 2 && (s[0] == '"' == s[|s| - 1] || s[0] == '\'' == s[|s| - 1])
  }

  function Unquote(s: string): (r: string)
    ensures |r| <= |s| && (r != s ==> |r| < |s|)
  {
    if Quoted(s) then Trim(s[1..|s| - 1]) else s
  }

  predicate Wrapped(s: string, w: Wrap) {
    |s| >= |w.open| + |w.close| && w.open <= s && s[|s| - |w.close|..] == w.close
  }

  /** The first wrapping that fits is taken off. */
  function Unwrap(s: string, wraps: seq<Wrap>): (r: string)
    ensures |r| <= |s|
  {
    if wraps == [] then s
    else if Wrapped(s, wraps[0]) then Trim(s[|wraps[0].open|..|s| - |wraps[0].close|])
    else Unwrap(s, wraps[1..])
  }

  lemma {:induction false} UnwrapShrinks(s: string, wraps: seq<Wrap>)
    requires forall w | w in wraps :: w.open != ""
    ensures Unwrap(s, wraps) == s || |Unwrap(s, wraps)| < |s|
  {
    if wraps != [] && !Wrapped(s, wraps[0]) {
      UnwrapShrinks(s, wraps[1..]);
    }
  }

  function StripOnce(s: string): (r: string)
    ensures r == s || |r| < |s|
  {
    UnwrapShrinks(Unquote(s), WRAPS);
    Unwrap(Unquote(s), WRAPS)
  }

  /** Quotes and wrappings come off until nothing changes. */
  function StripAll(s: string): (r: string)
    decreases |s|
    ensures |r| <= |s|
  {
    if StripOnce(s) == s then s else StripAll(StripOnce(s))
  }

  function LowerAscii(c: char): char {
    if 'A' <= c <= 'Z' then ((c as int) + 32) as char else c
  }

  function Lower(s: string): string {
    seq(|s|, i requires 0 <= i < |s| => LowerAscii(s[i]))
  }

  const MIN64: int := -0x8000_0000_0000_0000
  const MAX64: int := 0x7FFF_FFFF_FFFF_FFFF

  /** Reading a 64-bit integer: an optional sign and digits, in range. */
  function ParseInt(s: string): Option<int> {
    var digits := if s != "" && (s[0] == '-' || s[0] == '+') then s[1..] else s;
    if digits == "" || !AllDigits(digits) then None
    else
      var size: int := NumberOf(digits);
      var n := if s[0] == '-' then -size else size;
      if MIN64 <= n <= MAX64 then Some(n) else None
  }

  /** What the bare text of a value stands for. `floats` tells which texts with a point
      are finite floating-point numbers. */
  function Classify(floats: string -> bool, s: string): Value {
    if s == "true" then Bool(true)
    else if s == "false" then Bool(false)
    else if Lower(s) == "null" || Lower(s) == "none" || Lower(s) == "nil" then Null
    else if '.' in s then (if floats(s) then Float(s) else Str(s))
    else
      match ParseInt(s)
      case Some(n) => Int(n)
      case None => Str(s)
  }

  function ParseValue(floats: string -> bool, text: string): Value {
    var s := Trim(text);
    if s == "" then Str("") else Classify(floats, StripAll(s))
  }

  // ----- the arguments ------------------------------------------------------------

  datatype Parsed = Parsed(args: map<string, Value>) | Nested | Crash

  predicate IsBlank(c: char) {
    c == ' ' || c == '\n' || c == '\t'
  }

  function SkipBlanks(s: string): (r: string)
    ensures |r| <= |s|
  {
    if s != "" && IsBlank(s[0]) then SkipBlanks(s[1..]) else s
  }

  function SkipSeparators(s: string): (r: string)
    ensures |r| <= |s|
  {
    if s != "" && (IsBlank(s[0]) || s[0] == ',') then SkipSeparators(s[1..]) else s
  }

  function TagFrom(s: string, tags: seq<Marker>): (r: Option<Marker>)
    ensures r.Some? ==> r.value <= s && r.value in tags
  {
    if tags == [] then None
    else if tags[0] <= s then Some(tags[0])
    else TagFrom(s, tags[1..])
  }

  /** The delimiter `s` begins with. */
  function TagAt(s: string): (r: Option<Marker>)
    ensures r.Some? ==> r.value <= s
  {
    TagFrom(s, TAGS)
  }

  /** One move of the scan: stop, or go on by `n` characters with or without an open quote. */
  datatype Move = Stop | Go(n: nat, quote: Option<char>)

  /** A delimiter is skipped to its next occurrence, by as many characters as the text
      between takes bytes: beyond the text of the scalar, and even beyond the end, when
      that is not ASCII. */
  function MoveAt(s: string, quote: Option<char>): (m: Move)
    requires s != ""
    ensures m.Go? ==> m.n > 0
  {
    match TagAt(s)
    case Some(tag) =>
      var rest := s[|tag|..];
      var close := Find(rest, tag);
      if close.None? then Go(|s|, quote) else Go(|tag| + ByteLength(rest[..close.value]) + |tag|, quote)
    case None =>
      var c := s[0];
      if quote.Some? then Go(1, if c == quote.value then None else quote)
      else if c == '"' || c == '\'' then Go(1, Some(c))
      else if c == ',' || c == '}' || c == ']' then Stop
      else Go(1, None)
  }

  /** How many characters a scalar takes. */
  function ScalarEnd(s: string, quote: Option<char>): nat
    decreases |s|
  {
    if s == "" then 0
    else
      match MoveAt(s, quote)
      case Stop => 0
      case Go(n, q) => if n >= |s| then n else n + ScalarEnd(s[n..], q)
  }

  function KeyOf(text: string): string {
    var key := Trim(text);
    if Quoted(key) then key[1..|key| - 1] else key
  }

  /** What comes next in a list of arguments: nothing, a key without a value, a nested
      value, a scan beyond the end, or a key with the text of a scalar and what follows it. */
  datatype Next = NoMore | NoValue(key: string) | NestedValue | Overrun | Scalar(key: string, text: string,
      rest: string)

  function NextArg(s: string): Next {
    var r := SkipSeparators(s);
    var colon := Find(r, ":");
    if colon.None? then NoMore
    else
      var key, v := KeyOf(r[..colon.value]), SkipBlanks(r[colon.value + 1..]);
      if v == "" then NoValue(key)
      else if v[0] == '{' || v[0] == '[' then NestedValue
      else
        var n := ScalarEnd(v, None);
        if n > |v| then Overrun else Scalar(key, v[..n], v[n..])
  }

  lemma NextArgShortens(s: string)
    ensures NextArg(s).Scalar? ==> |NextArg(s).rest| < |s|
  {
    hide KeyOf, Find, ScalarEnd, SkipBlanks, SkipSeparators;
  }

  /** The arguments in what is left of the text, added to those found so far. */
  function ParseRest(floats: string -> bool, s: string, partial: bool, found: map<string, Value>): Parsed
    decreases |s|
  {
    NextArgShortens(s);
    match NextArg(s)
    case NoMore => Parsed(found)
    case NoValue(key) => Parsed(if partial then found else found[key := Str("")])
    case NestedValue => Nested
    case Overrun => Crash
    case Scalar(key, text, rest) => ParseRest(floats, rest, partial, found[key := ParseValue(floats, text)])
  }

  function ParseArgs(floats: string -> bool, s: string, partial: bool): Parsed {
    if Trim(s) == "" then Parsed(map[]) else ParseRest(floats, s, partial, map[])
  }

  // ----- calls ----------------------------------------------------------------------

  datatype Call = Call(id: string, name: string, args: map<string, Value>)

  /** A JSON object and nested arguments are read by other code, which is not part of this model. */
  datatype Reading = Read(call: Call) | Malformed | Outside | Panics

  function CallId(args: map<string, Value>): string {
    if "tool_call_id" in args && args["tool_call_id"].Str? then args["tool_call_id"].s else "unknown"
  }

  function ParseBlock(floats: string -> bool, text: string): Reading {
    var block := Trim(text);
    if block != "" && block[0] == '{' then Outside
    else
      var start := Find(block, "call:");
      if start.None? then Malformed
      else
        var content := block[start.value + 5..];
        var brace := Find(content, "{");
        if brace.None? then Malformed
        else
          var name, rest := Trim(content[..brace.value]), content[brace.value + 1..];
          var last := RFind(rest, "}");
          match ParseArgs(floats, if last.Some? then rest[..last.value] else rest, false)
          case Parsed(args) => Read(Call(CallId(args), name, args))
          case Nested => Outside
          case Crash => Panics
  }

  const CALL_OPEN: Marker := "<|tool_call>"
  const CALL_CLOSE: Marker := "<tool_call|>"
  const CALL_STARTS: seq<Marker> := [CALL_OPEN, "<tool_call>"]
  const CALL_ENDS: seq<Marker> := [CALL_CLOSE, "</tool_call>", "<|tool_call|>"]

  datatype Place = Place(pos: nat, token: Marker)

  /** The first occurrence of any token; of two at one place the one listed first. */
  function FirstToken(text: string, tokens: seq<Marker>): (r: Option<Place>)
    ensures r.Some? ==> r.value.token in tokens && OccursAt(text, r.value.token, r.value.pos)
  {
    if tokens == [] then None
    else
      var last := tokens[|tokens| - 1];
      var best := FirstToken(text, tokens[..|tokens| - 1]);
      match Find(text, last)
      case Some(p) => if best.None? || p < best.value.pos then Some(Place(p, last)) else best
      case None => best
  }

  datatype Found = Found(reading: Reading, length: nat)

  function FindToolCall(floats: string -> bool, text: string, isFinal: bool): (r: Option<Found>)
    ensures r.Some? ==> 0 < r.value.length <= |text|
  {
    var start := FirstToken(text, CALL_STARTS);
    if start.None? then None
    else
      var from := start.value.pos + |start.value.token|;
      var after := text[from..];
      var end := FirstToken(after, CALL_ENDS);
      if end.Some? then Some(Found(ParseBlock(floats, after[..end.value.pos]),
          from + end.value.pos + |end.value.token|))
      else if isFinal then Some(Found(ParseBlock(floats, after), |text|))
      else None
  }

  /** What a search for all calls ends with: the calls and how far they reach, or the first
      that could not be read. */
  datatype Search = NoCalls | Calls(calls: seq<Call>, end: nat) | Stopped(reading: Reading, end: nat)

  function FindFromOffset(floats: string -> bool, text: string, isFinal: bool, offset: nat, calls: seq<Call>): Search
    requires offset <= |text|
    decreases |text| - offset
  {
    match FindToolCall(floats, text[offset..], isFinal)
    case None => if calls == [] then NoCalls else Calls(calls, offset)
    case Some(found) =>
      var next := offset + found.length;
      if !found.reading.Read? then Stopped(found.reading, next)
      else if next >= |text| then Calls(calls + [found.reading.call], next)
      else FindFromOffset(floats, text, isFinal, next, calls + [found.reading.call])
  }

  function FindToolCalls(floats: string -> bool, text: string, isFinal: bool): Search {
    FindFromOffset(floats, text, isFinal, 0, [])
  }

  // ----- printing -----------------------------------------------------------------------

  datatype Arg = Arg(key: string, value: Value)

  function PrintInt(n: int): string {
    if n < 0 then "-" + Decimal(-n) else Decimal(n)
  }

  function PrintValue(v: Value): string {
    match v
    case Str(s) => QUOTE + s + QUOTE
    case Bool(b) => if b then "true" else "false"
    case Int(n) => PrintInt(n)
    case Float(text) => text
    case Null => QUOTE + "null" + QUOTE
  }

  function PrintArg(a: Arg): string {
    a.key + ":" + PrintValue(a.value)
  }

  function PrintArgs(args: seq<Arg>): string {
    if args == [] then ""
    else if |args| == 1 then PrintArg(args[0])
    else PrintArg(args[0]) + "," + PrintArgs(args[1..])
  }

  function PrintCall(name: string, args: seq<Arg>): string {
    "call:" + name + "{" + PrintArgs(args) + "}"
  }
}
