/** The parser of tool calls as it runs: loops over positions in the text. */
module ToolCallParser {
  import opened Text
  import opened Trimming
  import opened Utf8
  import opened ToolCallGrammar
  import opened GrammarLaws

  /** Takes quotes and wrappings off until nothing changes. */
  method StripMarkers(text: string) returns (s: string)
    ensures s == StripAll(text)
  {
    s := text;
    var changed := true;
    while changed
      invariant StripAll(s) == StripAll(text)
      invariant !changed ==> StripOnce(s) == s
      decreases |s|, changed
    {
      var next := StripOnce(s);
      changed := next != s;
      s := next;
    }
  }

  method ParseGemma4Value(floats: string -> bool, text: string) returns (v: Value)
    ensures v == ParseValue(floats, text)
  {
    var s := Trim(text);
    if s == "" {
      return Str("");
    }
    s := StripMarkers(s);
    return Classify(floats, s);
  }

  /** Where the scalar that starts at `from` ends; beyond the text when a delimiter closes
      after characters that take several bytes. */
  method ScanScalar(chars: string, from: nat) returns (i: nat)
    requires from <= |chars|
    ensures i == from + ScalarEnd(chars[from..], None)
  {
    hide ByteLength, Find, ScalarEnd, TagAt, TagFrom;
    i := from;
    var inQuote: Option<char> := None;
    while i < |chars|
      invariant from <= i
      invariant i <= |chars| ==> i + ScalarEnd(chars[i..], inQuote) == from + ScalarEnd(chars[from..], None)
      invariant i > |chars| ==> i == from + ScalarEnd(chars[from..], None)
      decreases |chars| - i
    {
      ScanMove(chars, i, inQuote);
      var rest := chars[i..];
      var tag := TagAt(rest);
      if tag.Some? {
        var after := rest[|tag.value|..];
        var close := Find(after, tag.value);
        if close.None? {
          i := |chars|;
        } else {
          i := i + |tag.value| + ByteLength(after[..close.value]) + |tag.value|;
        }
        continue;
      }
      var c := chars[i];
      if inQuote.Some? {
        if c == inQuote.value {
          inQuote := None;
        }
      } else if c == '"' || c == '\'' {
        inQuote := Some(c);
      } else if c == ',' || c == '}' || c == ']' {
        return;
      }
      i := i + 1;
    }
    if i == |chars| {
      ScanDone(chars, inQuote);
    }
  }

  lemma ScanDone(chars: string, quote: Option<char>)
    ensures ScalarEnd(chars[|chars|..], quote) == 0
  {
  }

  lemma ScanMove(chars: string, i: nat, quote: Option<char>)
    requires i < |chars|
    ensures ScalarEnd(chars[i..], quote) ==
              match MoveAt(chars[i..], quote)
              case Stop => 0
              case Go(n, q) => if i + n > |chars| then n else n + ScalarEnd(chars[i + n..], q)
  {
    hide MoveAt;
    assert chars[i..] != "";
    match MoveAt(chars[i..], quote)
    case Stop =>
    case Go(n, q) =>
      if i + n < |chars| {
        assert chars[i..][n..] == chars[i + n..];
      } else if i + n == |chars| {
        assert chars[i + n..] == "";
      }
  }

  method SkipWhile(chars: string, from: nat, commas: bool) returns (i: nat)
    requires from <= |chars|
    ensures from <= i <= |chars|
    ensures chars[i..] == if commas then SkipSeparators(chars[from..]) else SkipBlanks(chars[from..])
  {
    i := from;
    while i < |chars| && (IsBlank(chars[i]) || (commas && chars[i] == ','))
      invariant from <= i <= |chars|
      invariant commas ==> SkipSeparators(chars[i..]) == SkipSeparators(chars[from..])
      invariant !commas ==> SkipBlanks(chars[i..]) == SkipBlanks(chars[from..])
    {
      assert chars[i..][1..] == chars[i + 1..];
      i := i + 1;
    }
  }

  method FindColon(chars: string, from: nat) returns (i: nat)
    requires from <= |chars|
    ensures from <= i <= |chars|
    ensures Find(chars[from..], ":") == if i < |chars| then Some(i - from) else None
  {
    i := from;
    var rest := chars[from..];
    while i < |chars| && chars[i] != ':'
      invariant from <= i <= |chars|
      invariant forall k: nat | k < i - from :: !OccursAt(rest, ":", k)
    {
      assert rest[i - from..i - from + 1][0] == chars[i];
      i := i + 1;
    }
    if i < |chars| {
      assert rest[i - from..i - from + 1] == ":";
      FindIs(rest, ":", i - from);
    } else {
      assert forall k: nat :: !OccursAt(rest, ":", k);
    }
  }

  /** Reads the next argument, from position `i`. */
  method ReadArgument(text: string, i: nat) returns (next: Next, end: nat)
    requires i <= |text|
    ensures next == NextArg(text[i..])
    ensures next.Scalar? ==> i < end <= |text| && text[end..] == next.rest
  {
    hide Find, KeyOf, SkipBlanks, SkipSeparators, ScalarEnd;
    end := i;
    var start := SkipWhile(text, i, true);
    var colon := FindColon(text, start);
    if colon == |text| {
      return NoMore, end;
    }
    ghost var r := text[start..];
    assert r[..colon - start] == text[start..colon] && r[colon - start + 1..] == text[colon + 1..];
    var key := KeyOf(text[start..colon]);
    var at := SkipWhile(text, colon + 1, false);
    if at == |text| {
      return NoValue(key), end;
    }
    ghost var v := text[at..];
    assert v != "" && v[0] == text[at];
    if text[at] == '{' || text[at] == '[' {
      return NestedValue, end;
    }
    end := ScanScalar(text, at);
    if end > |text| {
      return Overrun, end;
    }
    assert v[..end - at] == text[at..end] && v[end - at..] == text[end..];
    return Scalar(key, text[at..end], text[end..]), end;
  }

  /** Reads flat arguments into a map. */
  method ParseGemma4Args(floats: string -> bool, text: string, partial: bool) returns (result: Parsed)
    ensures result == ParseArgs(floats, text, partial)
  {
    hide NextArg, ParseValue, Trim;
    if Trim(text) == "" {
      return Parsed(map[]);
    }
    var found: map<string, Value> := map[];
    var i := 0;
    assert text[0..] == text;
    while i < |text|
      invariant i <= |text|
      invariant ParseRest(floats, text[i..], partial, found) == ParseRest(floats, text, partial, map[])
      decreases |text| - i
    {
      var next, end := ReadArgument(text, i);
      match next {
        case NoMore => return Parsed(found);
        case NoValue(key) => return Parsed(if partial then found else found[key := Str("")]);
        case NestedValue => return Nested;
        case Overrun => return Crash;
        case Scalar(key, scalar, _) =>
          var value := ParseGemma4Value(floats, scalar);
          found := found[key := value];
          i := end;
      }
    }
    assert text[i..] == "";
    NothingNext();
    return Parsed(found);
  }

  method FirstTokenIn(text: string, tokens: seq<Marker>) returns (best: Option<Place>)
    ensures best == FirstToken(text, tokens)
  {
    best := None;
    for n := 0 to |tokens|
      invariant best == FirstToken(text, tokens[..n])
    {
      assert tokens[..n + 1][..n] == tokens[..n];
      var pos := Find(text, tokens[n]);
      if pos.Some? && (best.None? || pos.value < best.value.pos) {
        best := Some(Place(pos.value, tokens[n]));
      }
    }
    assert tokens[..|tokens|] == tokens;
  }

  /** Every call in the text, in order; the first that cannot be read ends the search. */
  method FindAllToolCalls(floats: string -> bool, text: string, isFinal: bool) returns (result: Search)
    ensures result == FindToolCalls(floats, text, isFinal)
  {
    hide FindToolCall;
    var calls: seq<Call> := [];
    var offset := 0;
    var found := FindToolCall(floats, text[offset..], isFinal);
    while found.Some?
      invariant offset <= |text| && found == FindToolCall(floats, text[offset..], isFinal)
      invariant FindFromOffset(floats, text, isFinal, offset, calls) == FindToolCalls(floats, text, isFinal)
      decreases |text| - offset
    {
      var next := offset + found.value.length;
      if !found.value.reading.Read? {
        return Stopped(found.value.reading, next);
      }
      calls := calls + [found.value.reading.call];
      offset := next;
      if offset >= |text| {
        return Calls(calls, offset);
      }
      found := FindToolCall(floats, text[offset..], isFinal);
    }
    return if calls == [] then NoCalls else Calls(calls, offset);
  }
}
