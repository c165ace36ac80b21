/** Finding calls in any text: whichever tokens they stand between, with text around them,
    unfinished, or not readable at all. */
module ToolCallSearch {
  import opened Text
  import opened Trimming
  import opened Utf8
  import opened ToolCallGrammar
  import opened GrammarLaws

  // ----- the identifier -------------------------------------------------------------------------------

  /** A call is known by its string argument of that name, and otherwise as unknown. */
  lemma CallIdIs(name: string, args: seq<Arg>)
    requires forall j, k | 0 <= j < k < |args| :: args[j].key != args[k].key
    ensures forall i | 0 <= i < |args| && args[i].key == "tool_call_id" ::
              CallOf(Printed(name, args)).id == if args[i].value.Str? then args[i].value.s else "unknown"
    ensures (forall i | 0 <= i < |args| :: args[i].key != "tool_call_id") ==>
              CallOf(Printed(name, args)).id == "unknown"
  {
    hide Insert;
    forall i | 0 <= i < |args| && args[i].key == "tool_call_id"
      ensures "tool_call_id" in Insert(map[], args) && Insert(map[], args)["tool_call_id"] == args[i].value
    {
      InsertMeans(map[], args, i);
    }
    if forall i | 0 <= i < |args| :: args[i].key != "tool_call_id" {
      InsertOther(map[], args, "tool_call_id");
    }
  }

  // ----- tokens -----------------------------------------------------------------------------------------

  ghost predicate NoToken(text: string, tokens: seq<Marker>) {
    forall t | t in tokens :: !Contains(text, t)
  }

  lemma {:induction false} FirstTokenIs(text: string, tokens: seq<Marker>, t: Marker, pos: nat)
    requires t in tokens && OccursAt(text, t, pos) && PrefixFree(tokens)
    requires forall u, k: nat | u in tokens && k < pos :: !OccursAt(text, u, k)
    ensures FirstToken(text, tokens) == Some(Place(pos, t))
    decreases |tokens|
  {
    hide Find, OccursAt;
    var n := |tokens| - 1;
    var last, before := tokens[n], tokens[..n];
    assert last in tokens && forall u | u in before :: u in tokens;
    if t in before {
      FirstTokenIs(text, before, t, pos);
    } else {
      NoneEarlier(text, before, t, pos, tokens);
      FindIs(text, t, pos);
    }
  }

  /** Where only `t` can stand at `pos`, the first of the other tokens stands later. */
  lemma NoneEarlier(text: string, before: seq<Marker>, t: Marker, pos: nat, tokens: seq<Marker>)
    requires t in tokens && t !in before && OccursAt(text, t, pos) && PrefixFree(tokens)
    requires forall u | u in before :: u in tokens
    requires forall u, k: nat | u in tokens && k < pos :: !OccursAt(text, u, k)
    ensures var r := FirstToken(text, before); r.None? || r.value.pos > pos
  {
    hide Find;
    var r := FirstToken(text, before);
    if r.Some? && r.value.pos == pos {
      if |t| <= |r.value.token| {
        SamePosition(text, t, r.value.token, pos);
      } else {
        SamePosition(text, r.value.token, t, pos);
      }
    }
  }

  lemma {:induction false} NoFirstToken(text: string, tokens: seq<Marker>)
    requires NoToken(text, tokens)
    ensures FirstToken(text, tokens) == None
    decreases |tokens|
  {
    hide Find;
    if tokens != [] {
      var n := |tokens| - 1;
      assert tokens[n] in tokens && forall u | u in tokens[..n] :: u in tokens;
      NoFirstToken(text, tokens[..n]);
    }
  }

  lemma StartsPrefixFree()
    ensures PrefixFree(CALL_STARTS)
  {
    var a: string, b: string := "<|tool_call>", "<tool_call>";
    assert a[1] == '|' && b[1] == 't';
  }

  lemma EndsPrefixFree()
    ensures PrefixFree(CALL_ENDS)
  {
    var a: string, b: string, c: string := "<tool_call|>", "</tool_call>", "<|tool_call|>";
    assert a[1] == 't' && b[1] == '/' && c[1] == '|';
  }

  lemma TokenAfter(text: string, t: Marker, rest: string, tokens: seq<Marker>)
    requires t in tokens && PrefixFree(tokens) && NoToken(text, tokens)
    ensures FirstToken(text + (t + rest), tokens) == Some(Place(|text|, t))
  {
    hide FirstToken, OccursAt, Find, PrefixFree;
    var w := text + (t + rest);
    forall u, k: nat | u in tokens && k < |text| ensures !OccursAt(w, u, k) {
      NotBefore(text, t + rest, u, k);
    }
    StandsAt(text, t, rest);
    FirstTokenIs(w, tokens, t, |text|);
  }

  lemma StandsAt(text: string, t: string, rest: string)
    ensures OccursAt(text + (t + rest), t, |text|)
  {
  }

  /** The first call is what stands between the first opening token and the first closing
      token after it, whichever they are, and the search goes on after that. */
  lemma SearchFinds(floats: string -> bool, before: string, open: Marker, body: string, close: Marker, rest: string,
                    isFinal: bool)
    requires open in CALL_STARTS && close in CALL_ENDS && NoToken(before, CALL_STARTS) && NoToken(body, CALL_ENDS)
    ensures FindToolCall(floats, before + (open + (body + (close + rest))), isFinal) ==
            Some(Found(ParseBlock(floats, body), |before| + |open| + |body| + |close|))
  {
    hide FirstToken, ParseBlock, NoToken, PrefixFree, CALL_STARTS, CALL_ENDS;
    var after := body + (close + rest);
    var text := before + (open + after);
    StartsPrefixFree();
    EndsPrefixFree();
    TokenAfter(before, open, after, CALL_STARTS);
    TokenAfter(body, close, rest, CALL_ENDS);
    assert text[|before| + |open|..] == after && after[..|body|] == body;
  }

  /** A call that is not closed is read to the end of a final text, and not yet before. */
  lemma SearchWaits(floats: string -> bool, before: string, open: Marker, body: string, isFinal: bool)
    requires open in CALL_STARTS && NoToken(before, CALL_STARTS) && NoToken(body, CALL_ENDS)
    ensures var text := before + (open + body);
            FindToolCall(floats, text, isFinal) ==
            if isFinal then Some(Found(ParseBlock(floats, body), |text|)) else None
  {
    hide FirstToken, ParseBlock, NoToken, PrefixFree, CALL_STARTS, CALL_ENDS;
    StartsPrefixFree();
    TokenAfter(before, open, body, CALL_STARTS);
    NoFirstToken(body, CALL_ENDS);
    assert (before + (open + body))[|before| + |open|..] == body;
  }

  lemma NothingFound(floats: string -> bool, text: string, isFinal: bool)
    requires NoToken(text, CALL_STARTS)
    ensures FindToolCall(floats, text, isFinal) == None
  {
    hide FirstToken, NoToken;
    NoFirstToken(text, CALL_STARTS);
  }

  // ----- what cannot be read -------------------------------------------------------------------------------

  /** A block is malformed exactly when nowhere in it an opening brace follows the word that
      begins a call. */
  lemma MalformedIff(floats: string -> bool, text: string)
    requires Trim(text) == "" || Trim(text)[0] != '{'
    ensures var block := Trim(text);
            ParseBlock(floats, text) == Malformed <==>
            !exists i: nat, j: nat :: OccursAt(block, "call:", i) && i + 5 <= j < |block| && block[j] == '{'
  {
    hide Trim, ParseArgs, CallId;
    var block := Trim(text);
    var start := Find(block, "call:");
    if start.Some? {
      var content := block[start.value + 5..];
      var brace := Find(content, "{");
      if brace.Some? {
        assert content[brace.value..brace.value + 1] == "{" && content[brace.value] == '{';
        assert block[start.value + 5 + brace.value] == '{';
      } else {
        forall j: nat | start.value + 5 <= j < |block| ensures block[j] != '{' {
          var k: nat := j - (start.value + 5);
          assert !OccursAt(content, "{", k) && content[k..k + 1] == [content[k]] && content[k] == block[j];
        }
      }
    }
  }

  // ----- a list of calls with text after it ---------------------------------------------------------------

  lemma {:induction false} AllFoundThen(floats: string -> bool, before: string, calls: seq<Printed>, rest: string,
                                        isFinal: bool, done: seq<Call>)
    requires (forall i | 0 <= i < |calls| :: NormalCall(floats, calls[i])) && NoToken(rest, CALL_STARTS) && rest != ""
    requires calls != [] || done != []
    ensures FindFromOffset(floats, before + (PrintAll(calls) + rest), isFinal, |before|, done) ==
            Calls(done + CallsOf(calls), |before| + |PrintAll(calls)|)
    decreases |calls|
  {
    hide FindToolCall, NormalCall, Tokenized, CallOf, PrintAll, CallsOf, NoToken, FindFromOffset;
    var w := before + (PrintAll(calls) + rest);
    if calls == [] {
      NothingPrinted();
      assert w[|before|..] == rest && done + [] == done;
      NothingFound(floats, rest, isFinal);
      assert FindFromOffset(floats, w, isFinal, |before|, done) == Calls(done, |before|) by {
        Ends(floats, w, isFinal, |before|, done);
      }
    } else {
      Unrolled(calls);
      var c, more := calls[0], PrintAll(calls[1..]);
      assert w[|before|..] == Tokenized(c) + (more + rest);
      CallFound(floats, c, more + rest, isFinal);
      OneMore(floats, w, isFinal, |before|, done, CallOf(c), |Tokenized(c)|);
      var upTo := before + Tokenized(c);
      assert w == upTo + (more + rest);
      ConcatAssociates(done, [CallOf(c)], CallsOf(calls[1..]));
      AllFoundThen(floats, upTo, calls[1..], rest, isFinal, done + [CallOf(c)]);
    }
  }

  lemma NothingPrinted()
    ensures PrintAll([]) == "" && CallsOf([]) == []
  {
  }

  lemma Ends(floats: string -> bool, text: string, isFinal: bool, offset: nat, done: seq<Call>)
    requires offset <= |text| && done != [] && FindToolCall(floats, text[offset..], isFinal) == None
    ensures FindFromOffset(floats, text, isFinal, offset, done) == Calls(done, offset)
  {
  }

  /** Text after the calls is left alone: the search answers where the last call ends. */
  lemma CallsThenText(floats: string -> bool, calls: seq<Printed>, rest: string, isFinal: bool)
    requires calls != [] && (forall i | 0 <= i < |calls| :: NormalCall(floats, calls[i]))
    requires rest != "" && NoToken(rest, CALL_STARTS)
    ensures FindToolCalls(floats, PrintAll(calls) + rest, isFinal) == Calls(CallsOf(calls), |PrintAll(calls)|)
  {
    hide FindFromOffset, NormalCall, NoToken;
    AllFoundThen(floats, "", calls, rest, isFinal, []);
    assert "" + (PrintAll(calls) + rest) == PrintAll(calls) + rest && [] + CallsOf(calls) == CallsOf(calls);
  }

  // ----- wrappings ------------------------------------------------------------------------------------------

  /** Text without delimiters is read the same in quotes of either kind as without them. */
  lemma QuotesComeOff(floats: string -> bool, s: string, q: char)
    requires Smooth(s) && (q == '"' || q == '\'')
    ensures ParseValue(floats, [q] + s + [q]) == ParseValue(floats, s)
  {
    hide Trim, Unwrap, WRAPS;
    var w := [q] + s + [q];
    TrimmedIsKept(w);
    SmoothIsKept(s);
    assert w[1..|w| - 1] == s && Quoted(w);
    assert Unquote(w) == s;
    Unquoted(s);
    assert StripOnce(w) == s;
    assert w != s;
  }

  lemma Unquoted(s: string)
    requires Smooth(s)
    ensures Unwrap(s, WRAPS) == s
  {
    NoWrap(s, WRAPS);
  }

  /** `t` stands between angle brackets and has no others. */
  predicate Angled(t: string) {
    |t| >= 2 && t[0] == '<' && t[|t| - 1] == '>' && forall i | 0 < i < |t| - 1 :: t[i] != '<' && t[i] != '>'
  }

  lemma ShortAngled()
    ensures Angled("<|\"|>") && Angled("<|'|>") && Angled("<|\">") && Angled("<|'>")
  {
  }

  lemma EscapedAngled()
    ensures Angled("<|\\\\\">") && Angled("<|\\\">")
  {
  }

  lemma ParameterAngled()
    ensures Angled("<|tool_parameter|>") && Angled("<|tool_parameter>") && Angled("<tool_parameter|>")
  {
  }

  lemma WrapsAngled(w: Wrap)
    requires w in WRAPS
    ensures Angled(w.open) && Angled(w.close)
  {
    hide Angled;
    ShortAngled();
    EscapedAngled();
    ParameterAngled();
  }

  /** Only one wrapping fits, since a text has one beginning and one end between brackets. */
  lemma OnlyThisWrap(s: string, w: Wrap, u: Wrap)
    requires Angled(w.open) && Angled(w.close) && Angled(u.open) && Angled(u.close)
    requires Wrapped(w.open + s + w.close, u)
    ensures u == w
  {
    hide Angled;
    var x := w.open + s + w.close;
    SameStart(x, u.open, w.open);
    assert x[|x| - |u.close|..] == u.close && x[|x| - |w.close|..] == w.close;
    SameEnd(x, |x| - |u.close|, |x| - |w.close|);
  }

  /** The first closing bracket of `x` ends `a`. */
  lemma Closing(x: string, a: string)
    requires Angled(a) && a <= x
    ensures 0 < |a| <= |x| && x[|a| - 1] == '>' && forall i | 0 <= i < |a| - 1 :: x[i] != '>'
  {
    assert forall i | 0 <= i < |a| :: x[i] == a[i];
  }

  lemma SameStart(x: string, a: string, b: string)
    requires Angled(a) && Angled(b) && a <= x && b <= x
    ensures a == b
  {
    hide Angled;
    Closing(x, a);
    Closing(x, b);
    assert |a| - 1 >= |b| - 1 && |b| - 1 >= |a| - 1;
    assert a == x[..|a|] && b == x[..|b|];
  }

  /** The last opening bracket of `x` begins what follows `i`. */
  lemma Opening(x: string, i: nat)
    requires i <= |x| && Angled(x[i..])
    ensures i < |x| && x[i] == '<' && forall k | i < k < |x| :: x[k] != '<'
  {
    assert forall k | i <= k < |x| :: x[k] == x[i..][k - i];
  }

  lemma SameEnd(x: string, i: nat, j: nat)
    requires i <= |x| && j <= |x| && Angled(x[i..]) && Angled(x[j..])
    ensures i == j
  {
    hide Angled;
    Opening(x, i);
    Opening(x, j);
    assert i >= j && j >= i;
  }

  lemma {:induction false} UnwrapsTo(s: string, w: Wrap, wraps: seq<Wrap>)
    requires Smooth(s) && w in wraps && forall u | u in wraps :: Angled(u.open) && Angled(u.close)
    ensures Unwrap(w.open + s + w.close, wraps) == s
    decreases |wraps|
  {
    hide Trim, Wrapped, Angled, Smooth;
    var x := w.open + s + w.close;
    assert wraps[0] in wraps;
    if Wrapped(x, wraps[0]) {
      OnlyThisWrap(s, w, wraps[0]);
      assert x[|w.open|..|x| - |w.close|] == s;
      SmoothIsKept(s);
    } else {
      if wraps[0] == w {
        WrapsItself(s, w);
      }
      UnwrapsTo(s, w, wraps[1..]);
    }
  }

  lemma WrapsItself(s: string, w: Wrap)
    ensures Wrapped(w.open + s + w.close, w)
  {
  }

  /** Every wrapping comes off text without delimiters. */
  lemma WrapsComeOff(floats: string -> bool, s: string, w: Wrap)
    requires Smooth(s) && w in WRAPS
    ensures ParseValue(floats, w.open + s + w.close) == ParseValue(floats, s)
  {
    hide Trim, Unwrap, WRAPS;
    var x := w.open + s + w.close;
    forall u | u in WRAPS ensures Angled(u.open) && Angled(u.close) {
      WrapsAngled(u);
    }
    assert x[0] == '<' && x[|x| - 1] == '>';
    TrimmedIsKept(x);
    SmoothIsKept(s);
    assert !Quoted(x);
    UnwrapsTo(s, w, WRAPS);
    assert StripOnce(x) == s && x != s;
  }

  /** The three words for nothing are read as nothing, quoted or not, in either case of letters. */
  lemma NothingReads(floats: string -> bool, s: string)
    requires Smooth(s) && s in ["null", "none", "nil"]
    ensures ParseValue(floats, s) == Null && ParseValue(floats, QUOTE + s + QUOTE) == Null
  {
    hide Trim, Unwrap, WRAPS;
    SmoothIsKept(s);
    assert Lower("null") == "null" && Lower("none") == "none" && Lower("nil") == "nil";
    QuotedReads(floats, s);
  }

  lemma LowerMeans(floats: string -> bool, s: string)
    requires Lower(s) in ["null", "none", "nil"] && Trim(s) == s && StripAll(s) == s && s != ""
    ensures ParseValue(floats, s) == Null
  {
    hide StripAll, Trim;
    assert Lower("true") == "true" && Lower("false") == "false";
  }

  /** Empty quotes are an empty text. */
  lemma EmptyQuotes(floats: string -> bool, q: char)
    requires q == '"' || q == '\''
    ensures ParseValue(floats, [q, q]) == Str("")
  {
    hide Trim, Unwrap, WRAPS;
    var w := [q, q];
    TrimmedIsKept(w);
    TrimmedIsKept("");
    assert Quoted(w) && w[1..1] == "" && Unquote(w) == "" && Unquote("") == "";
    NothingToUnwrap();
    assert StripOnce(w) == "" && StripOnce("") == "" && StripAll("") == "" && StripAll(w) == "";
    assert Lower("") == "";
  }

  lemma NothingToUnwrap()
    ensures Unwrap("", WRAPS) == ""
  {
  }

  /** Keys may be quoted, too. */
  lemma QuotedKey(key: string, q: char)
    requires q == '"' || q == '\''
    ensures KeyOf([q] + key + [q]) == key
  {
    hide Trim;
    TrimmedIsKept([q] + key + [q]);
    assert ([q] + key + [q])[1..|key| + 1] == key;
  }

  // ----- scalars between delimiters ---------------------------------------------------------------------

  const DELIMITERS: seq<Marker> := ["<|\"|>", "<|\\\\\">", "<|\\\">", "<|\">", "<|'|>", "<|'>"]

  lemma DelimitersAngled(t: Marker)
    requires t in DELIMITERS
    ensures Angled(t) && t in TAGS && (forall u | u in TAGS :: u in DELIMITERS)
  {
    hide Angled;
    ShortAngled();
    EscapedAngled();
  }

  lemma {:induction false} TagIs(s: string, t: Marker, tags: seq<Marker>)
    requires t in tags && t <= s && forall u | u in tags :: Angled(u)
    ensures TagFrom(s, tags) == Some(t)
    decreases |tags|
  {
    hide Angled;
    assert tags[0] in tags;
    if tags[0] <= s {
      SameStart(s, tags[0], t);
    } else {
      TagIs(s, t, tags[1..]);
    }
  }

  lemma TagFound(s: string, t: Marker, rest: string)
    requires !Contains(s, t)
    ensures Find(s + (t + rest), t) == Some(|s|)
  {
    hide Contains;
    var w := s + (t + rest);
    StandsAt(s, t, rest);
    forall k: nat | k < |s| ensures !OccursAt(w, t, k) {
      NotBefore(s, t + rest, t, k);
    }
    FindIs(w, t, |s|);
  }

  /** A scalar in ASCII between two of the same delimiter, any of the six, ends where the second one ends. */
  lemma DelimitedEnds(t: Marker, s: string, rest: string)
    requires t in DELIMITERS && !Contains(s, t) && Ascii(s) && Follows(rest)
    ensures ScalarEnd(t + (s + (t + rest)), None) == |t| + |s| + |t|
  {
    hide Contains, Find, TagFrom, Angled, TAGS, ByteLength, ScalarEnd;
    var after := s + (t + rest);
    var w := t + after;
    DelimitersAngled(t);
    forall u | u in TAGS ensures Angled(u) {
      DelimitersAngled(u);
    }
    TagIs(w, t, TAGS);
    TagFound(s, t, rest);
    AsciiLength(s);
    EndHere(rest);
    assert w[|t|..] == after && after[..|s|] == s;
    assert MoveAt(w, None) == Go(|t| + |s| + |t|, None);
    assert w[|t| + |s| + |t|..] == rest;
    EndsAfter(w, |t| + |s| + |t|);
  }

  lemma EndsAfter(w: string, n: nat)
    requires w != "" && n <= |w| && MoveAt(w, None) == Go(n, None)
    ensures ScalarEnd(w, None) == n + if n == |w| then 0 else ScalarEnd(w[n..], None)
  {
    hide MoveAt;
  }
  /** A key without a value is an empty text once the text is complete, and not there before. */
  lemma KeyWithoutValue(floats: string -> bool, key: string, partial: bool)
    requires NormalKey(key)
    ensures ParseArgs(floats, key + ":", partial) == Parsed(if partial then map[] else map[key := Str("")])
  {
    hide Trim, Find, KeyOf, SkipSeparators;
    var w := key + ":";
    assert w == key + ":" + "";
    KeyStarts(key, "");
    KeyFound(key, "");
    assert w[..|key|] == key && w[|key| + 1..] == "";
    NotBlank(w, |key|);
  }

  /** Objects and lists as values are left to other code. */
  lemma NestedIsLeft(floats: string -> bool, key: string, c: char, rest: string, partial: bool)
    requires NormalKey(key) && (c == '{' || c == '[')
    ensures ParseArgs(floats, key + ":" + ([c] + rest), partial) == Nested
  {
    hide Trim, Find, KeyOf, SkipSeparators;
    var w := key + ":" + ([c] + rest);
    KeyStarts(key, [c] + rest);
    KeyFound(key, [c] + rest);
    assert w[..|key|] == key && w[|key| + 1..] == [c] + rest;
    assert SkipBlanks([c] + rest) == [c] + rest;
    NotBlank(w, |key|);
  }

  /** Between quotes a scalar may hold separators. */
  lemma {:induction false} QuoteCloses(s: string, q: char, rest: string)
    requires (q == '"' || q == '\'') && q !in s && '<' !in s
    ensures ScalarEnd(s + ([q] + rest), Some(q)) == |s| + 1 + ScalarEnd(rest, None)
    decreases |s|
  {
    hide TagFrom, TAGS, Find, MoveAt;
    var w := s + ([q] + rest);
    if s == "" {
      assert w[0] == q && w[1..] == rest;
      PlainInQuote(w, q);
      if rest == "" {
        NoScalar();
      }
    } else {
      assert s[0] in s && w[0] == s[0] && w[1..] == s[1..] + ([q] + rest);
      PlainInQuote(w, q);
      QuoteCloses(s[1..], q, rest);
    }
  }

  lemma NoScalar()
    ensures ScalarEnd("", None) == 0
  {
  }

  lemma PlainInQuote(w: string, q: char)
    requires w != "" && w[0] != '<'
    ensures MoveAt(w, Some(q)) == Go(1, if w[0] == q then None else Some(q))
    ensures w[0] == q && (q == '"' || q == '\'') ==> MoveAt(w, None) == Go(1, Some(q))
  {
    hide TagFrom, Find;
    NoTagFrom(w, TAGS);
  }

  lemma QuotedScalarEnds(s: string, q: char, rest: string)
    requires (q == '"' || q == '\'') && q !in s && '<' !in s && Follows(rest)
    ensures ScalarEnd([q] + (s + ([q] + rest)), None) == |s| + 2
  {
    hide MoveAt, TagFrom;
    var w := [q] + (s + ([q] + rest));
    assert w[0] == q && w[1..] == s + ([q] + rest);
    PlainInQuote(w, q);
    QuoteCloses(s, q, rest);
    EndHere(rest);
  }
}
