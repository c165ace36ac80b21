/** What is printed is read back, and exactly when. */
module GrammarLaws {
  import opened Text
  import opened Trimming
  import opened Utf8
  import opened Decimals
  import opened ToolCallGrammar

  // ----- one value ------------------------------------------------------------------

  /** Text that is left as it is and stands for a string. */
  predicate Bare(floats: string -> bool, s: string) {
    Trim(s) == s && StripOnce(s) == s && Classify(floats, s) == Str(s)
  }

  lemma QuoteShape()
    ensures |QUOTE| == 5 && QUOTE[0] == '<' && QUOTE[4] == '>' && !IsWhitespace('<') && !IsWhitespace('>')
    ensures WRAPS[0] == Wrap(QUOTE, QUOTE) && TAGS[0] == QUOTE
  {
  }

  lemma StripQuoted(s: string)
    ensures Trim(QUOTE + s + QUOTE) == QUOTE + s + QUOTE
    ensures StripAll(QUOTE + s + QUOTE) == StripAll(Trim(s))
  {
    hide Trim, QUOTE, TAGS, IsMarker;
    QuoteShape();
    var q := QUOTE + s + QUOTE;
    assert q[0] == '<' && q[|q| - 1] == '>';
    TrimmedIsKept(q);
    assert !Quoted(q);
    assert Wrapped(q, WRAPS[0]);
    assert q[5..|q| - 5] == s;
    assert StripOnce(q) == Trim(s);
  }

  lemma StripKeepsLength(s: string)
    ensures |StripAll(s)| == |s| <==> StripOnce(s) == s
    ensures StripOnce(s) == s ==> StripAll(s) == s
  {
    hide StripOnce;
  }

  lemma ClassifyKeeps(floats: string -> bool, s: string)
    ensures Classify(floats, s).Str? ==> Classify(floats, s) == Str(s)
  {
  }

  lemma QuotedReads(floats: string -> bool, s: string)
    ensures ParseValue(floats, QUOTE + s + QUOTE) == Classify(floats, StripAll(Trim(s)))
  {
    hide Trim, QUOTE, StripAll, Classify;
    QuoteShape();
    StripQuoted(s);
  }

  /** A string value is read back if and only if it is bare: nothing would be trimmed or
      stripped from it, and it does not read as a literal or a number. */
  lemma StrRoundTripsIff(floats: string -> bool, s: string)
    ensures ParseValue(floats, PrintValue(Str(s))) == Str(s) <==> Bare(floats, s)
  {
    hide Trim, StripOnce, StripAll, Classify, ParseValue, QUOTE;
    QuotedReads(floats, s);
    var t := Trim(s);
    ClassifyKeeps(floats, StripAll(t));
    StripKeepsLength(t);
    if StripAll(t) == s {
      assert |StripAll(t)| == |t|;
    }
  }

  predicate IsNumeral(c: char) {
    IsDigit(c) || c == '+' || c == '-' || c == '.' || c == 'e' || c == 'E'
  }

  /** The text of a number, or of a literal: no delimiter, quote or separator in it. */
  predicate Smooth(s: string) {
    s != "" && forall i | 0 <= i < |s| :: IsNumeral(s[i]) || 'a' <= s[i] <= 'z'
  }

  lemma SmoothIsKept(s: string)
    requires Smooth(s)
    ensures Trim(s) == s && StripOnce(s) == s && StripAll(s) == s
  {
    assert s[0] in s && s[|s| - 1] in s;
    TrimmedIsKept(s);
    assert !Quoted(s);
    NoWrap(s, WRAPS);
  }

  lemma {:induction false} NoWrap(s: string, wraps: seq<Wrap>)
    requires s != "" && s[0] != '<' && forall w | w in wraps :: w.open != "" && w.open[0] == '<'
    ensures Unwrap(s, wraps) == s
  {
    if wraps != [] {
      assert wraps[0] in wraps;
      NoWrap(s, wraps[1..]);
    }
  }

  lemma DecimalIsSmooth(n: nat)
    ensures Smooth(Decimal(n)) && IsDigit(Decimal(n)[0]) && '.' !in Decimal(n)
  {
  }

  lemma PrintedInt(n: int)
    ensures Smooth(PrintInt(n)) && '.' !in PrintInt(n)
    ensures PrintInt(n) != "true" && PrintInt(n) != "false"
    ensures Lower(PrintInt(n)) != "null" && Lower(PrintInt(n)) != "none" && Lower(PrintInt(n)) != "nil"
  {
    DecimalIsSmooth(if n < 0 then -n else n);
    var s := PrintInt(n);
    assert s[0] == '-' || IsDigit(s[0]);
    assert Lower(s)[0] == s[0];
  }

  lemma PrintedIntReads(n: int)
    ensures ParseInt(PrintInt(n)) == if MIN64 <= n <= MAX64 then Some(n) else None
  {
    hide Decimal, NumberOf, AllDigits;
    DecimalRoundTrips(if n < 0 then -n else n);
    DecimalIsSmooth(if n < 0 then -n else n);
    if n < 0 {
      assert PrintInt(n)[1..] == Decimal(-n);
    }
  }

  /** An integer is read back if and only if it fits 64 bits. */
  lemma IntRoundTripsIff(floats: string -> bool, n: int)
    ensures ParseValue(floats, PrintValue(Int(n))) == Int(n) <==> MIN64 <= n <= MAX64
  {
    hide Trim, StripAll, ParseInt, Lower, PrintInt;
    PrintedInt(n);
    SmoothIsKept(PrintInt(n));
    PrintedIntReads(n);
  }

  predicate FloatText(floats: string -> bool, s: string) {
    s != "" && (forall i | 0 <= i < |s| :: IsNumeral(s[i])) && '.' in s && floats(s)
  }

  lemma FloatRoundTrips(floats: string -> bool, s: string)
    requires FloatText(floats, s)
    ensures ParseValue(floats, PrintValue(Float(s))) == Float(s)
  {
    hide Trim, StripAll;
    SmoothIsKept(s);
    var i :| 0 <= i < |s| && s[i] == '.';
    assert Lower(s)[i] == '.';
  }

  lemma BoolRoundTrips(floats: string -> bool, b: bool)
    ensures ParseValue(floats, PrintValue(Bool(b))) == Bool(b)
  {
    hide Trim, StripAll, Lower;
    SmoothIsKept(if b then "true" else "false");
  }

  lemma NullRoundTrips(floats: string -> bool)
    ensures ParseValue(floats, PrintValue(Null)) == Null
  {
    hide Trim, StripAll, ParseValue, QUOTE, Classify;
    SmoothIsKept("null");
    QuotedReads(floats, "null");
    NullReads(floats);
  }

  lemma NullReads(floats: string -> bool)
    ensures Classify(floats, "null") == Null
  {
    assert Lower("null") == "null";
  }

  // ----- finding where a value ends --------------------------------------------------

  /** Values whose printed form is scanned and read as one. */
  predicate NormalValue(floats: string -> bool, v: Value) {
    match v
    case Str(s) => Bare(floats, s) && Ascii(s) && !Contains(s, QUOTE)
    case Int(n) => MIN64 <= n <= MAX64
    case Float(text) => FloatText(floats, text)
    case Bool(_) => true
    case Null => true
  }

  lemma NormalValueReads(floats: string -> bool, v: Value)
    requires NormalValue(floats, v)
    ensures ParseValue(floats, PrintValue(v)) == v
  {
    hide ParseValue, PrintValue, Bare, FloatText;
    match v {
      case Str(s) => StrRoundTripsIff(floats, s);
      case Int(n) => IntRoundTripsIff(floats, n);
      case Float(text) => FloatRoundTrips(floats, text);
      case Bool(b) => BoolRoundTrips(floats, b);
      case Null => NullRoundTrips(floats);
    }
  }

  lemma {:induction false} NoTagFrom(s: string, tags: seq<Marker>)
    requires s == "" || s[0] != '<'
    ensures TagFrom(s, tags) == None
  {
    if tags != [] {
      NoTagFrom(s, tags[1..]);
    }
  }

  /** What may follow a value. */
  predicate Follows(rest: string) {
    rest == "" || rest[0] == ','
  }

  lemma EndHere(rest: string)
    requires Follows(rest)
    ensures ScalarEnd(rest, None) == 0
  {
    NoTagFrom(rest, TAGS);
  }

  lemma {:induction false} SmoothEnds(s: string, rest: string)
    requires (forall i | 0 <= i < |s| :: IsNumeral(s[i]) || 'a' <= s[i] <= 'z') && Follows(rest)
    ensures ScalarEnd(s + rest, None) == |s|
    decreases |s|
  {
    hide MoveAt;
    if s == "" {
      assert s + rest == rest;
      EndHere(rest);
    } else {
      var w := s + rest;
      assert w[0] == s[0] && w[1..] == s[1..] + rest;
      PlainMove(w);
      SmoothEnds(s[1..], rest);
    }
  }

  lemma PlainMove(w: string)
    requires w != "" && (IsNumeral(w[0]) || 'a' <= w[0] <= 'z')
    ensures MoveAt(w, None) == Go(1, None)
  {
    hide TagFrom, Find;
    NoTagFrom(w, TAGS);
  }

  lemma QuoteFirst(s: string)
    requires QUOTE <= s
    ensures TagAt(s) == Some(QUOTE)
  {
    QuoteShape();
  }

  lemma QuoteFound(s: string, rest: string)
    requires !Contains(s, QUOTE)
    ensures Find(s + QUOTE + rest, QUOTE) == Some(|s|)
  {
    hide QUOTE;
    QuoteShape();
    var w := s + QUOTE + rest;
    assert w[|s|..|s| + 5] == QUOTE && w[|s|] == '<';
    forall k: nat | k < |s|
      ensures !OccursAt(w, QUOTE, k)
    {
      if OccursAt(w, QUOTE, k) {
        NoOverlap(w, QUOTE, k, |s|);
        assert w == s + (QUOTE + rest);
        OccursInPrefix(s, QUOTE + rest, QUOTE, k);
      }
    }
    FindIs(w, QUOTE, |s|);
  }

  /** A quoted value is skipped by the bytes it takes. */
  lemma QuotedMove(s: string, rest: string)
    requires !Contains(s, QUOTE)
    ensures var w := QUOTE + s + QUOTE + rest; w != "" && MoveAt(w, None) == Go(10 + ByteLength(s), None)
  {
    hide QUOTE, ByteLength, Contains, Find, TagAt;
    QuoteShape();
    var w := QUOTE + s + QUOTE + rest;
    assert QUOTE <= w;
    QuoteFirst(w);
    assert w[5..] == s + QUOTE + rest;
    QuoteFound(s, rest);
    assert w[5..][..|s|] == s;
  }

  lemma QuotedEnds(s: string, rest: string)
    requires !Contains(s, QUOTE)
    ensures var skip, w := 10 + ByteLength(s), QUOTE + s + QUOTE + rest;
            ScalarEnd(w, None) == if skip >= |w| then skip else skip + ScalarEnd(w[skip..], None)
  {
    hide QUOTE, ByteLength, Contains, MoveAt;
    QuotedMove(s, rest);
  }

  lemma QuotedAsciiEnds(s: string, rest: string)
    requires !Contains(s, QUOTE) && Ascii(s) && Follows(rest)
    ensures ScalarEnd(QUOTE + s + QUOTE + rest, None) == |QUOTE + s + QUOTE|
  {
    hide QUOTE, ByteLength, ScalarEnd;
    QuoteShape();
    QuotedEnds(s, rest);
    AsciiLength(s);
    EndHere(rest);
    var w := QUOTE + s + QUOTE + rest;
    assert w[10 + |s|..] == rest;
  }

  lemma ValueEnds(floats: string -> bool, v: Value, rest: string)
    requires NormalValue(floats, v) && Follows(rest)
    ensures ScalarEnd(PrintValue(v) + rest, None) == |PrintValue(v)|
  {
    hide QUOTE, ScalarEnd, Contains, ByteLength;
    match v {
      case Str(s) =>
        QuotedAsciiEnds(s, rest);
      case Int(n) =>
        PrintedInt(n);
        SmoothEnds(PrintInt(n), rest);
      case Float(text) => SmoothEnds(text, rest);
      case Bool(b) => SmoothEnds(if b then "true" else "false", rest);
      case Null =>
        NullIsPlain();
        QuotedAsciiEnds("null", rest);
    }
  }

  lemma NullIsPlain()
    ensures !Contains("null", QUOTE) && Ascii("null")
  {
    assert |QUOTE| == 5;
  }

  // ----- arguments --------------------------------------------------------------------

  predicate NormalKey(key: string) {
    ':' !in key && Trim(key) == key && !Quoted(key) && (key != "" ==> key[0] != ',')
  }

  lemma KeyFound(key: string, rest: string)
    requires ':' !in key
    ensures Find(key + ":" + rest, ":") == Some(|key|)
  {
    var w := key + ":" + rest;
    assert w[|key|..|key| + 1] == ":";
    forall k: nat | k < |key|
      ensures !OccursAt(w, ":", k)
    {
      assert w[k..k + 1][0] == key[k];
    }
    FindIs(w, ":", |key|);
  }

  lemma ValueStarts(floats: string -> bool, v: Value, rest: string)
    requires NormalValue(floats, v)
    ensures var w := PrintValue(v) + rest; w != "" && SkipBlanks(w) == w && w[0] != '{' && w[0] != '['
  {
    QuoteShape();
    match v {
      case Int(n) => PrintedInt(n);
      case _ =>
    }
    var w := PrintValue(v) + rest;
    assert w[0] == PrintValue(v)[0];
  }

  lemma ArgNext(floats: string -> bool, a: Arg, rest: string)
    requires NormalKey(a.key) && NormalValue(floats, a.value) && Follows(rest)
    ensures NextArg(PrintArg(a) + rest) == Scalar(a.key, PrintValue(a.value), rest)
  {
    hide NormalValue, PrintValue, ScalarEnd, Trim, Find;
    var value := PrintValue(a.value) + rest;
    var w := PrintArg(a) + rest;
    assert w == a.key + ":" + value;
    KeyFound(a.key, value);
    KeyStarts(a.key, value);
    assert w[..|a.key|] == a.key && w[|a.key| + 1..] == value;
    ValueStarts(floats, a.value, rest);
    ValueEnds(floats, a.value, rest);
    assert value[..|PrintValue(a.value)|] == PrintValue(a.value) && value[|PrintValue(a.value)|..] == rest;
  }

  /** One argument is read, and the rest after it. */
  lemma ArgReads(floats: string -> bool, a: Arg, rest: string, found: map<string, Value>)
    requires NormalKey(a.key) && NormalValue(floats, a.value) && Follows(rest)
    ensures ParseRest(floats, PrintArg(a) + rest, false, found) ==
            ParseRest(floats, rest, false, found[a.key := a.value])
  {
    hide NormalValue, PrintValue, ParseValue, NextArg, NormalKey;
    ArgNext(floats, a, rest);
    NormalValueReads(floats, a.value);
  }

  lemma BlankIsWhitespace(c: char)
    ensures IsBlank(c) ==> IsWhitespace(c)
  {
  }

  lemma KeyStarts(key: string, rest: string)
    requires NormalKey(key)
    ensures SkipSeparators(key + ":" + rest) == key + ":" + rest && KeyOf(key) == key
  {
    hide Trim, IsWhitespace, IsBlank;
    var w := key + ":" + rest;
    if key == "" {
      assert w[0] == ':';
      assert !IsBlank(':') by { ColonIsNotBlank(); }
    } else {
      TrimMeans(key);
      assert w[0] == key[0] == Trim(key)[0];
      BlankIsWhitespace(key[0]);
    }
  }

  lemma ColonIsNotBlank()
    ensures !IsBlank(':')
  {
  }

  predicate NormalArgs(floats: string -> bool, args: seq<Arg>) {
    forall i | 0 <= i < |args| :: NormalKey(args[i].key) && NormalValue(floats, args[i].value)
  }

  /** The arguments as a map; of equal keys the last counts. */
  function Insert(found: map<string, Value>, args: seq<Arg>): map<string, Value>
    decreases |args|
  {
    if args == [] then found else Insert(found[args[0].key := args[0].value], args[1..])
  }

  lemma SeparatorSkipped(floats: string -> bool, rest: string, found: map<string, Value>)
    ensures ParseRest(floats, "," + rest, false, found) == ParseRest(floats, rest, false, found)
  {
    SeparatorIsNothing(rest);
  }

  lemma SeparatorIsNothing(rest: string)
    ensures NextArg("," + rest) == NextArg(rest)
  {
    hide Find, KeyOf, SkipBlanks, ScalarEnd;
    assert ("," + rest)[1..] == rest;
    assert SkipSeparators("," + rest) == SkipSeparators(rest);
  }

  lemma NothingToParse(floats: string -> bool, found: map<string, Value>)
    ensures ParseRest(floats, "", false, found) == Parsed(found)
  {
    NothingNext();
  }

  lemma NothingNext()
    ensures NextArg("") == NoMore
  {
    assert Find("", ":").None? by {
      assert forall k: nat :: !OccursAt("", ":", k);
    }
  }

  lemma {:induction false} RestReads(floats: string -> bool, args: seq<Arg>, found: map<string, Value>)
    requires NormalArgs(floats, args)
    ensures ParseRest(floats, PrintArgs(args), false, found) == Parsed(Insert(found, args))
    decreases |args|
  {
    hide ParseRest, NormalKey, NormalValue, PrintArg;
    if args == [] {
      NothingToParse(floats, found);
    } else if |args| == 1 {
      assert PrintArgs(args) == PrintArg(args[0]) + "";
      ArgReads(floats, args[0], "", found);
      NothingToParse(floats, found[args[0].key := args[0].value]);
      assert Insert(found[args[0].key := args[0].value], []) == found[args[0].key := args[0].value];
    } else {
      var rest := PrintArgs(args[1..]);
      assert PrintArgs(args) == PrintArg(args[0]) + ("," + rest);
      ArgReads(floats, args[0], "," + rest, found);
      SeparatorSkipped(floats, rest, found[args[0].key := args[0].value]);
      RestReads(floats, args[1..], found[args[0].key := args[0].value]);
    }
  }

  lemma {:induction false} PrintedNotBlank(args: seq<Arg>)
    requires args != []
    ensures Trim(PrintArgs(args)) != ""
  {
    var w := PrintArgs(args);
    var k := |args[0].key|;
    assert w[k] == PrintArg(args[0])[k] == ':';
    NotBlank(w, k);
  }

  lemma {:induction false} NotBlank(s: string, k: nat)
    requires k < |s| && !IsWhitespace(s[k])
    ensures Trim(s) != ""
  {
    StartKeeps(s, k);
    TrimStartIsSuffix(s);
    var t := TrimStart(s);
    EndKeeps(t, k - (|s| - |t|));
  }

  lemma {:induction false} StartKeeps(s: string, k: nat)
    requires k < |s| && !IsWhitespace(s[k])
    ensures |s| - |TrimStart(s)| <= k
    decreases |s|
  {
    if IsWhitespace(s[0]) {
      StartKeeps(s[1..], k - 1);
    }
  }

  lemma {:induction false} EndKeeps(s: string, k: nat)
    requires k < |s| && !IsWhitespace(s[k])
    ensures k < |TrimEnd(s)|
    decreases |s|
  {
    if IsWhitespace(s[|s| - 1]) {
      EndKeeps(s[..|s| - 1], k);
    }
  }

  /** Flat arguments in normal form are read back, every key with its value. */
  lemma ArgsRoundTrip(floats: string -> bool, args: seq<Arg>)
    requires NormalArgs(floats, args)
    ensures ParseArgs(floats, PrintArgs(args), false) == Parsed(Insert(map[], args))
  {
    hide ParseRest, NormalArgs, Trim;
    if args == [] {
      TrimmedIsKept("");
    } else {
      PrintedNotBlank(args);
      RestReads(floats, args, map[]);
    }
  }

  lemma {:induction false} InsertMeans(found: map<string, Value>, args: seq<Arg>, i: nat)
    requires i < |args| && forall j, k | 0 <= j < k < |args| :: args[j].key != args[k].key
    ensures args[i].key in Insert(found, args) && Insert(found, args)[args[i].key] == args[i].value
    decreases |args|
  {
    if i == 0 {
      InsertOther(found[args[0].key := args[0].value], args[1..], args[0].key);
    } else {
      InsertMeans(found[args[0].key := args[0].value], args[1..], i - 1);
    }
  }

  lemma {:induction false} InsertOther(found: map<string, Value>, args: seq<Arg>, key: string)
    requires forall k | 0 <= k < |args| :: args[k].key != key
    ensures key in Insert(found, args) <==> key in found
    ensures key in found ==> Insert(found, args)[key] == found[key]
    decreases |args|
  {
    if args != [] {
      InsertOther(found[args[0].key := args[0].value], args[1..], key);
    }
  }

  // ----- text that is not ASCII ----------------------------------------------------------

  lemma SingleEnds(s: string)
    requires !Contains(s, QUOTE)
    ensures ScalarEnd(QUOTE + s + QUOTE, None) > |QUOTE + s + QUOTE| <==> !Ascii(s)
    ensures Ascii(s) ==> ScalarEnd(QUOTE + s + QUOTE, None) == |QUOTE + s + QUOTE|
  {
    hide QUOTE, ByteLength, ScalarEnd, Contains;
    QuoteShape();
    assert QUOTE + s + QUOTE + "" == QUOTE + s + QUOTE;
    QuotedEnds(s, "");
    AsciiLength(s);
  }

  /** A call with one string argument that holds no delimiter is read back if and only if
      the string is bare and ASCII. With any other character the scan adds bytes to
      characters and slices beyond the end. */
  lemma SingleArgIff(floats: string -> bool, key: string, s: string)
    requires NormalKey(key) && !Contains(s, QUOTE)
    ensures var text := PrintArgs([Arg(key, Str(s))]);
            && (ParseArgs(floats, text, false) == Parsed(map[key := Str(s)]) <==> Ascii(s) && Bare(floats, s))
            && (ParseArgs(floats, text, false) == Crash <==> !Ascii(s))
  {
    hide QUOTE, ScalarEnd, Contains, ByteLength, Bare, Trim, Find, ParseValue, StripAll;
    QuoteShape();
    var arg, value := Arg(key, Str(s)), QUOTE + s + QUOTE;
    var w := PrintArgs([arg]);
    assert w == key + ":" + value;
    PrintedNotBlank([arg]);
    KeyFound(key, value);
    KeyStarts(key, value);
    assert w[..|key|] == key && w[|key| + 1..] == value;
    assert value[0] == '<';
    assert SkipBlanks(value) == value;
    SingleEnds(s);
    StrRoundTripsIff(floats, s);
    if Ascii(s) {
      assert value[..|value|] == value && value[|value|..] == "";
      NothingToParse(floats, map[key := ParseValue(floats, value)]);
      assert map[][key := ParseValue(floats, value)] == map[key := ParseValue(floats, value)];
      assert map[key := ParseValue(floats, value)][key] == ParseValue(floats, value) &&
             map[key := Str(s)][key] == Str(s);
    }
  }

  // ----- calls ------------------------------------------------------------------------------

  predicate NormalName(name: string) {
    Trim(name) == name && '{' !in name
  }

  lemma BraceFound(name: string, rest: string)
    requires '{' !in name
    ensures Find(name + "{" + rest, "{") == Some(|name|)
  {
    var w := name + "{" + rest;
    assert w[|name|..|name| + 1] == "{";
    forall k: nat | k < |name|
      ensures !OccursAt(w, "{", k)
    {
      assert w[k..k + 1][0] == name[k];
    }
    FindIs(w, "{", |name|);
  }

  lemma LastBrace(args: string)
    ensures RFind(args + "}", "}") == Some(|args|)
  {
    var w := args + "}";
    assert w[|args|..|args| + 1] == "}";
    RFindIs(w, "}", |args|);
  }

  lemma CallStarts(content: string)
    ensures Find("call:" + content, "call:") == Some(0) && ("call:" + content)[5..] == content
  {
    assert ("call:" + content)[0..5] == "call:";
    FindIs("call:" + content, "call:", 0);
  }

  lemma PrintedCallIsKept(name: string, args: seq<Arg>)
    ensures var w := PrintCall(name, args);
            Trim(w) == w && w != "" && w[0] == 'c' && w == "call:" + (name + "{" + (PrintArgs(args) + "}"))
  {
    hide PrintArgs;
    var w := PrintCall(name, args);
    assert w[|w| - 1] == '}' && w[0] == 'c';
    TrimmedIsKept(w);
  }

  /** A printed call is read back with its name and its arguments. */
  lemma CallRoundTrips(floats: string -> bool, name: string, args: seq<Arg>)
    requires NormalName(name) && NormalArgs(floats, args)
    ensures var read := Insert(map[], args);
            ParseBlock(floats, PrintCall(name, args)) == Read(Call(CallId(read), name, read))
  {
    hide Trim, Find, RFind, ParseArgs, PrintArgs, PrintCall, NormalArgs, Insert, CallId;
    var text := PrintArgs(args);
    PrintedCallIsKept(name, args);
    var content := name + "{" + (text + "}");
    CallStarts(content);
    BraceFound(name, text + "}");
    assert content[..|name|] == name && content[|name| + 1..] == text + "}";
    LastBrace(text);
    assert (text + "}")[..|text|] == text;
    ArgsRoundTrip(floats, args);
  }

  datatype Printed = Printed(name: string, args: seq<Arg>)

  /** One call between its tokens. */
  function Tokenized(c: Printed): string {
    CALL_OPEN + PrintCall(c.name, c.args) + CALL_CLOSE
  }

  function PrintAll(calls: seq<Printed>): string {
    if calls == [] then "" else Tokenized(calls[0]) + PrintAll(calls[1..])
  }

  function CallOf(c: Printed): Call {
    Call(CallId(Insert(map[], c.args)), c.name, Insert(map[], c.args))
  }

  function CallsOf(calls: seq<Printed>): seq<Call> {
    seq(|calls|, i requires 0 <= i < |calls| => CallOf(calls[i]))
  }

  /** A call in normal form whose printed form holds no token that would end it. */
  predicate NormalCall(floats: string -> bool, c: Printed) {
    && NormalName(c.name) && NormalArgs(floats, c.args)
    && forall t | t in CALL_ENDS :: !Contains(PrintCall(c.name, c.args), t)
  }

  // ----- a list of calls ----------------------------------------------------------------------

  /** The first token of the list is found where it stands, if none of them stands earlier. */
  lemma {:induction false} TokenFound(text: string, tokens: seq<Marker>, pos: nat)
    requires tokens != [] && OccursAt(text, tokens[0], pos)
    requires forall t, k: nat | t in tokens && k < pos :: !OccursAt(text, t, k)
    ensures FirstToken(text, tokens) == Some(Place(pos, tokens[0]))
    decreases |tokens|
  {
    var n := |tokens| - 1;
    assert tokens[n] in tokens && tokens[0] in tokens;
    if n == 0 {
      FindIs(text, tokens[0], pos);
      assert FirstToken(text, tokens[..0]) == None;
    } else {
      TokenFound(text, tokens[..n], pos);
    }
  }

  lemma TokensOpen()
    ensures CALL_STARTS != [] && CALL_STARTS[0] == CALL_OPEN && CALL_ENDS != [] && CALL_ENDS[0] == CALL_CLOSE
    ensures CALL_OPEN != "" && CALL_CLOSE != "" && CALL_CLOSE[0] == '<'
  {
  }

  lemma StartFound(rest: string)
    ensures FirstToken(CALL_OPEN + rest, CALL_STARTS) == Some(Place(0, CALL_OPEN))
  {
    hide FirstToken, CALL_STARTS, CALL_OPEN, CALL_ENDS, CALL_CLOSE;
    TokensOpen();
    var w: string := CALL_OPEN + rest;
    assert w[0..0 + |CALL_OPEN|] == CALL_OPEN;
    TokenFound(w, CALL_STARTS, 0);
  }

  /** A marker that is not in `body` does not start there when a marker follows. */
  lemma NotBefore(body: string, rest: string, t: Marker, k: nat)
    requires !Contains(body, t) && k < |body| && rest != "" && rest[0] == '<'
    ensures !OccursAt(body + rest, t, k)
  {
    hide Find, OccursAt;
    if OccursAt(body + rest, t, k) {
      NoOverlap(body + rest, t, k, |body|);
      OccursInPrefix(body, rest, t, k);
    }
  }

  lemma EndFound(body: string, rest: string)
    requires forall t | t in CALL_ENDS :: !Contains(body, t)
    ensures FirstToken(body + (CALL_CLOSE + rest), CALL_ENDS) == Some(Place(|body|, CALL_CLOSE))
  {
    hide FirstToken, CALL_ENDS, CALL_CLOSE, CALL_STARTS, CALL_OPEN;
    TokensOpen();
    var w: string := body + (CALL_CLOSE + rest);
    assert w[|body|..|body| + |CALL_CLOSE|] == CALL_CLOSE;
    forall t, k: nat | t in CALL_ENDS && k < |body|
      ensures !OccursAt(w, t, k)
    {
      NotBefore(body, CALL_CLOSE + rest, t, k);
    }
    TokenFound(w, CALL_ENDS, |body|);
  }

  /** The first of the printed calls is found with its length. */
  lemma CallFound(floats: string -> bool, c: Printed, rest: string, isFinal: bool)
    requires NormalCall(floats, c)
    ensures FindToolCall(floats, Tokenized(c) + rest, isFinal) == Some(Found(Read(CallOf(c)), |Tokenized(c)|))
  {
    hide FirstToken, ParseBlock, PrintCall, Insert, CallId, CALL_ENDS, CALL_STARTS, CALL_OPEN, CALL_CLOSE, NormalArgs,
         NormalName, Contains;
    var body := PrintCall(c.name, c.args);
    var after: string := body + (CALL_CLOSE + rest);
    TokensOpen();
    assert Tokenized(c) + rest == CALL_OPEN + after;
    StartFound(after);
    assert (CALL_OPEN + after)[|CALL_OPEN|..] == after;
    EndFound(body, rest);
    assert after[..|body|] == body;
    CallRoundTrips(floats, c.name, c.args);
  }

  lemma OneMore(floats: string -> bool, text: string, isFinal: bool, offset: nat, done: seq<Call>, call: Call,
                length: nat)
    requires offset <= |text| && FindToolCall(floats, text[offset..], isFinal) == Some(Found(Read(call), length))
    ensures offset + length <= |text| &&
            FindFromOffset(floats, text, isFinal, offset, done) ==
              if offset + length >= |text| then Calls(done + [call], offset + length)
              else FindFromOffset(floats, text, isFinal, offset + length, done + [call])
  {
    hide FindToolCall;
  }

  lemma Unrolled(calls: seq<Printed>)
    requires calls != []
    ensures PrintAll(calls) == Tokenized(calls[0]) + PrintAll(calls[1..])
    ensures CallsOf(calls) == [CallOf(calls[0])] + CallsOf(calls[1..])
    ensures |calls| == 1 ==> PrintAll(calls[1..]) == "" && CallsOf(calls[1..]) == []
    ensures |calls| > 1 ==> |PrintAll(calls[1..])| >= |Tokenized(calls[1])|
  {
  }

  lemma {:induction false} AllFound(floats: string -> bool, before: string, calls: seq<Printed>, isFinal: bool,
                                    done: seq<Call>)
    requires calls != [] && forall i | 0 <= i < |calls| :: NormalCall(floats, calls[i])
    ensures FindFromOffset(floats, before + PrintAll(calls), isFinal, |before|, done) ==
            Calls(done + CallsOf(calls), |before + PrintAll(calls)|)
    decreases |calls|
  {
    hide FindToolCall, NormalCall, Tokenized, CallOf, FindFromOffset, PrintAll, CallsOf;
    Unrolled(calls);
    var c, rest := calls[0], PrintAll(calls[1..]);
    var w := before + PrintAll(calls);
    assert w[|before|..] == PrintAll(calls) == Tokenized(c) + rest;
    CallFound(floats, c, rest, isFinal);
    var upTo := before + Tokenized(c);
    assert w == upTo + rest;
    OneMore(floats, w, isFinal, |before|, done, CallOf(c), |Tokenized(c)|);
    ConcatAssociates(done, [CallOf(c)], CallsOf(calls[1..]));
    if |calls| > 1 {
      TokenizedNotEmpty(calls[1]);
      assert |rest| > 0;
      AllFound(floats, upTo, calls[1..], isFinal, done + [CallOf(c)]);
    }
  }

  lemma TokenizedNotEmpty(c: Printed)
    ensures Tokenized(c) != ""
  {
    assert |CALL_OPEN| > 0;
  }

  /** Printing calls in normal form one after another and searching the text finds the same
      names, with the same arguments, in the same order, up to the end of the text. */
  lemma CallsRoundTrip(floats: string -> bool, calls: seq<Printed>, isFinal: bool)
    requires calls != [] && forall i | 0 <= i < |calls| :: NormalCall(floats, calls[i])
    ensures FindToolCalls(floats, PrintAll(calls), isFinal) == Calls(CallsOf(calls), |PrintAll(calls)|)
  {
    hide FindFromOffset, NormalCall;
    AllFound(floats, "", calls, isFinal, []);
    assert "" + PrintAll(calls) == PrintAll(calls) && [] + CallsOf(calls) == CallsOf(calls);
  }
}
