/** The output of a background task: decoded as it is read, split into lines, and kept
    as a bounded tail of an unbounded history. */
module BackgroundOutput {
  import opened Text
  import opened Utf8Stream

  const TAIL_LINES: nat := 400
  const LINE_CHARS: nat := 2000

  /** All lines ever finished, and the line that has begun. */
  datatype History = History(lines: seq<string>, partial: string)

  const NO_OUTPUT := History([], "")

  /** A blank line right after a blank line is dropped. */
  function Flush(h: History): History {
    if h.partial == "" && h.lines != [] && h.lines[|h.lines| - 1] == "" then h
    else History(h.lines + [h.partial], "")
  }

  /** A carriage return starts the line again; a line holds no more than its limit. */
  function AbsorbChar(h: History, c: char): History {
    if c == '\n' then Flush(h)
    else if c == '\r' then h.(partial := "")
    else if |h.partial| < LINE_CHARS then h.(partial := h.partial + [c])
    else h
  }

  function Absorb(h: History, text: string): History
    decreases |text|
  {
    if text == "" then h else Absorb(AbsorbChar(h, text[0]), text[1..])
  }

  lemma {:induction false} AbsorbConcat(h: History, a: string, b: string)
    ensures Absorb(h, a + b) == Absorb(Absorb(h, a), b)
    decreases |a|
  {
    if a == "" {
      assert a + b == b;
    } else {
      assert (a + b)[1..] == a[1..] + b;
      AbsorbConcat(AbsorbChar(h, a[0]), a[1..], b);
    }
  }

  lemma AbsorbNext(h: History, text: string, i: nat)
    requires i < |text|
    ensures Absorb(h, text[..i + 1]) == AbsorbChar(Absorb(h, text[..i]), text[i])
  {
    assert text[..i + 1] == text[..i] + [text[i]];
    AbsorbConcat(h, text[..i], [text[i]]);
    assert [text[i]][1..] == "";
    assert Absorb(AbsorbChar(Absorb(h, text[..i]), text[i]), "") == AbsorbChar(Absorb(h, text[..i]), text[i]);
  }

  /** No line is too long and no two blank lines follow each other. */
  predicate Tidy(h: History) {
    && (forall i | 0 <= i < |h.lines| :: |h.lines[i]| <= LINE_CHARS)
    && (forall i | 0 <= i < |h.lines| - 1 :: h.lines[i] != "" || h.lines[i + 1] != "")
    && |h.partial| <= LINE_CHARS
  }

  lemma {:induction false} AbsorbTidy(h: History, text: string)
    requires Tidy(h)
    ensures Tidy(Absorb(h, text)) && h.lines <= Absorb(h, text).lines
    decreases |text|
  {
    if text != "" {
      AbsorbTidy(AbsorbChar(h, text[0]), text[1..]);
    }
  }

  /** The last lines of the history. */
  function TailOf(lines: seq<string>): (tail: seq<string>)
    ensures |tail| <= TAIL_LINES
  {
    if |lines| <= TAIL_LINES then lines else lines[|lines| - TAIL_LINES..]
  }

  lemma TailPush(lines: seq<string>, line: string)
    ensures TailOf(lines + [line]) == TailOf(TailOf(lines) + [line])
    ensures lines != [] <==> TailOf(lines) != []
    ensures lines != [] ==> TailOf(lines)[|TailOf(lines)| - 1] == lines[|lines| - 1]
  {
  }

  // ----- reading -----------------------------------------------------------------------

  /** What a stream has been turned into, and the bytes that wait for the rest of a character. */
  datatype Pump = Pump(history: History, pending: seq<Byte>)

  /** One read: what decodes is absorbed and an unfinished character waits, but input that
      can never decode is replaced at once, all of it. */
  function Read(p: Pump, bytes: seq<Byte>): Pump {
    var t := Taken(p.pending + bytes);
    Pump(Absorb(p.history, t.0), t.1)
  }

  function ReadAll(p: Pump, parts: seq<seq<Byte>>): Pump
    decreases |parts|
  {
    if parts == [] then p else ReadAll(Read(p, parts[0]), parts[1..])
  }

  /** At the end of the stream what is left is replaced. */
  function Close(p: Pump): History {
    if p.pending == [] then p.history else Absorb(p.history, Lossy(p.pending))
  }

  function Output(parts: seq<seq<Byte>>): History {
    Close(ReadAll(Pump(NO_OUTPUT, []), parts))
  }

  /** The output is that of the text the reads give. */
  lemma {:induction false} OutputOfText(p: Pump, parts: seq<seq<Byte>>)
    ensures Close(ReadAll(p, parts)) == Absorb(p.history, TextRead(p.pending, parts))
    decreases |parts|
  {
    hide Decode, Lossy, Taken;
    if parts == [] {
      NothingLossy();
    } else {
      var t := Taken(p.pending + parts[0]);
      OutputOfText(Read(p, parts[0]), parts[1..]);
      AbsorbConcat(p.history, t.0, TextRead(t.1, parts[1..]));
    }
  }

  /** For every stream in which only single bytes follow the first ill-formed unit, and so
      for every valid one, the reads make no difference: the same lines, the same partial
      line and the same count. */
  lemma PlainStreamOutput(parts: seq<seq<Byte>>)
    requires PlainAfterError(Joined(parts))
    ensures Output(parts) == Absorb(NO_OUTPUT, Lossy(Joined(parts)))
  {
    hide PlainAfterError, Lossy, TextRead, Absorb;
    OutputOfText(Pump(NO_OUTPUT, []), parts);
    assert [] + Joined(parts) == Joined(parts);
    PlainReads([], parts);
  }

  /** For every valid stream the output is that of its text. */
  lemma ValidStreamOutput(parts: seq<seq<Byte>>, text: string)
    requires Joined(parts) == Encode(text)
    ensures Output(parts) == Absorb(NO_OUTPUT, text)
  {
    hide Decode, Lossy, Absorb, PlainAfterError;
    DecodeEncoded(text);
    LossyWhole(Joined(parts));
    WholeIsPlain(Joined(parts));
    PlainStreamOutput(parts);
  }

  lemma {:induction false} ReadsTidy(p: Pump, parts: seq<seq<Byte>>)
    requires Tidy(p.history)
    ensures Tidy(Close(ReadAll(p, parts)))
    decreases |parts|
  {
    hide Tidy, Decode, Lossy;
    if parts == [] {
      AbsorbTidy(p.history, Lossy(p.pending));
    } else {
      var all := p.pending + parts[0];
      AbsorbTidy(p.history, Lossy(all));
      AbsorbTidy(p.history, Decode(all).text);
      ReadsTidy(Read(p, parts[0]), parts[1..]);
    }
  }

  /** Lines stay within their limit and blank lines apart, for every stream, valid or not. */
  lemma OutputTidy(parts: seq<seq<Byte>>)
    ensures Tidy(Output(parts))
  {
    assert Tidy(NO_OUTPUT);
    ReadsTidy(Pump(NO_OUTPUT, []), parts);
  }

  /** A stream with a longer unit behind an error, whose output differs with the reads:
      a character that is cut there is lost. */
  lemma StrayByteOutput()
    ensures !PlainAfterError([0xFF, 0xC3, 0xA9]) && Joined([[0xFF, 0xC3], [0xA9]]) == Joined([[0xFF, 0xC3, 0xA9]])
    ensures Output([[0xFF, 0xC3], [0xA9]]).partial == [REPLACEMENT, REPLACEMENT, REPLACEMENT]
    ensures Output([[0xFF, 0xC3, 0xA9]]).partial == [REPLACEMENT, '\U{E9}']
  {
    hide Lossy, Absorb, TextRead, PlainAfterError, Decode;
    var a: seq<Byte>, b: seq<Byte>, whole: seq<Byte> := [0xFF, 0xC3], [0xA9], [0xFF, 0xC3, 0xA9];
    JoinedTwo(a, b);
    JoinedTwo(whole, []);
    assert a + b == whole && whole[..2] == a && whole[2..] == b;
    StrayByte();
    OutputOfText(Pump(NO_OUTPUT, []), [a, b]);
    OutputOfText(Pump(NO_OUTPUT, []), [whole]);
    TwoReadsLonger(whole, 2);
    OneReadIsLossy(whole);
    AbsorbPlain(NO_OUTPUT, [REPLACEMENT, REPLACEMENT, REPLACEMENT]);
    AbsorbPlain(NO_OUTPUT, [REPLACEMENT, '\U{E9}']);
    assert [REPLACEMENT, REPLACEMENT] + [REPLACEMENT] == [REPLACEMENT, REPLACEMENT, REPLACEMENT];
    assert "" + [REPLACEMENT, REPLACEMENT, REPLACEMENT] == [REPLACEMENT, REPLACEMENT, REPLACEMENT];
    assert "" + [REPLACEMENT, '\U{E9}'] == [REPLACEMENT, '\U{E9}'];
  }

  lemma StrayByte()
    ensures Decode([0xFF, 0xC3]).status == Broken && Lossy([0xFF, 0xC3]) == [REPLACEMENT, REPLACEMENT]
    ensures Lossy([0xA9]) == [REPLACEMENT]
    ensures Lossy([0xFF, 0xC3, 0xA9]) == [REPLACEMENT, '\U{E9}'] && !PlainAfterError([0xFF, 0xC3, 0xA9])
  {
    var a: seq<Byte>, b: seq<Byte>, whole: seq<Byte>, tail: seq<Byte> := [0xFF, 0xC3], [0xA9], [0xFF, 0xC3, 0xA9],
        [0xC3, 0xA9];
    LossyIll(a);
    assert a[1..] == [0xC3] && Lossy([0xC3]) == [REPLACEMENT];
    LossyIll(b);
    assert b[1..] == [] && Lossy([]) == "";
    LossyIll(whole);
    assert whole[1..] == tail && tail[2..] == [];
    assert DecodeFirst(tail) == Char('\U{E9}', 2);
    assert Lossy(tail) == ['\U{E9}'] + Lossy([]) == ['\U{E9}'];
    assert [REPLACEMENT] + Lossy(tail) == [REPLACEMENT, '\U{E9}'];
    assert UnitLength(tail) == 2 && !OneByteUnits(tail);
  }

  lemma LossyIll(bs: seq<Byte>)
    requires bs != [] && DecodeFirst(bs) == Ill(1)
    ensures Decode(bs).status == Broken && Lossy(bs) == [REPLACEMENT] + Lossy(bs[1..])
  {
  }

  lemma {:induction false} AbsorbPlain(h: History, text: string)
    requires '\n' !in text && '\r' !in text && |h.partial| + |text| <= LINE_CHARS
    ensures Absorb(h, text) == h.(partial := h.partial + text)
    decreases |text|
  {
    if text == "" {
      assert h.partial + text == h.partial;
    } else {
      AbsorbPlain(AbsorbChar(h, text[0]), text[1..]);
      ConcatAssociates(h.partial, [text[0]], text[1..]);
      assert [text[0]] + text[1..] == text;
    }
  }

  method DropOldest(lines: seq<string>) returns (kept: seq<string>)
    ensures kept == TailOf(lines)
  {
    kept := lines;
    while |kept| > TAIL_LINES
      invariant |kept| <= |lines| && kept == lines[|lines| - |kept|..] && TailOf(kept) == TailOf(lines)
      decreases |kept|
    {
      assert kept[1..] == lines[|lines| - |kept| + 1..];
      kept := kept[1..];
    }
  }

  // ----- the task that keeps the tail ---------------------------------------------------

  class BackgroundTask {
    var tail: seq<string>
    var partial: string
    var outputLines: nat
    ghost var history: History

    /** The tail is the last 400 lines of everything that was ever put out. */
    ghost predicate Valid()
      reads this
    {
      tail == TailOf(history.lines) && partial == history.partial && outputLines == |history.lines|
    }

    constructor ()
      ensures Valid() && history == NO_OUTPUT
    {
      tail, partial, outputLines, history := [], "", 0, NO_OUTPUT;
    }

    method FlushPartial()
      requires Valid()
      modifies this
      ensures Valid() && history == Flush(old(history))
    {
      TailPush(history.lines, partial);
      var line := partial;
      partial := "";
      if line == "" && tail != [] && tail[|tail| - 1] == "" {
        return;
      }
      history := History(history.lines + [line], "");
      outputLines := outputLines + 1;
      tail := DropOldest(tail + [line]);
    }

    method AbsorbText(text: string)
      requires Valid()
      modifies this
      ensures Valid() && history == Absorb(old(history), text)
    {
      for i := 0 to |text|
        invariant Valid() && history == Absorb(old(history), text[..i])
      {
        AbsorbNext(old(history), text, i);
        var c := text[i];
        if c == '\n' {
          FlushPartial();
        } else if c == '\r' {
          partial := "";
          history := history.(partial := "");
        } else if |partial| < LINE_CHARS {
          partial := partial + [c];
          history := history.(partial := partial);
        }
      }
      assert text[..|text|] == text;
    }

    /** Reads one stream to its end. */
    method PumpReads(parts: seq<seq<Byte>>)
      requires Valid() && history == NO_OUTPUT
      modifies this
      ensures Valid() && history == Output(parts)
    {
      hide Decode, Lossy, TailOf;
      var pending := [];
      ghost var start := Pump(NO_OUTPUT, []);
      assert parts[0..] == parts;
      for i := 0 to |parts|
        invariant Valid() && ReadAll(Pump(history, pending), parts[i..]) == ReadAll(start, parts)
      {
        assert parts[i..][0] == parts[i] && parts[i..][1..] == parts[i + 1..];
        var all := pending + parts[i];
        var d := Decode(all);
        if d.status == Broken {
          AbsorbText(Lossy(all));
          pending := [];
        } else {
          AbsorbText(d.text);
          pending := d.rest;
        }
      }
      assert parts[|parts|..] == [];
      if pending != [] {
        AbsorbText(Lossy(pending));
      }
    }
  }
}
