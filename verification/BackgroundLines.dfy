/** Which lines a background task shows, told from the whole text at once. */
module BackgroundLines {
  import opened Text
  import opened Utf8Stream
  import opened BackgroundOutput

  /** The text between its line feeds. */
  function Split(text: string): (pieces: seq<string>)
    decreases |text|
    ensures pieces != []
    ensures forall p | p in pieces :: '\n' !in p
  {
    match Find(text, "\n")
    case None =>
      assert forall k | 0 <= k < |text| :: text[k] == '\n' ==> OccursAt(text, "\n", k);
      [text]
    case Some(i) =>
      assert forall k | 0 <= k < i :: text[k] == '\n' ==> OccursAt(text, "\n", k);
      [text[..i]] + Split(text[i + 1..])
  }

  /** What remains of a line: what follows its last carriage return, up to 2000 characters. */
  function Remains(piece: string): string {
    var last := RFind(piece, "\r");
    var rest := if last.None? then piece else piece[last.value + 1..];
    if |rest| > 2000 then rest[..2000] else rest
  }

  /** Of several blank lines in a row the first is kept. */
  function Collapsed(lines: seq<string>): seq<string> {
    if lines == [] then []
    else
      var before, last := Collapsed(lines[..|lines| - 1]), lines[|lines| - 1];
      if last == "" && |lines| > 1 && lines[|lines| - 2] == "" then before else before + [last]
  }

  function AllRemains(pieces: seq<string>): seq<string> {
    seq(|pieces|, i requires 0 <= i < |pieces| => Remains(pieces[i]))
  }

  lemma ReturnAt(s: string)
    ensures forall k: nat :: OccursAt(s, "\r", k) <==> k < |s| && s[k] == '\r'
  {
    forall k: nat | k < |s| ensures OccursAt(s, "\r", k) <==> s[k] == '\r' {
      assert s[k..k + 1] == [s[k]];
    }
  }

  lemma RemainsNext(piece: string, c: char)
    ensures Remains(piece + [c]) ==
            if c == '\r' then "" else if |Remains(piece)| < 2000 then Remains(piece) + [c] else Remains(piece)
  {
    hide OccursAt, RFind;
    var next, last := piece + [c], RFind(piece, "\r");
    ReturnAt(next);
    ReturnAt(piece);
    if c == '\r' {
      RFindIs(next, "\r", |piece|);
    } else if last.Some? {
      RFindIs(next, "\r", last.value);
      assert next[last.value + 1..] == piece[last.value + 1..] + [c];
    } else {
      assert RFind(next, "\r").None?;
    }
  }

  lemma {:induction false} AbsorbPiece(h: History, piece: string)
    requires '\n' !in piece && h.partial == ""
    ensures Absorb(h, piece) == h.(partial := Remains(piece))
  {
    hide Remains;
    if piece == "" {
      assert Remains("") == "" by { NothingRemains(); }
    } else {
      var n := |piece| - 1;
      assert piece[n] in piece && forall c | c in piece[..n] :: c in piece;
      AbsorbPiece(h, piece[..n]);
      assert piece[..n + 1] == piece && piece == piece[..n] + [piece[n]];
      AbsorbNext(h, piece, n);
      RemainsNext(piece[..n], piece[n]);
    }
  }

  lemma NothingRemains()
    ensures Remains("") == ""
  {
  }

  /** What a history that began with some lines goes on to. */
  ghost predicate Goes(lines: seq<string>, h: History) {
    h.partial == "" && h.lines == Collapsed(lines) && (lines != [] ==> h.lines != []) &&
    (lines != [] ==> (h.lines[|h.lines| - 1] == "" <==> lines[|lines| - 1] == ""))
  }

  lemma FlushGoes(lines: seq<string>, h: History, line: string)
    requires Goes(lines, h.(partial := "")) && h.partial == line
    ensures Goes(lines + [line], Flush(h))
  {
    assert (lines + [line])[..|lines|] == lines;
  }

  lemma {:induction false} AbsorbGoes(lines: seq<string>, h: History, text: string)
    requires Goes(lines, h)
    ensures var pieces := Split(text);
            var done := lines + AllRemains(pieces[..|pieces| - 1]);
            Absorb(h, text) == History(Collapsed(done), Remains(pieces[|pieces| - 1]))
    decreases |text|
  {
    hide Remains, Collapsed, Split, Absorb, Flush, Goes;
    match Find(text, "\n")
    case None =>
      SplitNone(text);
      GoesMeans(lines, h);
      assert AllRemains([]) == [] && lines + [] == lines && [text][..0] == [];
      AbsorbPiece(h, text);
    case Some(i) =>
      var front, more := text[..i], text[i + 1..];
      var line, rest := Remains(front), Split(more);
      SplitSome(text, i);
      AbsorbConcat(h, front, "\n" + more);
      GoesMeans(lines, h);
      AbsorbPiece(h, front);
      var at := h.(partial := line);
      AbsorbFeed(at, more);
      assert at.(partial := "") == h;
      FlushGoes(lines, at, line);
      AbsorbGoes(lines + [line], Flush(at), more);
      var n := |rest| - 1;
      assert ([front] + rest)[..n + 1] == [front] + rest[..n];
      assert AllRemains([front] + rest[..n]) == [line] + AllRemains(rest[..n]);
      ConcatAssociates(lines, [line], AllRemains(rest[..n]));
  }

  lemma GoesMeans(lines: seq<string>, h: History)
    requires Goes(lines, h)
    ensures h.partial == "" && h.lines == Collapsed(lines)
  {
  }

  lemma SplitNone(text: string)
    requires Find(text, "\n").None?
    ensures Split(text) == [text] && '\n' !in text
  {
    assert text in Split(text);
  }

  lemma SplitSome(text: string, i: nat)
    requires Find(text, "\n") == Some(i)
    ensures i < |text| && Split(text) == [text[..i]] + Split(text[i + 1..]) && '\n' !in text[..i]
    ensures text == text[..i] + ("\n" + text[i + 1..])
  {
    hide Find;
    assert OccursAt(text, "\n", i);
    Around(text, i);
    NoneBefore(text, i);
  }

  lemma Around(text: string, i: nat)
    requires i < |text| && text[i..i + 1] == "\n"
    ensures text == text[..i] + ("\n" + text[i + 1..])
  {
    assert text[i..] == text[i..i + 1] + text[i + 1..];
    assert text == text[..i] + text[i..];
  }

  lemma NoneBefore(text: string, i: nat)
    requires i < |text| && forall k: nat | k < i :: !OccursAt(text, "\n", k)
    ensures '\n' !in text[..i]
  {
    forall k | 0 <= k < i ensures text[k] != '\n' {
      if text[k] == '\n' {
        assert text[k..k + 1] == "\n";
        assert OccursAt(text, "\n", k);
      }
    }
  }

  lemma AbsorbFeed(h: History, rest: string)
    ensures Absorb(h, "\n" + rest) == Absorb(Flush(h), rest)
  {
    assert ("\n" + rest)[0] == '\n' && ("\n" + rest)[1..] == rest;
  }

  /** The finished lines are the pieces before each line feed, as far as they remain, without
      repeated blank ones; the line that has begun is what remains of the last piece. */
  lemma LinesAre(text: string)
    ensures var pieces := Split(text);
            Absorb(NO_OUTPUT, text) ==
            History(Collapsed(AllRemains(pieces[..|pieces| - 1])), Remains(pieces[|pieces| - 1]))
  {
    hide Remains;
    AbsorbGoes([], NO_OUTPUT, text);
    var done := AllRemains(Split(text)[..|Split(text)| - 1]);
    assert [] + done == done;
  }

  /** The same for what is read, however the reads divide it, as long as only single bytes
      follow the first ill-formed unit. */
  lemma OutputLinesAre(parts: seq<seq<Byte>>)
    requires PlainAfterError(Joined(parts))
    ensures var pieces := Split(Lossy(Joined(parts)));
            Output(parts) == History(Collapsed(AllRemains(pieces[..|pieces| - 1])), Remains(pieces[|pieces| - 1]))
  {
    hide PlainAfterError, Lossy, Absorb, Remains;
    PlainStreamOutput(parts);
    LinesAre(Lossy(Joined(parts)));
  }
}
