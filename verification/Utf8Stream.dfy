/** Decoding a byte stream as UTF-8 while it arrives (the table in section 4 of RFC 3629). */
module Utf8Stream {
  import opened Text

  type Byte = n: nat | n < 256

  const REPLACEMENT: char := '\U{FFFD}'

  /** How long the sequence is that `lead` begins; none for a byte that begins no sequence. */
  function SequenceLength(lead: Byte): (n: nat)
    ensures n <= 4
  {
    if lead < 0x80 then 1
    else if 0xC2 <= lead <= 0xDF then 2
    else if 0xE0 <= lead <= 0xEF then 3
    else if 0xF0 <= lead <= 0xF4 then 4
    else 0
  }

  predicate IsTail(b: Byte) {
    0x80 <= b <= 0xBF
  }

  /** The second byte of a sequence, which excludes overlong forms, surrogates and values that are too large. */
  predicate IsSecond(lead: Byte, b: Byte) {
    IsTail(b) &&
    (lead == 0xE0 ==> b >= 0xA0) && (lead == 0xED ==> b <= 0x9F) && (lead == 0xF0 ==> b >= 0x90) &&
        (lead == 0xF4 ==> b <= 0x8F)
  }

  function Six(b: Byte): (n: nat)
    requires IsTail(b)
    ensures n < 64
  {
    b - 0x80
  }

  /** The value with six more bits. */
  function Extend(high: nat, b: Byte): nat
    requires IsTail(b)
  {
    high * 64 + Six(b)
  }

  datatype First = Char(c: char, length: nat) | Incomplete | Ill(length: nat)

  /** The character at the start, or why there is none: the input ends too early, or its
      first `length` bytes cannot be part of any. */
  function DecodeFirst(bs: seq<Byte>): (f: First)
    requires bs != []
    ensures f.Char? ==> 1 <= f.length <= |bs| && f.length <= 4
    ensures f.Ill? ==> 1 <= f.length <= |bs|
  {
    var n := SequenceLength(bs[0]);
    if n == 0 then Ill(1)
    else if n == 1 then Char(bs[0] as char, 1)
    else if |bs| == 1 then Incomplete
    else if !IsSecond(bs[0], bs[1]) then Ill(1)
    else if n == 2 then Char(Extend(bs[0] - 0xC0, bs[1]) as char, 2)
    else if |bs| == 2 then Incomplete
    else if !IsTail(bs[2]) then Ill(2)
    else if n == 3 then Char(Extend(Extend(bs[0] - 0xE0, bs[1]), bs[2]) as char, 3)
    else if |bs| == 3 then Incomplete
    else if !IsTail(bs[3]) then Ill(3)
    else Char(Extend(Extend(Extend(bs[0] - 0xF0, bs[1]), bs[2]), bs[3]) as char, 4)
  }

  datatype Status = Whole | Partial | Broken

  /** The text that can be decoded, what follows it, and whether that may still be completed. */
  datatype Decoded = Decoded(text: string, rest: seq<Byte>, status: Status)

  function Decode(bs: seq<Byte>): Decoded
    decreases |bs|
  {
    if bs == [] then Decoded("", [], Whole)
    else
      match DecodeFirst(bs)
      case Char(c, n) =>
        var d := Decode(bs[n..]);
        Decoded([c] + d.text, d.rest, d.status)
      case Incomplete => Decoded("", bs, Partial)
      case Ill(_) => Decoded("", bs, Broken)
  }

  /** `String::from_utf8_lossy`: what cannot be decoded is replaced. */
  function Lossy(bs: seq<Byte>): string
    decreases |bs|
  {
    if bs == [] then ""
    else
      match DecodeFirst(bs)
      case Char(c, n) => [c] + Lossy(bs[n..])
      case Incomplete => [REPLACEMENT]
      case Ill(n) => [REPLACEMENT] + Lossy(bs[n..])
  }

  // ----- encoding -----------------------------------------------------------------

  function Low(n: nat): (b: Byte)
    ensures IsTail(b)
  {
    0x80 + n % 64
  }

  function EncodeChar(c: char): (bs: seq<Byte>)
    ensures 1 <= |bs| <= 4
  {
    var n := c as int;
    if n < 0x80 then [n]
    else if n < 0x800 then [0xC0 + n / 64, Low(n)]
    else if n < 0x10000 then [0xE0 + n / 64 / 64, Low(n / 64), Low(n)]
    else [0xF0 + n / 64 / 64 / 64, Low(n / 64 / 64), Low(n / 64), Low(n)]
  }

  function Encode(s: string): seq<Byte> {
    if s == "" then [] else EncodeChar(s[0]) + Encode(s[1..])
  }

  lemma ExtendLow(n: nat)
    ensures Extend(n / 64, Low(n)) == n
  {
  }

  lemma SplitExtend(high: nat, b: Byte)
    requires IsTail(b)
    ensures Extend(high, b) / 64 == high && Low(Extend(high, b)) == b
  {
  }

  lemma EncodedReads(c: char, rest: seq<Byte>)
    ensures DecodeFirst(EncodeChar(c) + rest) == Char(c, |EncodeChar(c)|)
  {
    hide Extend, Low;
    var n := c as int;
    ExtendLow(n);
    ExtendLow(n / 64);
    ExtendLow(n / 64 / 64);
    if n >= 0x80 {
      LowBits(n);
      LowBits(n / 64);
      LowBits(n / 64 / 64);
    }
  }

  lemma LowBits(n: nat)
    ensures Low(n) == 0x80 + n % 64 && n == n / 64 * 64 + n % 64
  {
  }

  /** Encoded text decodes to itself. */
  lemma {:induction false} DecodeEncoded(s: string)
    ensures Decode(Encode(s)) == Decoded(s, [], Whole)
  {
    hide EncodeChar, DecodeFirst;
    if s != "" {
      var rest := Encode(s[1..]);
      EncodedReads(s[0], rest);
      assert Encode(s)[|EncodeChar(s[0])|..] == rest;
      DecodeEncoded(s[1..]);
      assert s == [s[0]] + s[1..];
    }
  }

  lemma ReadsEncoded(bs: seq<Byte>)
    requires bs != [] && DecodeFirst(bs).Char?
    ensures var f := DecodeFirst(bs); EncodeChar(f.c) == bs[..f.length]
  {
    hide Extend, Low;
    var f := DecodeFirst(bs);
    if f.length >= 2 {
      var two := Extend(bs[0] - (if f.length == 2 then 0xC0 else if f.length == 3 then 0xE0 else 0xF0), bs[1]);
      SplitExtend(bs[0] - (if f.length == 2 then 0xC0 else if f.length == 3 then 0xE0 else 0xF0), bs[1]);
      ExtendValue(bs[0] - (if f.length == 2 then 0xC0 else if f.length == 3 then 0xE0 else 0xF0), bs[1]);
      if f.length >= 3 {
        var three := Extend(two, bs[2]);
        SplitExtend(two, bs[2]);
        ExtendValue(two, bs[2]);
        if f.length == 4 {
          SplitExtend(three, bs[3]);
          ExtendValue(three, bs[3]);
        }
      }
    }
  }

  lemma ExtendValue(high: nat, b: Byte)
    requires IsTail(b)
    ensures Extend(high, b) == high * 64 + (b - 0x80)
  {
  }

  /** What decodes is the encoding of the text it decodes to, up to the rest. */
  lemma {:induction false} DecodedIsEncoded(bs: seq<Byte>)
    ensures bs == Encode(Decode(bs).text) + Decode(bs).rest
    decreases |bs|
  {
    hide EncodeChar, DecodeFirst;
    if bs != [] {
      match DecodeFirst(bs)
      case Char(c, n) =>
        ReadsEncoded(bs);
        DecodedIsEncoded(bs[n..]);
        var d := Decode(bs[n..]);
        assert Decode(bs).text[1..] == d.text;
        ConcatAssociates(EncodeChar(c), Encode(d.text), d.rest);
      case _ =>
    }
  }

  /** Valid streams are exactly the encodings of texts. */
  lemma ValidIffEncoded(bs: seq<Byte>)
    ensures Decode(bs).status == Whole <==> exists s :: bs == Encode(s)
  {
    DecodedIsEncoded(bs);
    if Decode(bs).status == Whole {
      NothingLeft(bs);
      assert bs == Encode(Decode(bs).text);
    }
    if s :| bs == Encode(s) {
      DecodeEncoded(s);
    }
  }

  lemma {:induction false} NothingLeft(bs: seq<Byte>)
    ensures Decode(bs).status == Whole <==> Decode(bs).rest == []
    decreases |bs|
  {
    if bs != [] {
      match DecodeFirst(bs)
      case Char(c, n) => NothingLeft(bs[n..]);
      case _ =>
    }
  }

  // ----- more input ------------------------------------------------------------------

  lemma FirstStays(bs: seq<Byte>, more: seq<Byte>)
    requires bs != []
    ensures !DecodeFirst(bs).Incomplete? ==> DecodeFirst(bs + more) == DecodeFirst(bs)
  {
  }

  /** More input is decoded from where decoding stopped, unless it had failed. */
  lemma {:induction false} DecodeMore(bs: seq<Byte>, more: seq<Byte>)
    ensures var d, e := Decode(bs), Decode(bs + more);
            if d.status == Broken then e.status == Broken
            else
              var f := Decode(d.rest + more);
              e == Decoded(d.text + f.text, f.rest, f.status)
    decreases |bs|
  {
    if bs == [] {
      assert [] + more == more;
      assert "" + Decode(more).text == Decode(more).text;
    } else {
      FirstStays(bs, more);
      match DecodeFirst(bs)
      case Char(c, n) =>
        assert (bs + more)[n..] == bs[n..] + more;
        DecodeMore(bs[n..], more);
        var d := Decode(bs[n..]);
        ConcatAssociates([c], d.text, Decode(d.rest + more).text);
      case Incomplete => assert "" + Decode(bs + more).text == Decode(bs + more).text;
      case Ill(_) =>
    }
  }

  lemma {:induction false} LossyWhole(bs: seq<Byte>)
    requires Decode(bs).status == Whole
    ensures Lossy(bs) == Decode(bs).text
    decreases |bs|
  {
    if bs != [] {
      LossyWhole(bs[DecodeFirst(bs).length..]);
    }
  }

  // ----- what cannot be decoded -------------------------------------------------------------

  /** The bytes are the beginning of a character, or all of it. */
  ghost predicate Begins(bs: seq<Byte>) {
    exists c :: bs <= EncodeChar(c)
  }

  lemma FirstOfCut(bs: seq<Byte>, k: nat)
    requires bs != [] && 0 < k <= |bs| && DecodeFirst(bs).Ill?
    ensures DecodeFirst(bs).length < k ==> DecodeFirst(bs[..k]) == DecodeFirst(bs)
    ensures k == DecodeFirst(bs).length && k > 1 ==> DecodeFirst(bs[..k]) == Incomplete
    ensures k == DecodeFirst(bs).length == |bs| ==> DecodeFirst(bs[..k]) == DecodeFirst(bs) && k == 1
  {
  }

  /** An unfinished character, finished in one possible way. */
  function Finished(bs: seq<Byte>): (full: seq<Byte>)
    requires bs != [] && DecodeFirst(bs) == Incomplete
    ensures bs < full
  {
    var n := SequenceLength(bs[0]);
    var two := if |bs| > 1 then bs else bs + [if bs[0] == 0xE0 then 0xA0 else if bs[0] == 0xF0 then 0x90 else 0x80];
    if n == 2 then two
    else
      var three := if |two| > 2 then two else two + [0x80];
      if n == 3 then three else three + [0x80]
  }

  lemma IncompleteBegins(bs: seq<Byte>)
    requires bs != [] && DecodeFirst(bs) == Incomplete
    ensures exists c :: bs < EncodeChar(c)
  {
    hide EncodeChar, Extend;
    var full := Finished(bs);
    assert DecodeFirst(full).Char? && DecodeFirst(full).length == |full|;
    ReadsEncoded(full);
    assert full[..|full|] == full;
    assert bs < EncodeChar(DecodeFirst(full).c);
  }

  /** What cannot be the beginning of a character is told at once, and only that. */
  lemma BeginsReads(bs: seq<Byte>, c: char)
    requires bs != [] && bs <= EncodeChar(c)
    ensures !DecodeFirst(bs).Ill? && (bs < EncodeChar(c) ==> DecodeFirst(bs) == Incomplete)
  {
    hide EncodeChar, DecodeFirst;
    var full := EncodeChar(c);
    var more := full[|bs|..];
    assert full == bs + more && full + [] == full;
    EncodedReads(c, []);
    FirstStays(bs, more);
  }

  /** Decoding stops for more input exactly at an unfinished character; what is ill-formed is
      the longest beginning of a character there, or else a single byte. */
  lemma FirstMeans(bs: seq<Byte>)
    requires bs != []
    ensures DecodeFirst(bs) == Incomplete <==> exists c :: bs < EncodeChar(c)
    ensures DecodeFirst(bs).Char? ==> bs[..DecodeFirst(bs).length] == EncodeChar(DecodeFirst(bs).c)
    ensures DecodeFirst(bs).Ill? ==>
              var n := DecodeFirst(bs).length;
              && !Begins(bs) && (n > 1 ==> Begins(bs[..n]))
              && forall k | n < k <= |bs| :: !Begins(bs[..k])
  {
    hide EncodeChar, DecodeFirst;
    if c :| bs < EncodeChar(c) {
      BeginsReads(bs, c);
    }
    match DecodeFirst(bs) {
      case Char(c, n) => ReadsEncoded(bs);
      case Incomplete => IncompleteBegins(bs);
      case Ill(n) =>
        forall k | n < k <= |bs| || k == |bs| ensures !Begins(bs[..k]) {
          FirstOfCut(bs, k);
          if c :| bs[..k] <= EncodeChar(c) {
            BeginsReads(bs[..k], c);
          }
        }
        assert bs[..|bs|] == bs;
        if n > 1 {
          FirstOfCut(bs, n);
          IncompleteBegins(bs[..n]);
        }
    }
  }

  // ----- what the reads can change --------------------------------------------------------

  /** How many bytes the first unit of the lossy decoding takes. */
  function UnitLength(bs: seq<Byte>): (n: nat)
    requires bs != []
    ensures 1 <= n <= |bs|
  {
    match DecodeFirst(bs)
    case Char(_, n) => n
    case Incomplete => |bs|
    case Ill(n) => n
  }

  /** Every unit of the lossy decoding is one byte long. */
  predicate OneByteUnits(bs: seq<Byte>)
    decreases |bs|
  {
    bs == [] || (UnitLength(bs) == 1 && OneByteUnits(bs[1..]))
  }

  /** After the first ill-formed unit, if there is one, every unit is one byte long. */
  predicate PlainAfterError(bs: seq<Byte>)
    decreases |bs|
  {
    bs == [] ||
    match DecodeFirst(bs)
    case Char(_, n) => PlainAfterError(bs[n..])
    case Incomplete => true
    case Ill(n) => OneByteUnits(bs[n..])
  }

  /** What one read turns into text, and the bytes that wait for the rest of a character. */
  function Taken(all: seq<Byte>): (string, seq<Byte>) {
    var d := Decode(all);
    if d.status == Broken then (Lossy(all), []) else (d.text, d.rest)
  }

  /** All the text that reads and the end of the stream give, when `pending` was left over before. */
  function TextRead(pending: seq<Byte>, parts: seq<seq<Byte>>): string
    decreases |parts|
  {
    if parts == [] then Lossy(pending)
    else
      var t := Taken(pending + parts[0]);
      t.0 + TextRead(t.1, parts[1..])
  }

  /** What is left after decoding goes on as if nothing had been taken. */
  lemma {:induction false} LossyMore(bs: seq<Byte>, more: seq<Byte>)
    requires Decode(bs).status != Broken
    ensures var d := Decode(bs);
            && Lossy(bs + more) == d.text + Lossy(d.rest + more)
            && (PlainAfterError(bs + more) <==> PlainAfterError(d.rest + more))
            && (OneByteUnits(bs + more) ==> OneByteUnits(d.rest + more))
    decreases |bs|
  {
    if bs == [] {
      assert [] + more == more && "" + Lossy(more) == Lossy(more);
    } else {
      FirstStays(bs, more);
      match DecodeFirst(bs)
      case Char(c, n) =>
        assert (bs + more)[n..] == bs[n..] + more;
        LossyMore(bs[n..], more);
        var d := Decode(bs[n..]);
        ConcatAssociates([c], d.text, Lossy(d.rest + more));
      case Incomplete => assert "" + Lossy(bs + more) == Lossy(bs + more);
    }
  }

  lemma UnitOfOne(bs: seq<Byte>, more: seq<Byte>)
    requires bs != [] && UnitLength(bs + more) == 1
    ensures UnitLength(bs) == 1
    ensures DecodeFirst(bs).Char? || DecodeFirst(bs + more).Char? ==> DecodeFirst(bs) == DecodeFirst(bs + more)
  {
    assert (bs + more)[0] == bs[0];
    if |bs| > 1 {
      assert (bs + more)[1] == bs[1];
    }
  }

  /** Units of one byte may be cut anywhere. */
  lemma {:induction false} OneByteSplit(bs: seq<Byte>, more: seq<Byte>)
    requires OneByteUnits(bs + more)
    ensures OneByteUnits(bs) && OneByteUnits(more) && Lossy(bs + more) == Lossy(bs) + Lossy(more)
    decreases |bs|
  {
    if bs == [] {
      assert [] + more == more && "" + Lossy(more) == Lossy(more);
    } else {
      UnitOfOne(bs, more);
      assert (bs + more)[1..] == bs[1..] + more;
      OneByteSplit(bs[1..], more);
      FirstOfOne(bs);
      FirstOfOne(bs + more);
      var c := OneByteText(bs);
      assert c == OneByteText(bs + more);
      ConcatAssociates([c], Lossy(bs[1..]), Lossy(more));
    }
  }

  /** The character a unit of one byte becomes. */
  function OneByteText(bs: seq<Byte>): char
    requires bs != []
  {
    if DecodeFirst(bs).Char? then DecodeFirst(bs).c else REPLACEMENT
  }

  lemma FirstOfOne(bs: seq<Byte>)
    requires bs != [] && UnitLength(bs) == 1
    ensures Lossy(bs) == [OneByteText(bs)] + Lossy(bs[1..])
  {
  }

  /** A read that meets an error loses nothing as long as everything after it comes in single bytes. */
  lemma {:induction false} PlainSplit(bs: seq<Byte>, more: seq<Byte>)
    requires PlainAfterError(bs + more) && Decode(bs).status == Broken
    ensures OneByteUnits(more) && Lossy(bs + more) == Lossy(bs) + Lossy(more)
    decreases |bs|
  {
    hide DecodeFirst, OneByteUnits;
    FirstStays(bs, more);
    match DecodeFirst(bs)
    case Char(c, n) =>
      assert (bs + more)[n..] == bs[n..] + more;
      PlainSplit(bs[n..], more);
      ConcatAssociates([c], Lossy(bs[n..]), Lossy(more));
    case Ill(n) =>
      assert (bs + more)[n..] == bs[n..] + more;
      OneByteSplit(bs[n..], more);
      ConcatAssociates([REPLACEMENT], Lossy(bs[n..]), Lossy(more));
  }

  lemma {:induction false} OneByteReads(pending: seq<Byte>, parts: seq<seq<Byte>>)
    requires OneByteUnits(pending + Joined(parts))
    ensures TextRead(pending, parts) == Lossy(pending + Joined(parts))
    decreases |parts|
  {
    hide Decode, Lossy, OneByteUnits, PlainAfterError;
    if parts == [] {
      assert pending + [] == pending;
    } else {
      var all, rest := pending + parts[0], Joined(parts[1..]);
      ConcatAssociates(pending, parts[0], rest);
      if Decode(all).status == Broken {
        OneByteSplit(all, rest);
        assert [] + rest == rest;
        OneByteReads([], parts[1..]);
      } else {
        LossyMore(all, rest);
        OneByteReads(Decode(all).rest, parts[1..]);
      }
    }
  }

  lemma {:induction false} PlainReads(pending: seq<Byte>, parts: seq<seq<Byte>>)
    requires PlainAfterError(pending + Joined(parts))
    ensures TextRead(pending, parts) == Lossy(pending + Joined(parts))
    decreases |parts|
  {
    hide Decode, Lossy, OneByteUnits, PlainAfterError;
    if parts == [] {
      assert pending + [] == pending;
    } else {
      var all, rest := pending + parts[0], Joined(parts[1..]);
      ConcatAssociates(pending, parts[0], rest);
      if Decode(all).status == Broken {
        PlainSplit(all, rest);
        assert [] + rest == rest;
        OneByteReads([], parts[1..]);
      } else {
        LossyMore(all, rest);
        PlainReads(Decode(all).rest, parts[1..]);
      }
    }
  }

  /** One read of everything gives the lossy decoding, whatever the bytes. */
  lemma OneReadIsLossy(bs: seq<Byte>)
    ensures TextRead([], [bs]) == Lossy(bs)
  {
    hide Decode, Lossy;
    assert [] + bs == bs && [bs][1..] == [];
    assert TextRead(Taken(bs).1, []) == Lossy(Taken(bs).1);
    if Decode(bs).status == Broken {
      NothingLossy();
    } else {
      LossyMore(bs, []);
      assert bs + [] == bs && Decode(bs).rest + [] == Decode(bs).rest;
    }
  }

  lemma NothingLossy()
    ensures Lossy([]) == ""
  {
  }

  lemma {:induction false} WholeIsPlain(bs: seq<Byte>)
    requires Decode(bs).status == Whole
    ensures PlainAfterError(bs)
    decreases |bs|
  {
    if bs != [] {
      WholeIsPlain(bs[DecodeFirst(bs).length..]);
    }
  }

  // ----- where a read can be cut so that it shows ---------------------------------------------

  lemma FirstOfPrefix(bs: seq<Byte>, k: nat)
    requires bs != [] && !DecodeFirst(bs).Incomplete? && UnitLength(bs) < k <= |bs|
    ensures DecodeFirst(bs[..k]) == DecodeFirst(bs)
  {
  }

  lemma {:induction false} TailsAreIll(tails: seq<Byte>, rest: seq<Byte>)
    requires forall b | b in tails :: IsTail(b)
    ensures |Lossy(tails + rest)| == |tails| + |Lossy(rest)|
    decreases |tails|
  {
    if tails == [] {
      assert tails + rest == rest;
    } else {
      var w := tails + rest;
      assert w[0] == tails[0] && tails[0] in tails && w[1..] == tails[1..] + rest;
      assert DecodeFirst(w) == Ill(1);
      TailsAreIll(tails[1..], rest);
    }
  }

  lemma UnitTails(bs: seq<Byte>)
    requires bs != [] && UnitLength(bs) > 1
    ensures forall b | b in bs[1..UnitLength(bs)] :: IsTail(b)
    ensures DecodeFirst(bs[..1]) == Incomplete
    ensures |Lossy(bs)| == 1 + |Lossy(bs[UnitLength(bs)..])|
  {
    var n := UnitLength(bs);
    assert n <= 4;
    assert forall i | 1 <= i < n :: IsTail(bs[i]);
  }

  /** The cut after the first byte of the first longer unit. */
  lemma {:induction false} CutShows(bs: seq<Byte>) returns (k: nat)
    requires !OneByteUnits(bs)
    ensures 1 <= k < |bs| && |Lossy(bs[..k])| + |Lossy(bs[k..])| > |Lossy(bs)|
    decreases |bs|
  {
    var n := UnitLength(bs);
    if n > 1 {
      k := 1;
      UnitTails(bs);
      var tails := bs[1..n];
      assert bs[1..] == tails + bs[n..];
      TailsAreIll(tails, bs[n..]);
      assert |Lossy(bs[..1])| == 1;
    } else {
      var j := CutShows(bs[1..]);
      k := j + 1;
      assert !DecodeFirst(bs).Incomplete?;
      FirstOfPrefix(bs, k);
      assert bs[..k][1..] == bs[1..][..j] && bs[k..] == bs[1..][j..];
      FirstOfOne(bs);
      FirstOfOne(bs[..k]);
    }
  }

  /** The same behind the first error, which the first part then contains. */
  lemma {:induction false} CutBehindError(bs: seq<Byte>) returns (k: nat)
    requires !PlainAfterError(bs)
    ensures 1 <= k < |bs| && Decode(bs[..k]).status == Broken
    ensures |Lossy(bs[..k])| + |Lossy(bs[k..])| > |Lossy(bs)|
    decreases |bs|
  {
    match DecodeFirst(bs)
    case Char(c, n) =>
      var j := CutBehindError(bs[n..]);
      k := j + n;
      FirstOfPrefix(bs, k);
      assert bs[..k][n..] == bs[n..][..j] && bs[k..] == bs[n..][j..];
    case Ill(n) =>
      var j := CutShows(bs[n..]);
      k := j + n;
      FirstOfPrefix(bs, k);
      assert bs[..k][n..] == bs[n..][..j] && bs[k..] == bs[n..][j..];
  }

  /** However the reads divide the stream, they give the same text. */
  ghost predicate ReadIndependent(bs: seq<Byte>) {
    forall parts: seq<seq<Byte>>, others: seq<seq<Byte>> | Joined(parts) == bs && Joined(others) == bs ::
      TextRead([], parts) == TextRead([], others)
  }

  lemma TwoReadsLonger(bs: seq<Byte>, k: nat)
    requires k <= |bs| && Decode(bs[..k]).status == Broken
    ensures TextRead([], [bs[..k], bs[k..]]) == Lossy(bs[..k]) + Lossy(bs[k..])
  {
    hide Decode, Lossy;
    var a, b := bs[..k], bs[k..];
    assert [] + a == a && [a, b][1..] == [b];
    OneReadIsLossy(b);
  }

  /** The text does not depend on the reads if and only if every unit behind the first
      ill-formed one is a single byte. */
  lemma ReadIndependentIffPlain(bs: seq<Byte>)
    ensures ReadIndependent(bs) <==> PlainAfterError(bs)
  {
    hide Decode, Lossy, TextRead, Joined, PlainAfterError;
    if PlainAfterError(bs) {
      forall parts: seq<seq<Byte>>, others: seq<seq<Byte>> | Joined(parts) == bs && Joined(others) == bs
        ensures TextRead([], parts) == TextRead([], others)
      {
        assert [] + bs == bs;
        PlainReads([], parts);
        PlainReads([], others);
      }
    } else {
      var k := CutBehindError(bs);
      TwoReadsLonger(bs, k);
      OneReadIsLossy(bs);
      JoinedTwo(bs[..k], bs[k..]);
      JoinedTwo(bs, []);
      assert bs[..k] + bs[k..] == bs;
      assert |TextRead([], [bs[..k], bs[k..]])| > |TextRead([], [bs])|;
    }
  }
}
