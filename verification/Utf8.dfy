/** How many bytes characters take in UTF-8 (section 3 of RFC 3629). */
module Utf8 {

  function Width(c: char): (n: nat)
    ensures 1 <= n <= 4
  {
    var n := c as int;
    if n < 0x80 then 1 else if n < 0x800 then 2 else if n < 0x10000 then 3 else 4
  }

  function ByteLength(s: string): nat {
    if s == "" then 0 else Width(s[0]) + ByteLength(s[1..])
  }

  predicate Ascii(s: string) {
    forall i | 0 <= i < |s| :: s[i] as int < 0x80
  }

  lemma {:induction false} AsciiLength(s: string)
    ensures ByteLength(s) >= |s|
    ensures Ascii(s) <==> ByteLength(s) == |s|
  {
    if s != "" {
      AsciiLength(s[1..]);
      assert forall i | 0 < i < |s| :: s[i] == s[1..][i - 1];
    }
  }
}
