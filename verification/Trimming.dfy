/** `str::trim` of the Rust standard library. */
module Trimming {

  /** The Unicode property White_Space. */
  predicate IsWhitespace(c: char) {
    var n := c as int;
    0x09 <= n <= 0x0D || n == 0x20 || n == 0x85 || n == 0xA0 || n == 0x1680 || 0x2000 <= n <= 0x200A ||
    n == 0x2028 || n == 0x2029 || n == 0x202F || n == 0x205F || n == 0x3000
  }

  function TrimStart(s: string): (r: string)
    ensures |r| <= |s|
  {
    if s != "" && IsWhitespace(s[0]) then TrimStart(s[1..]) else s
  }

  function TrimEnd(s: string): (r: string)
    ensures |r| <= |s|
  {
    if s != "" && IsWhitespace(s[|s| - 1]) then TrimEnd(s[..|s| - 1]) else s
  }

  function Trim(s: string): (r: string)
    ensures |r| <= |s|
  {
    TrimEnd(TrimStart(s))
  }

  lemma {:induction false} TrimStartIsSuffix(s: string)
    ensures var r := TrimStart(s); r == s[|s| - |r|..] && (r != "" ==> !IsWhitespace(r[0]))
  {
    if s != "" && IsWhitespace(s[0]) {
      TrimStartIsSuffix(s[1..]);
    }
  }

  lemma {:induction false} TrimEndIsPrefix(s: string)
    ensures var r := TrimEnd(s); r == s[..|r|] && (r != "" ==> !IsWhitespace(r[|r| - 1]))
  {
    if s != "" && IsWhitespace(s[|s| - 1]) {
      TrimEndIsPrefix(s[..|s| - 1]);
    }
  }

  /** What is left is inside `s` and has no white space at either end. */
  lemma TrimMeans(s: string)
    ensures var r := Trim(s); r != "" ==> !IsWhitespace(r[0]) && !IsWhitespace(r[|r| - 1])
    ensures exists i, j | 0 <= i <= j <= |s| :: Trim(s) == s[i..j]
  {
    TrimStartIsSuffix(s);
    var rest := TrimStart(s);
    TrimEndIsPrefix(rest);
    var i := |s| - |rest|;
    assert Trim(s) == s[i..i + |Trim(s)|];
  }

  /** Nothing is left of it when it is trimmed, as `BlankIffTrimmedAway` shows. */
  predicate Blank(s: string) {
    forall i | 0 <= i < |s| :: IsWhitespace(s[i])
  }

  lemma BlankIffTrimmedAway(s: string)
    ensures Blank(s) <==> Trim(s) == ""
  {
    TrimStartDrops(s);
    TrimStartIsSuffix(s);
    var rest := TrimStart(s);
    assert rest != "" ==> TrimEnd(rest) != "" by {
      if rest != "" {
        TrimEndKeeps(rest);
      }
    }
  }

  lemma {:induction false} TrimStartDrops(s: string)
    ensures Blank(s) <==> TrimStart(s) == ""
  {
    if s != "" && IsWhitespace(s[0]) {
      TrimStartDrops(s[1..]);
      assert forall i | 1 <= i < |s| :: s[i] == s[1..][i - 1];
    }
  }

  lemma {:induction false} TrimEndKeeps(s: string)
    requires s != "" && !IsWhitespace(s[0])
    ensures TrimEnd(s) != ""
  {
    if IsWhitespace(s[|s| - 1]) {
      TrimEndKeeps(s[..|s| - 1]);
    }
  }

  /** Text that neither starts nor ends with white space is left as it is. */
  lemma TrimmedIsKept(s: string)
    requires s != "" ==> !IsWhitespace(s[0]) && !IsWhitespace(s[|s| - 1])
    ensures Trim(s) == s
  {
  }
}
