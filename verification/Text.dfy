/** String searching as the Rust standard library does it, and the facts about
    markers that every parser here relies on. Positions count characters. */
module Text {

  datatype Option<+T> = None | Some(value: T)

  datatype Result<+T> = Ok(value: T) | Err(error: string)

  lemma ConcatAssociates<T>(a: seq<T>, b: seq<T>, c: seq<T>)
    ensures (a + b) + c == a + (b + c)
  {
  }

  predicate OccursAt(s: string, m: string, i: nat) {
    i + |m| <= |s| && s[i..i + |m|] == m
  }

  predicate Contains(s: string, m: string) {
    Find(s, m).Some?
  }

  function FindFrom(s: string, m: string, i: nat): (r: Option<nat>)
    requires i <= |s|
    decreases |s| - i
    ensures r.Some? ==>
              i <= r.value && OccursAt(s, m, r.value) &&
              forall k: nat | i <= k < r.value :: !OccursAt(s, m, k)
    ensures r.None? ==> forall k: nat | i <= k :: !OccursAt(s, m, k)
  {
    if OccursAt(s, m, i) then Some(i)
    else if i == |s| then None
    else FindFrom(s, m, i + 1)
  }

  /** `str::find`: the first occurrence. */
  function Find(s: string, m: string): (r: Option<nat>)
    ensures r.Some? ==> OccursAt(s, m, r.value) && forall k: nat | k < r.value :: !OccursAt(s, m, k)
    ensures r.None? ==> forall k: nat :: !OccursAt(s, m, k)
  {
    FindFrom(s, m, 0)
  }

  function RFindFrom(s: string, m: string, i: nat): (r: Option<nat>)
    requires i <= |s|
    ensures r.Some? ==>
              r.value <= i && OccursAt(s, m, r.value) &&
              forall k: nat | r.value < k <= i :: !OccursAt(s, m, k)
    ensures r.None? ==> forall k: nat | k <= i :: !OccursAt(s, m, k)
  {
    if OccursAt(s, m, i) then Some(i)
    else if i == 0 then None
    else RFindFrom(s, m, i - 1)
  }

  /** `str::rfind`: the last occurrence. */
  function RFind(s: string, m: string): (r: Option<nat>)
    ensures r.Some? ==> OccursAt(s, m, r.value) && forall k: nat | r.value < k :: !OccursAt(s, m, k)
    ensures r.None? ==> forall k: nat :: !OccursAt(s, m, k)
  {
    RFindFrom(s, m, |s|)
  }

  /** A marker opens with `<` and has no other `<`. */
  predicate IsMarker(m: string) {
    |m| >= 2 && m[0] == '<' && forall i | 1 <= i < |m| :: m[i] != '<'
  }

  type Marker = m: string | IsMarker(m) witness "<>"

  /** No marker is a proper prefix of another, so at most one starts at a position. */
  ghost predicate PrefixFree(ms: seq<Marker>) {
    forall m, n | m in ms && n in ms && m <= n :: m == n
  }

  lemma OccursChar(s: string, m: string, i: nat, j: nat)
    requires OccursAt(s, m, i) && j < |m|
    ensures s[i + j] == m[j]
  {
    assert s[i..i + |m|][j] == s[i + j];
  }

  /** Occurrences never overlap: one that starts before a `<` ends before it. */
  lemma NoOverlap(s: string, m: string, i: nat, p: nat)
    requires IsMarker(m) && OccursAt(s, m, i) && i < p < |s| && s[p] == '<'
    ensures i + |m| <= p
  {
    if p < i + |m| {
      OccursChar(s, m, i, p - i);
    }
  }

  /** Occurrences inside a prefix are those of the longer text that end in time. */
  lemma OccursInPrefix(s: string, t: string, m: string, i: nat)
    ensures OccursAt(s, m, i) ==> OccursAt(s + t, m, i)
    ensures OccursAt(s + t, m, i) && i + |m| <= |s| ==> OccursAt(s, m, i)
  {
    if i + |m| <= |s| {
      assert (s + t)[i..i + |m|] == s[i..i + |m|];
    }
  }

  lemma OccursInSuffix(s: string, t: string, m: string, i: nat)
    ensures OccursAt(s + t, m, |s| + i) <==> OccursAt(t, m, i)
  {
    if i + |m| <= |t| {
      assert (s + t)[|s| + i..|s| + i + |m|] == t[i..i + |m|];
    }
  }

  lemma SamePosition(s: string, m: string, n: string, i: nat)
    requires OccursAt(s, m, i) && OccursAt(s, n, i) && |m| <= |n|
    ensures m <= n
  {
    assert s[i..i + |n|][..|m|] == s[i..i + |m|];
  }

  lemma FindIs(s: string, m: string, i: nat)
    requires OccursAt(s, m, i) && forall k: nat | k < i :: !OccursAt(s, m, k)
    ensures Find(s, m) == Some(i)
  {
  }

  lemma RFindIs(s: string, m: string, i: nat)
    requires OccursAt(s, m, i) && forall k: nat | i < k :: !OccursAt(s, m, k)
    ensures RFind(s, m) == Some(i)
  {
  }

  // ----- parts ------------------------------------------------------------------------

  function Joined<T>(parts: seq<seq<T>>): seq<T> {
    if parts == [] then [] else parts[0] + Joined(parts[1..])
  }

  lemma JoinedTwo<T>(a: seq<T>, b: seq<T>)
    ensures Joined([a, b]) == a + b && Joined([a]) == a
  {
    assert [a, b][1..] == [b] && [b][1..] == [] && [a][1..] == [];
    assert Joined([b]) == b + [] == b && Joined([a]) == a + [] == a;
  }
}
