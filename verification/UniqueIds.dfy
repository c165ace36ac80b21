/** Giving every call of a batch an identifier of its own. */
module UniqueIds {
  import opened Decimals
  import opened Messages

  function Suffixed(id: string, suffix: nat): string {
    id + "-" + Decimal(suffix)
  }

  lemma SuffixedInjective(id: string, m: nat, n: nat)
    requires Suffixed(id, m) == Suffixed(id, n)
    ensures m == n
  {
    assert (id + "-" + Decimal(m))[|id| + 1..] == Decimal(m);
    assert (id + "-" + Decimal(n))[|id| + 1..] == Decimal(n);
    DecimalInjective(m, n);
  }

  function Ids(calls: seq<ToolCall>): set<string> {
    set i | 0 <= i < |calls| :: calls[i].id
  }

  /** The identifier the call at `index` gets when those before it have the identifiers `seen`:
      its own if that is free, and else with the least free suffix from its position on. */
  ghost predicate Assigned(id: string, index: nat, seen: set<string>, given: string) {
    if id !in seen then given == id
    else
      exists suffix: nat :: index + 1 <= suffix && given == Suffixed(id, suffix) && given !in seen &&
        forall k | index + 1 <= k < suffix :: Suffixed(id, k) in seen
  }

  /** The least free suffix from `start` on. */
  function FreeFrom(id: string, start: nat, seen: set<string>): (suffix: nat)
    decreases |seen|
    ensures start <= suffix && Suffixed(id, suffix) !in seen
    ensures forall k | start <= k < suffix :: Suffixed(id, k) in seen
  {
    if Suffixed(id, start) !in seen then start
    else
      var suffix := FreeFrom(id, start + 1, seen - {Suffixed(id, start)});
      assert Suffixed(id, suffix) != Suffixed(id, start) by {
        if Suffixed(id, suffix) == Suffixed(id, start) {
          SuffixedInjective(id, suffix, start);
        }
      }
      suffix
  }

  lemma FreeFromNext(id: string, start: nat, seen: set<string>, suffix: nat)
    requires start <= suffix && Suffixed(id, suffix) !in seen
    requires forall k | start <= k < suffix :: Suffixed(id, k) in seen
    ensures FreeFrom(id, start, seen) == suffix
  {
    hide Suffixed;
    var found := FreeFrom(id, start, seen);
    assert found >= suffix && suffix >= found;
  }

  function UniqueId(id: string, index: nat, seen: set<string>): string {
    if id !in seen then id else Suffixed(id, FreeFrom(id, index + 1, seen))
  }

  /** The calls with identifiers of their own. */
  function Renamed(calls: seq<ToolCall>): (renamed: seq<ToolCall>)
    ensures |renamed| == |calls|
  {
    if calls == [] then []
    else
      var n := |calls| - 1;
      var before := Renamed(calls[..n]);
      before + [calls[n].(id := UniqueId(calls[n].id, n, Ids(before)))]
  }

  predicate DistinctIds(calls: seq<ToolCall>) {
    forall i, j | 0 <= i < j < |calls| :: calls[i].id != calls[j].id
  }

  /** Every identifier is used once, nothing else of a call changes, and a call keeps its
      identifier exactly when no call before it has come to use it. */
  lemma {:induction false} RenamedMeans(calls: seq<ToolCall>)
    ensures var r := Renamed(calls);
            && DistinctIds(r)
            && (forall i | 0 <= i < |calls| :: r[i] == calls[i].(id := r[i].id))
            && (forall i | 0 <= i < |calls| :: Assigned(calls[i].id, i, Ids(r[..i]), r[i].id))
            && (forall i | 0 <= i < |calls| :: r[i].id == calls[i].id <==> calls[i].id !in Ids(r[..i]))
  {
    hide Suffixed, Ids, Assigned, UniqueId;
    if calls != [] {
      var n := |calls| - 1;
      var before := Renamed(calls[..n]);
      RenamedMeans(calls[..n]);
      var last := calls[n].(id := UniqueId(calls[n].id, n, Ids(before)));
      Extended(before, last);
      UniqueIdIsAssigned(calls[n].id, n, Ids(before));
      assert Renamed(calls)[..n] == before;
    }
  }

  lemma UniqueIdIsAssigned(id: string, index: nat, seen: set<string>)
    ensures var given := UniqueId(id, index, seen);
            Assigned(id, index, seen, given) && given !in seen && (given == id <==> id !in seen)
  {
    hide Suffixed;
  }

  lemma {:induction false} DistinctStay(calls: seq<ToolCall>)
    requires DistinctIds(calls)
    ensures Renamed(calls) == calls
  {
    if calls != [] {
      var n := |calls| - 1;
      DistinctStay(calls[..n]);
      assert calls[..n] + [calls[n]] == calls;
    }
  }

  /** A batch stays as it is if and only if its identifiers are distinct already. */
  lemma UnchangedIffDistinct(calls: seq<ToolCall>)
    ensures Renamed(calls) == calls <==> DistinctIds(calls)
  {
    RenamedMeans(calls);
    if DistinctIds(calls) {
      DistinctStay(calls);
    }
  }

  method FreeSuffix(id: string, start: nat, seen: set<string>) returns (suffix: nat)
    ensures suffix == FreeFrom(id, start, seen)
    ensures start <= suffix && Suffixed(id, suffix) !in seen
    ensures forall k | start <= k < suffix :: Suffixed(id, k) in seen
  {
    hide Suffixed;
    suffix := start;
    while Suffixed(id, suffix) in seen
      invariant start <= suffix <= FreeFrom(id, start, seen)
      invariant forall k | start <= k < suffix :: Suffixed(id, k) in seen
      decreases FreeFrom(id, start, seen) - suffix
    {
      suffix := suffix + 1;
    }
    FreeFromNext(id, start, seen, suffix);
  }

  method WithUniqueIds(calls: seq<ToolCall>) returns (renamed: seq<ToolCall>)
    ensures renamed == Renamed(calls)
    ensures |renamed| == |calls|
    ensures forall i | 0 <= i < |calls| :: renamed[i] == calls[i].(id := renamed[i].id)
    ensures forall i, j | 0 <= i < j < |calls| :: renamed[i].id != renamed[j].id
    ensures forall i | 0 <= i < |calls| :: Assigned(calls[i].id, i, Ids(renamed[..i]), renamed[i].id)
    ensures forall i | 0 <= i < |calls| :: renamed[i].id == calls[i].id <==> calls[i].id !in Ids(renamed[..i])
  {
    hide Suffixed, FreeFrom;
    renamed := [];
    var seen := {};
    for index := 0 to |calls|
      invariant |renamed| == index && seen == Ids(renamed) && renamed == Renamed(calls[..index])
    {
      var call := calls[index];
      if call.id in seen {
        var suffix := FreeSuffix(call.id, index + 1, seen);
        call := call.(id := Suffixed(call.id, suffix));
      }
      assert calls[..index + 1][..index] == calls[..index];
      Extended(renamed, call);
      seen := seen + {call.id};
      renamed := renamed + [call];
    }
    assert calls[..|calls|] == calls;
    RenamedMeans(calls);
  }

  lemma Extended(renamed: seq<ToolCall>, call: ToolCall)
    ensures Ids(renamed + [call]) == Ids(renamed) + {call.id}
    ensures forall i | 0 <= i <= |renamed| :: (renamed + [call])[..i] == renamed[..i]
    ensures call.id !in Ids(renamed) ==> forall i | 0 <= i < |renamed| :: renamed[i].id != call.id
  {
    forall id ensures id in Ids(renamed + [call]) <==> id in Ids(renamed) + {call.id} {
      if id in Ids(renamed) {
        var i :| 0 <= i < |renamed| && renamed[i].id == id;
        assert (renamed + [call])[i].id == id;
      }
      assert (renamed + [call])[|renamed|] == call;
    }
  }

  /** The identifier a call gets is determined. */
  lemma AssignedOnce(id: string, index: nat, seen: set<string>, a: string, b: string)
    requires Assigned(id, index, seen, a) && Assigned(id, index, seen, b)
    ensures a == b
  {
    if id in seen {
      var m: nat :| index + 1 <= m && a == Suffixed(id, m) && a !in seen &&
          forall k | index + 1 <= k < m :: Suffixed(id, k) in seen;
      var n: nat :| index + 1 <= n && b == Suffixed(id, n) && b !in seen &&
          forall k | index + 1 <= k < n :: Suffixed(id, k) in seen;
      assert m >= n && n >= m;
    }
  }
}
