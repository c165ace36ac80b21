/** The accounting ledger: every provider request is recorded once, an entry that was
    in flight may be settled in place, and the cached totals follow. */
module AccountingLedger {
  import opened Text
  import opened Trimming
  import opened Amounts
  import opened AccountingTotals

  datatype Ledger = Ledger(requests: seq<Request>, latestTurn: Option<string>, latestTotals: Totals, session: Totals)

  const EMPTY := Ledger([], None, NO_TOTALS, NO_TOTALS)

  /** What recording answers: whether the ledger changed, or why it refused. */
  datatype Answer = Answer(ledger: Ledger, result: Result<bool>)

  predicate Acceptable(r: Request) {
    !Blank(r.requestId) && !Blank(r.turnId) && !(r.inFlight && (r.completed || r.cost.Some?))
  }

  function Position(requests: seq<Request>, id: string): (r: Option<nat>)
    ensures r.Some? ==>
              r.value < |requests| && requests[r.value].requestId == id &&
              forall k | 0 <= k < r.value :: requests[k].requestId != id
    ensures r.None? ==> forall k | 0 <= k < |requests| :: requests[k].requestId != id
  {
    if requests == [] then None
    else if requests[0].requestId == id then Some(0)
    else
      match Position(requests[1..], id)
      case Some(k) =>
        assert forall j | 1 <= j < |requests| :: requests[j] == requests[1..][j - 1];
        Some(k + 1)
      case None =>
        assert forall j | 1 <= j < |requests| :: requests[j] == requests[1..][j - 1];
        None
  }

  /** An entry in flight may be replaced by its settled form, and by nothing else. */
  predicate Settles(existing: Request, r: Request) {
    existing.inFlight && !r.inFlight && existing.turnId == r.turnId && existing.connectionId == r.connectionId &&
        existing.model == r.model
  }

  /** A new entry; a new turn starts its totals afresh unless the latest turn is to be preserved. */
  function Append(l: Ledger, r: Request, preserving: bool): Ledger {
    var latest :=
      if l.latestTurn == Some(r.turnId) then (l.latestTurn, l.latestTotals.Record(r))
      else if preserving then (l.latestTurn, l.latestTotals)
      else (Some(r.turnId), NO_TOTALS.Record(r));
    Ledger(l.requests + [r], latest.0, latest.1, l.session.Record(r))
  }

  function Record(l: Ledger, r: Request, preserving: bool): (a: Answer)
    decreases |l.requests|, 2, 0
    ensures |a.ledger.requests| <= |l.requests| + 1
  {
    if !Acceptable(r) then Answer(l, Err("not acceptable"))
    else
      match Position(l.requests, r.requestId)
      case Some(k) =>
        if l.requests[k] == r then Answer(l, Ok(false))
        else if Settles(l.requests[k], r) then
          var a := Rebuild(l.(requests := l.requests[k := r]));
          Answer(a.ledger, if a.result.Ok? then Ok(true) else a.result)
        else Answer(l, Err("reused with different data"))
      case None => Answer(Append(l, r, preserving), Ok(true))
  }

  /** Recording entries into a new ledger, up to the first refusal. */
  function Replay(l: Ledger, entries: seq<Request>): (a: Answer)
    decreases |l.requests| + |entries|, 0, |entries|
    ensures |a.ledger.requests| <= |l.requests| + |entries|
  {
    if entries == [] then Answer(l, Ok(true))
    else
      var a := Record(l, entries[0], false);
      if a.result.Err? then a else Replay(a.ledger, entries[1..])
  }

  predicate HasTurn(requests: seq<Request>, turn: string) {
    exists r | r in requests :: r.turnId == turn
  }

  function OfTurn(requests: seq<Request>, turn: string): (s: seq<Request>)
    ensures |s| <= |requests|
    ensures forall r | r in s :: r in requests && r.turnId == turn
  {
    if requests == [] then []
    else if requests[0].turnId == turn then [requests[0]] + OfTurn(requests[1..], turn)
    else OfTurn(requests[1..], turn)
  }

  function TurnTotals(requests: seq<Request>, turn: string): Totals {
    TotalsOf(OfTurn(requests, turn))
  }

  /** The totals that follow from the entries; a refused entry leaves the ledger as it is. */
  function Rebuild(l: Ledger): (a: Answer)
    decreases |l.requests|, 1, 0
    ensures |a.ledger.requests| <= |l.requests|
  {
    var a := Replay(EMPTY, l.requests);
    if a.result.Err? then Answer(l, a.result)
    else if l.latestTurn.None? then a
    else if !HasTurn(a.ledger.requests, l.latestTurn.value) then Answer(l, Err("latest turn has no entry"))
    else
      var latest := TurnTotals(a.ledger.requests, l.latestTurn.value);
      Answer(a.ledger.(latestTurn := l.latestTurn, latestTotals := latest), Ok(true))
  }

  // ----- what every ledger keeps ------------------------------------------------------

  ghost predicate Distinct(requests: seq<Request>) {
    forall i, j | 0 <= i < j < |requests| :: requests[i].requestId != requests[j].requestId
  }

  ghost predicate AllAcceptable(requests: seq<Request>) {
    forall r | r in requests :: Acceptable(r)
  }

  /** Identifiers are unique, the session totals are those of the entries, and the
      latest turn has an entry. */
  ghost predicate Sound(l: Ledger) {
    && Distinct(l.requests) && AllAcceptable(l.requests)
    && l.session == TotalsOf(l.requests)
    && (l.latestTurn.Some? ==> HasTurn(l.requests, l.latestTurn.value))
    && (l.latestTurn.None? ==> l.latestTotals == NO_TOTALS)
  }

  /** The cached totals of the latest turn are those of its entries. */
  ghost predicate Current(l: Ledger) {
    l.latestTurn.Some? ==> l.latestTotals == TurnTotals(l.requests, l.latestTurn.value)
  }

  lemma AppendSound(l: Ledger, r: Request, preserving: bool)
    requires Sound(l) && Acceptable(r) && Position(l.requests, r.requestId).None?
    ensures Sound(Append(l, r, preserving))
  {
    hide TotalsOf, Totals.Record, Acceptable;
    SessionAppend(l.requests, r);
    var v := Append(l, r, preserving);
    assert forall x | x in l.requests :: x in v.requests;
    assert v.requests[|l.requests|] == r;
  }

  lemma SessionAppend(requests: seq<Request>, r: Request)
    ensures TotalsOf(requests + [r]) == TotalsOf(requests).Record(r)
  {
    FoldLast(NO_TOTALS, requests, r);
  }

  lemma EmptySound()
    ensures Sound(EMPTY) && Current(EMPTY)
  {
  }

  /** Entries that are all acceptable and distinct are replayed one by one. */
  lemma {:induction false} ReplayAppends(l: Ledger, entries: seq<Request>)
    requires Sound(l) && Distinct(l.requests + entries) && AllAcceptable(l.requests + entries)
    ensures var a := Replay(l, entries);
            a.result.Ok? && a.ledger.requests == l.requests + entries && Sound(a.ledger)
    decreases |entries|
  {
    hide Acceptable, Append, TotalsOf, Rebuild;
    if entries == [] {
      assert l.requests + entries == l.requests;
    } else {
      var r := entries[0];
      assert (l.requests + entries)[|l.requests|] == r && r in l.requests + entries;
      assert Position(l.requests, r.requestId).None? by {
        forall k | 0 <= k < |l.requests| ensures l.requests[k].requestId != r.requestId {
          assert (l.requests + entries)[k] == l.requests[k];
        }
      }
      AppendSound(l, r, false);
      AppendEntries(l, r, false);
      assert l.requests + entries == (l.requests + [r]) + entries[1..];
      ReplayAppends(Append(l, r, false), entries[1..]);
    }
  }

  lemma AppendEntries(l: Ledger, r: Request, preserving: bool)
    ensures Append(l, r, preserving).requests == l.requests + [r]
  {
  }

  /** Rebuilding a sound ledger succeeds, keeps its entries and brings every total up to date. */
  lemma RebuildSucceeds(l: Ledger)
    requires Distinct(l.requests) && AllAcceptable(l.requests)
    requires l.latestTurn.Some? ==> HasTurn(l.requests, l.latestTurn.value)
    ensures var a := Rebuild(l);
            && a.result.Ok? && Sound(a.ledger) && a.ledger.requests == l.requests
            && (l.latestTurn.Some? ==> a.ledger.latestTurn == l.latestTurn && Current(a.ledger))
  {
    hide Acceptable, TotalsOf, Replay;
    EmptySound();
    assert EMPTY.requests + l.requests == l.requests;
    ReplayAppends(EMPTY, l.requests);
  }

  /** Settling an entry in place keeps identifiers and turns. */
  lemma SettleKeepsEntries(requests: seq<Request>, k: nat, r: Request)
    requires k < |requests| && Distinct(requests) && AllAcceptable(requests) && Acceptable(r)
    requires requests[k].requestId == r.requestId && requests[k].turnId == r.turnId
    ensures Distinct(requests[k := r]) && AllAcceptable(requests[k := r])
    ensures forall turn :: HasTurn(requests, turn) ==> HasTurn(requests[k := r], turn)
  {
    hide Acceptable;
    forall turn | HasTurn(requests, turn)
      ensures HasTurn(requests[k := r], turn)
    {
      var x :| x in requests && x.turnId == turn;
      var i :| 0 <= i < |requests| && requests[i] == x;
      assert requests[k := r][i] in requests[k := r];
      assert requests[k := r][i].turnId == turn;
    }
  }

  // ----- recording ---------------------------------------------------------------------

  /** What recording a request does to a sound ledger. */
  lemma RecordSound(l: Ledger, r: Request, preserving: bool)
    requires Sound(l)
    ensures var a := Record(l, r, preserving);
            && Sound(a.ledger)
            && (a.result.Err? ==> a.ledger == l)
            && (a.result.Ok? && !a.result.value ==> a.ledger == l && r in l.requests)
            && (a.result.Ok? && a.result.value ==>
                 match Position(l.requests, r.requestId)
                 case None => a.ledger == Append(l, r, preserving)
                 case Some(k) => Settles(l.requests[k], r) && a.ledger.requests == l.requests[k := r])
  {
    hide Acceptable, TotalsOf, Append, Rebuild, Sound;
    if Acceptable(r) {
      match Position(l.requests, r.requestId)
      case None => AppendSound(l, r, preserving);
      case Some(k) =>
        if l.requests[k] != r && Settles(l.requests[k], r) {
          SoundMeans(l);
          SettleKeepsEntries(l.requests, k, r);
          RebuildSucceeds(l.(requests := l.requests[k := r]));
        }
    }
  }

  lemma SoundMeans(l: Ledger)
    requires Sound(l)
    ensures Distinct(l.requests) && AllAcceptable(l.requests) &&
            (l.latestTurn.Some? ==> HasTurn(l.requests, l.latestTurn.value))
    ensures l.session == TotalsOf(l.requests)
  {
  }

  /** Settled entries never change and never move, and no entry is lost. */
  lemma EntriesStay(l: Ledger, r: Request, preserving: bool, i: nat)
    requires Sound(l) && i < |l.requests|
    ensures var v := Record(l, r, preserving).ledger.requests;
            && |l.requests| <= |v| <= |l.requests| + 1
            && v[i].requestId == l.requests[i].requestId && v[i].turnId == l.requests[i].turnId
            && (!l.requests[i].inFlight ==> v[i] == l.requests[i])
  {
    hide Sound, Record, TotalsOf;
    RecordSound(l, r, preserving);
    AppendEntries(l, r, preserving);
  }

  /** The ledger after any sequence of recordings, refused ones included. */
  function AfterAll(l: Ledger, ops: seq<(Request, bool)>): Ledger
    decreases |ops|
  {
    if ops == [] then l else AfterAll(Record(l, ops[0].0, ops[0].1).ledger, ops[1..])
  }

  /** Every ledger that can be reached is sound, and keeps its settled entries for ever. */
  lemma {:induction false} ReachableSound(l: Ledger, ops: seq<(Request, bool)>)
    requires Sound(l)
    ensures Sound(AfterAll(l, ops)) && |l.requests| <= |AfterAll(l, ops).requests|
    ensures forall i | 0 <= i < |l.requests| && !l.requests[i].inFlight :: AfterAll(l, ops).requests[i] == l.requests[i]
    decreases |ops|
  {
    hide Sound, Record;
    if ops != [] {
      RecordSound(l, ops[0].0, ops[0].1);
      if l.requests == [] {
      } else {
        EntriesStay(l, ops[0].0, ops[0].1, 0);
      }
      forall i | 0 <= i < |l.requests| && !l.requests[i].inFlight
        ensures Record(l, ops[0].0, ops[0].1).ledger.requests[i] == l.requests[i]
      {
        EntriesStay(l, ops[0].0, ops[0].1, i);
      }
      ReachableSound(Record(l, ops[0].0, ops[0].1).ledger, ops[1..]);
    }
  }

  /** Recording the same request again changes nothing and says so. */
  lemma ReplayIsNoOp(l: Ledger, r: Request, preserving: bool, again: bool)
    requires Sound(l) && Record(l, r, preserving).result.Ok?
    ensures var v := Record(l, r, preserving).ledger; Record(v, r, again) == Answer(v, Ok(false))
  {
    hide Acceptable, TotalsOf, Sound, Rebuild;
    RecordSound(l, r, preserving);
    var v := Record(l, r, preserving).ledger;
    SoundMeans(v);
    AppendEntries(l, r, preserving);
    var k := Position(v.requests, r.requestId);
    assert r in v.requests by {
      match Position(l.requests, r.requestId)
      case None => assert v.requests[|l.requests|] == r || r in l.requests;
      case Some(j) => assert v.requests[j] == r;
    }
  }

  // ----- the latest turn ---------------------------------------------------------------

  lemma {:induction false} OfTurnAppend(requests: seq<Request>, r: Request, turn: string)
    ensures OfTurn(requests + [r], turn) == OfTurn(requests, turn) + (if r.turnId == turn then [r] else [])
  {
    if requests == [] {
      assert requests + [r] == [r] && [r][1..] == [];
    } else {
      assert (requests + [r])[1..] == requests[1..] + [r];
      OfTurnAppend(requests[1..], r, turn);
    }
  }

  lemma {:induction false} NoneOfTurn(requests: seq<Request>, turn: string)
    ensures OfTurn(requests, turn) == [] <==> !HasTurn(requests, turn)
  {
    if requests != [] {
      NoneOfTurn(requests[1..], turn);
      assert requests == [requests[0]] + requests[1..];
    }
  }

  lemma TurnAppend(requests: seq<Request>, r: Request, turn: string)
    ensures TurnTotals(requests + [r], turn) ==
            if r.turnId == turn then TurnTotals(requests, turn).Record(r) else TurnTotals(requests, turn)
  {
    OfTurnAppend(requests, r, turn);
    SessionAppend(OfTurn(requests, turn), r);
    assert OfTurn(requests, turn) + [] == OfTurn(requests, turn);
  }

  /** The request goes back to a turn that has entries but is not the latest. */
  ghost predicate Reenters(l: Ledger, r: Request) {
    l.latestTurn != Some(r.turnId) && HasTurn(l.requests, r.turnId)
  }

  lemma FreshTurnTotals(requests: seq<Request>, r: Request)
    requires |requests| < MAX64
    ensures TurnTotals(requests + [r], r.turnId) == NO_TOTALS.Record(r) <==> !HasTurn(requests, r.turnId)
  {
    TurnAppend(requests, r, r.turnId);
    NoneOfTurn(requests, r.turnId);
    CountsAddUp(OfTurn(requests, r.turnId));
  }

  lemma AppendLatest(l: Ledger, r: Request)
    requires Current(l) && |l.requests| < MAX64
    ensures Current(Append(l, r, false)) <==> !Reenters(l, r)
    ensures l.latestTurn.Some? ==> Current(Append(l, r, true))
  {
    hide Totals.Record, TurnTotals;
    TurnAppend(l.requests, r, r.turnId);
    FreshTurnTotals(l.requests, r);
    if l.latestTurn.Some? {
      TurnAppend(l.requests, r, l.latestTurn.value);
    }
  }

  lemma SettleLatest(l: Ledger, r: Request, preserving: bool)
    requires Sound(l) && Current(l) && l.latestTurn.Some? && Position(l.requests, r.requestId).Some?
    ensures var v := Record(l, r, preserving).ledger; Current(v) && v.latestTurn == l.latestTurn
  {
    hide Acceptable, TotalsOf, Rebuild, TurnTotals;
    var k := Position(l.requests, r.requestId).value;
    if Acceptable(r) && l.requests[k] != r && Settles(l.requests[k], r) {
      SettleKeepsEntries(l.requests, k, r);
      RebuildSucceeds(l.(requests := l.requests[k := r]));
    }
  }

  /** The cached totals of the latest turn stay right exactly when the request is not a
      new entry that goes back to an old turn: that turn would start again from nothing. */
  lemma LatestTurnIffNoReentry(l: Ledger, r: Request)
    requires Sound(l) && Current(l) && |l.requests| < MAX64 && (l.requests == [] || l.latestTurn.Some?)
    ensures Current(Record(l, r, false).ledger) <==>
              !(Acceptable(r) && Position(l.requests, r.requestId).None? && Reenters(l, r))
  {
    hide Acceptable, TotalsOf, Rebuild, TurnTotals, Append;
    if Position(l.requests, r.requestId).None? {
      AppendLatest(l, r);
    } else {
      SettleLatest(l, r, false);
    }
  }

  /** Recording without changing the latest turn keeps its totals right, whatever the request. */
  lemma PreservingKeepsLatest(l: Ledger, r: Request)
    requires Sound(l) && Current(l) && |l.requests| < MAX64 && l.latestTurn.Some?
    ensures var v := Record(l, r, true).ledger; Current(v) && v.latestTurn == l.latestTurn
  {
    hide Acceptable, TotalsOf, Rebuild, TurnTotals;
    if Position(l.requests, r.requestId).None? {
      AppendLatest(l, r);
    } else {
      SettleLatest(l, r, true);
    }
  }

  /** No recording of the run goes back to an old turn as the latest one, and an older turn
      is recorded as such only while there is a latest one. */
  ghost predicate NeverReenters(l: Ledger, ops: seq<(Request, bool)>)
    decreases |ops|
  {
    ops == [] ||
    var r, preserving := ops[0].0, ops[0].1;
    && (preserving ==> l.latestTurn.Some?)
    && (!preserving && Position(l.requests, r.requestId).None? ==> !Reenters(l, r))
    && NeverReenters(Record(l, r, preserving).ledger, ops[1..])
  }

  lemma LatestStays(l: Ledger, r: Request, preserving: bool)
    requires Sound(l) && (l.requests == [] || l.latestTurn.Some?) && (preserving ==> l.latestTurn.Some?)
    ensures var v := Record(l, r, preserving).ledger; v.requests == [] || v.latestTurn.Some?
  {
    hide Acceptable, TotalsOf, Rebuild, TurnTotals;
    RecordSound(l, r, preserving);
    if Position(l.requests, r.requestId).Some? && l.latestTurn.Some? {
      var k := Position(l.requests, r.requestId).value;
      if Acceptable(r) && l.requests[k] != r && Settles(l.requests[k], r) {
        SettleKeepsEntries(l.requests, k, r);
        RebuildSucceeds(l.(requests := l.requests[k := r]));
      }
    }
  }

  /** Over every such run the cached totals of the latest turn are the totals of its entries. */
  lemma {:induction false} LatestTurnOverRuns(l: Ledger, ops: seq<(Request, bool)>)
    requires Sound(l) && Current(l) && (l.requests == [] || l.latestTurn.Some?)
    requires NeverReenters(l, ops) && |l.requests| + |ops| <= MAX64
    ensures Current(AfterAll(l, ops))
    decreases |ops|
  {
    hide Record, Sound, Current, Reenters, Acceptable;
    if ops != [] {
      var r, preserving := ops[0].0, ops[0].1;
      if preserving {
        PreservingKeepsLatest(l, r);
      } else {
        LatestTurnIffNoReentry(l, r);
      }
      LatestStays(l, r, preserving);
      RecordSound(l, r, preserving);
      LatestTurnOverRuns(Record(l, r, preserving).ledger, ops[1..]);
    }
  }

  // ----- rebuilding whatever was persisted -------------------------------------------------

  /** Entries read back from disk may repeat or contradict each other; replaying them
      still ends, and what it accepts is sound. */
  lemma {:induction false} ReplaySound(l: Ledger, entries: seq<Request>)
    requires Sound(l)
    ensures Sound(Replay(l, entries).ledger)
    decreases |entries|
  {
    hide Sound, Record;
    if entries != [] {
      RecordSound(l, entries[0], false);
      ReplaySound(Record(l, entries[0], false).ledger, entries[1..]);
    }
  }

  lemma RebuildSound(l: Ledger)
    ensures Rebuild(l).result.Ok? ==> Sound(Rebuild(l).ledger) && (l.latestTurn.Some? ==> Current(Rebuild(l).ledger))
    ensures Rebuild(l).result.Err? ==> Rebuild(l).ledger == l
  {
    hide TotalsOf, Acceptable, Replay;
    EmptySound();
    ReplaySound(EMPTY, l.requests);
  }

  // ----- the session over its turns ----------------------------------------------------------

  /** The same usage with its total stated. */
  function Stated(u: Usage): Usage {
    u.(totalInputReported := Some(u.TotalInput()))
  }

  const NOTHING := Stated(NO_USAGE)

  lemma AddNothing(u: Usage, v: Usage)
    ensures u.Add(NOTHING) == Stated(u) && NOTHING.Add(u) == Stated(u)
    ensures Stated(u).Add(v) == u.Add(v) && Stated(u.Add(v)) == u.Add(v)
    ensures NO_USAGE.Add(u) == Stated(u)
  {
  }

  /** The plain sum of what the entries used. */
  function UsageSum(entries: seq<Request>): Usage {
    if entries == [] then NOTHING else entries[0].usage.Add(UsageSum(entries[1..]))
  }

  lemma {:induction false} FoldIsSum(t: Totals, entries: seq<Request>)
    ensures Stated(Fold(t, entries).usage) == t.usage.Add(UsageSum(entries))
    decreases |entries|
  {
    hide Usage.Add, Stated;
    AddNothing(t.usage, t.usage);
    if entries != [] {
      FoldIsSum(t.Record(entries[0]), entries[1..]);
      UsageAssociates(t.usage, entries[0].usage, UsageSum(entries[1..]));
    }
  }

  lemma SumStated(entries: seq<Request>)
    ensures Stated(UsageSum(entries)) == UsageSum(entries) == NO_USAGE.Add(UsageSum(entries))
  {
    hide Usage.Add, Stated;
    AddNothing(NO_USAGE, NO_USAGE);
    AddNothing(UsageSum(entries), NO_USAGE);
    if entries == [] {
      AddNothing(NOTHING, NO_USAGE);
    } else {
      AddNothing(entries[0].usage, UsageSum(entries[1..]));
    }
  }

  /** Session usage is the saturating sum of what the single entries used. */
  lemma SessionUsageIsSum(entries: seq<Request>)
    ensures Stated(TotalsOf(entries).usage) == UsageSum(entries)
  {
    FoldIsSum(NO_TOTALS, entries);
    SumStated(entries);
  }

  function OfTurns(requests: seq<Request>, turns: seq<string>): seq<Request> {
    if requests == [] then []
    else if requests[0].turnId in turns then [requests[0]] + OfTurns(requests[1..], turns)
    else OfTurns(requests[1..], turns)
  }

  /** The usage of the turns, each totalled on its own and then added up. */
  function UsageOverTurns(requests: seq<Request>, turns: seq<string>): Usage {
    if turns == [] then NOTHING else TurnTotals(requests, turns[0]).usage.Add(UsageOverTurns(requests, turns[1..]))
  }

  lemma SumCons(r: Request, rest: seq<Request>)
    ensures UsageSum([r] + rest) == r.usage.Add(UsageSum(rest))
  {
    assert ([r] + rest)[1..] == rest;
  }

  lemma {:induction false} OneTurnApart(requests: seq<Request>, turn: string, turns: seq<string>)
    requires turn !in turns
    ensures UsageSum(OfTurns(requests, [turn] + turns)) ==
            UsageSum(OfTurn(requests, turn)).Add(UsageSum(OfTurns(requests, turns)))
  {
    hide Usage.Add, UsageSum;
    if requests == [] {
      SumStated([]);
      AddNothing(UsageSum([]), NO_USAGE);
      NothingLeft();
    } else {
      var r, rest := requests[0], requests[1..];
      OneTurnApart(rest, turn, turns);
      var a, b := UsageSum(OfTurn(rest, turn)), UsageSum(OfTurns(rest, turns));
      if r.turnId == turn {
        SumCons(r, OfTurn(rest, turn));
        SumCons(r, OfTurns(rest, [turn] + turns));
        UsageAssociates(r.usage, a, b);
      } else if r.turnId in turns {
        SumCons(r, OfTurns(rest, turns));
        SumCons(r, OfTurns(rest, [turn] + turns));
        UsageAssociates(r.usage, a, b);
        UsageCommutes(r.usage, a);
        UsageAssociates(a, r.usage, b);
      }
    }
  }

  lemma NothingLeft()
    ensures UsageSum([]) == UsageSum([]).Add(UsageSum([]))
  {
  }

  lemma {:induction false} TurnsAddUp(requests: seq<Request>, turns: seq<string>)
    requires forall i, j | 0 <= i < j < |turns| :: turns[i] != turns[j]
    ensures UsageOverTurns(requests, turns) == UsageSum(OfTurns(requests, turns))
    decreases |turns|
  {
    hide Usage.Add, UsageSum, TotalsOf, Stated;
    if turns == [] {
      NoTurns(requests);
    } else {
      TurnsAddUp(requests, turns[1..]);
      assert turns == [turns[0]] + turns[1..];
      OneTurnApart(requests, turns[0], turns[1..]);
      SessionUsageIsSum(OfTurn(requests, turns[0]));
      AddNothing(TurnTotals(requests, turns[0]).usage, UsageOverTurns(requests, turns[1..]));
    }
  }

  lemma NoTurns(requests: seq<Request>)
    ensures OfTurns(requests, []) == [] && UsageSum([]) == NOTHING
  {
  }

  lemma AllTurns(requests: seq<Request>, turns: seq<string>)
    requires forall r | r in requests :: r.turnId in turns
    ensures OfTurns(requests, turns) == requests
  {
  }

  /** In a sound ledger the session's usage is the saturating sum over its turns. */
  lemma SessionIsSumOverTurns(l: Ledger, turns: seq<string>)
    requires Sound(l)
    requires forall i, j | 0 <= i < j < |turns| :: turns[i] != turns[j]
    requires forall r | r in l.requests :: r.turnId in turns
    ensures Stated(l.session.usage) == UsageOverTurns(l.requests, turns)
  {
    hide TotalsOf, UsageOverTurns, UsageSum, Stated;
    SessionUsageIsSum(l.requests);
    TurnsAddUp(l.requests, turns);
    AllTurns(l.requests, turns);
  }
}
