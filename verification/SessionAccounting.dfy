/** The ledger as the session holds it: entries and cached totals, updated in place. */
module SessionAccounting {
  import opened Text
  import opened AccountingTotals
  import opened AccountingLedger

  class SessionAccounting {
    var requests: seq<Request>
    var latestTurn: Option<string>
    var latestTotals: Totals
    var session: Totals

    function View(): Ledger
      reads this
    {
      Ledger(requests, latestTurn, latestTotals, session)
    }

    constructor ()
      ensures View() == EMPTY
    {
      requests, latestTurn, latestTotals, session := [], None, NO_TOTALS, NO_TOTALS;
    }

    method FindRequest(id: string) returns (index: Option<nat>)
      ensures index == Position(requests, id)
    {
      for i := 0 to |requests|
        invariant forall k | 0 <= k < i :: requests[k].requestId != id
      {
        if requests[i].requestId == id {
          return Some(i);
        }
      }
      return None;
    }

    method TotalsForLogicalTurn(turn: string) returns (totals: Totals)
      ensures totals == TurnTotals(requests, turn)
    {
      totals := NO_TOTALS;
      for i := 0 to |requests|
        invariant totals == TurnTotals(requests[..i], turn)
      {
        assert requests[..i + 1] == requests[..i] + [requests[i]];
        TurnAppend(requests[..i], requests[i], turn);
        if requests[i].turnId == turn {
          totals := totals.Record(requests[i]);
        }
      }
      assert requests[..|requests|] == requests;
    }

    /** Records a request exactly once. With `preserving` an entry of an older turn does
        not become the latest turn. */
    method RecordRequest(request: Request, preserving: bool) returns (result: Result<bool>)
      modifies this
      ensures Answer(View(), result) == Record(old(View()), request, preserving)
      decreases |requests|, 1
    {
      if !Acceptable(request) {
        return Err("not acceptable");
      }
      var index := FindRequest(request.requestId);
      if index.Some? {
        var existing := requests[index.value];
        if existing == request {
          return Ok(false);
        }
        if Settles(existing, request) {
          requests := requests[index.value := request];
          result := RebuildTotals();
          return if result.Ok? then Ok(true) else result;
        }
        return Err("reused with different data");
      }
      if latestTurn == Some(request.turnId) {
        latestTotals := latestTotals.Record(request);
      } else if !preserving {
        latestTurn := Some(request.turnId);
        latestTotals := NO_TOTALS.Record(request);
      }
      session := session.Record(request);
      requests := requests + [request];
      return Ok(true);
    }

    /** Rebuilds the cached totals from the entries. */
    method RebuildTotals() returns (result: Result<bool>)
      modifies this
      ensures Answer(View(), result) == Rebuild(old(View()))
      decreases |requests|, 0
    {
      hide Record, TurnTotals;
      var rebuilt := new SessionAccounting();
      assert requests[0..] == requests;
      for i := 0 to |requests|
        invariant View() == old(View())
        invariant fresh(rebuilt) && |rebuilt.requests| <= i
        invariant Replay(EMPTY, requests) == Replay(rebuilt.View(), requests[i..])
      {
        assert requests[i..][0] == requests[i] && requests[i..][1..] == requests[i + 1..];
        var recorded := rebuilt.RecordRequest(requests[i], false);
        if recorded.Err? {
          return recorded;
        }
      }
      assert requests[|requests|..] == [];
      if latestTurn.Some? {
        if !(exists r | r in rebuilt.requests :: r.turnId == latestTurn.value) {
          return Err("latest turn has no entry");
        }
        rebuilt.latestTotals := rebuilt.TotalsForLogicalTurn(latestTurn.value);
        rebuilt.latestTurn := latestTurn;
      }
      requests, latestTurn, latestTotals, session := rebuilt.requests, rebuilt.latestTurn, rebuilt.latestTotals,
          rebuilt.session;
      return Ok(true);
    }
  }
}
