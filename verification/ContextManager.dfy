/** The context of a conversation: its messages, trimmed after every change, and the
    files that have been read, in two tiers under one token budget. */
module ContextManager {
  import opened Text
  import opened Utf8
  import opened Utf8Stream
  import opened Messages
  import opened ContextTrim
  import opened FileCache

  const LATEST_FILES_BUDGET_FRACTION: nat := 35
  const CHARS_PER_TOKEN: nat := 4

  function EstimateTokens(content: string): nat {
    var bytes := ByteLength(content);
    bytes / CHARS_PER_TOKEN + if bytes % CHARS_PER_TOKEN == 0 then 0 else 1
  }

  function FilesBudget(maxTokens: nat): nat {
    maxTokens * LATEST_FILES_BUDGET_FRACTION / 100
  }

  lemma {:induction false} ByteLengthIs(s: string)
    ensures ByteLength(s) == |Encode(s)|
  {
    hide EncodeChar, Width;
    if s != "" {
      WidthIs(s[0]);
      ByteLengthIs(s[1..]);
    }
  }

  lemma WidthIs(c: char)
    ensures Width(c) == |EncodeChar(c)|
  {
  }

  /** The estimate is the least number of tokens of four bytes that hold the content in UTF-8. */
  lemma EstimateIsLeast(content: string)
    ensures 4 * EstimateTokens(content) >= |Encode(content)|
    ensures forall n: nat | 4 * n >= |Encode(content)| :: n >= EstimateTokens(content)
  {
    ByteLengthIs(content);
  }

  /** What is left fits beside the cached files, or only system messages precede the active request. */
  ghost predicate FitsBeside(estimate: Estimate, ms: seq<Message>, cached: nat, maxTokens: nat) {
    Cost(estimate, ms) + cached <= maxTokens || forall k | 0 <= k < Protected(ms) :: IsSystem(ms[k])
  }

  lemma TrimmedFits(estimate: Estimate, ms: seq<Message>, cached: nat, maxTokens: nat)
    requires cached <= maxTokens
    ensures FitsBeside(estimate, Trim(estimate, ms, Minus(maxTokens, cached)), cached, maxTokens)
  {
    hide Cut, Systems, Cost;
    var usable := Minus(maxTokens, cached);
    var k, p, r := Cut(estimate, ms, usable), Protected(ms), Trim(estimate, ms, usable);
    TrimIsLeast(estimate, ms, usable);
    if Cost(estimate, r) > usable {
      assert ms[p..] == [] || IsUser(ms[p..][0]);
      assert forall i | 0 < i < |ms| - p :: ms[p..][i] == ms[p + i];
      ProtectedAfterSystems(Systems(ms[..p]), ms[p..]);
    }
  }

  lemma FilesShare(maxTokens: nat)
    ensures 100 * FilesBudget(maxTokens) <= 35 * maxTokens < 100 * FilesBudget(maxTokens) + 100
    ensures FilesBudget(maxTokens) <= maxTokens
  {
  }

  class ContextManager {
    const estimate: Estimate
    var revision: nat
    var maxTokens: nat
    var messages: seq<Message>
    var cwd: string
    var turnCount: nat
    var activeFiles: Files
    var latestFiles: Files

    constructor (maxTokens: nat, estimate: Estimate)
      ensures Valid() && messages == [] && turnCount == 0 && activeFiles == map[] && latestFiles == map[]
      ensures this.maxTokens == maxTokens && this.estimate == estimate
    {
      this.estimate := estimate;
      this.maxTokens := maxTokens;
      revision, messages, cwd, turnCount, activeFiles, latestFiles := 0, [], ".", 0, map[], map[];
    }

    ghost function CachedTokens(): nat
      reads this
    {
      Tokens(activeFiles) + Tokens(latestFiles)
    }

    ghost predicate TiersOk()
      reads this
    {
      Tiers(activeFiles, latestFiles, turnCount, revision)
    }

    ghost predicate Valid()
      reads this
    {
      TiersOk() && CachedTokens() <= FilesBudget(maxTokens)
    }

    ghost function Usable(): nat
      reads this
    {
      Minus(maxTokens, CachedTokens())
    }

    // ----- files ---------------------------------------------------------------------

    /** If the cache exceeds its share of the budget, the oldest files go, those of the latest tier first. */
    method EvictFilesOverBudget()
      requires TiersOk()
      modifies this`activeFiles, this`latestFiles
      ensures Valid() && 100 * CachedTokens() <= 35 * maxTokens
      ensures Evicted(old(latestFiles), old(activeFiles), FilesBudget(maxTokens), latestFiles, activeFiles)
    {
      FilesShare(maxTokens);
      hide Tiers, OldestGone, NeededGone, Tokens;
      RevisionsDiffer(activeFiles, latestFiles, turnCount, revision);
      var budget := FilesBudget(maxTokens);
      var active := TokenTotal(activeFiles);
      var latestKept := EvictTier(latestFiles, active, budget);
      var latest := TokenTotal(latestKept);
      var activeKept := EvictTier(activeFiles, latest, budget);
      KeptWithin(activeFiles, activeKept);
      KeptWithin(latestFiles, latestKept);
      TokensEmpty();
      TiersShrink(activeFiles, latestFiles, turnCount, revision, activeKept, latestKept);
      activeFiles, latestFiles := activeKept, latestKept;
    }

    method UpdateLatestFile(path: string, content: string)
      requires Valid()
      modifies this
      ensures Valid()
      ensures messages == old(messages) && maxTokens == old(maxTokens) && turnCount == old(turnCount) && cwd == old(cwd)
      ensures Evicted(old(latestFiles) - {path},
                      old(activeFiles)[path := CachedFile(content, old(revision) + 1, EstimateTokens(content),
                          turnCount)],
                      FilesBudget(maxTokens), latestFiles, activeFiles)
    {
      hide Tiers, Evicted;
      TiersInsert(activeFiles, latestFiles, turnCount, revision, path,
          CachedFile(content, revision + 1, EstimateTokens(content), turnCount));
      revision := revision + 1;
      latestFiles := latestFiles - {path};
      activeFiles := activeFiles[path := CachedFile(content, revision, EstimateTokens(content), turnCount)];
      EvictFilesOverBudget();
    }

    method RemoveLatestFile(path: string)
      requires Valid()
      modifies this`activeFiles, this`latestFiles
      ensures Valid() && activeFiles == old(activeFiles) - {path} && latestFiles == old(latestFiles) - {path}
    {
      hide Tiers;
      TiersShrink(activeFiles, latestFiles, turnCount, revision, activeFiles - {path}, latestFiles - {path});
      TokensMonotone(activeFiles - {path}, activeFiles);
      TokensMonotone(latestFiles - {path}, latestFiles);
      activeFiles := activeFiles - {path};
      latestFiles := latestFiles - {path};
    }

    /** Active files that have not been used for more than three turns move to the latest tier. */
    method PromoteStaleActiveFiles()
      requires activeFiles.Keys !! latestFiles.Keys
      modifies this`activeFiles, this`latestFiles
      ensures activeFiles == StillActive(old(activeFiles), turnCount)
      ensures latestFiles == old(latestFiles) + Demoted(old(activeFiles), turnCount)
      ensures forall p :: p in activeFiles <==>
                p in old(activeFiles) && turnCount <= old(activeFiles)[p].accessTurn + 3
      ensures CachedTokens() == old(CachedTokens())
    {
      hide Demoted;
      var stillActive, nowLatest := PromoteStale(activeFiles, latestFiles, turnCount);
      activeFiles, latestFiles := stillActive, nowLatest;
    }

    // ----- messages -------------------------------------------------------------------

    method TrimContext()
      modifies this`messages
      ensures messages == Trim(estimate, old(messages), Usable())
      ensures CachedTokens() <= maxTokens ==> FitsBeside(estimate, messages, CachedTokens(), maxTokens)
    {
      if CachedTokens() <= maxTokens {
        TrimmedFits(estimate, messages, CachedTokens(), maxTokens);
      }
      var active := TokenTotal(activeFiles);
      var latest := TokenTotal(latestFiles);
      var usable := Minus(maxTokens, active + latest);
      messages := TrimmedMessages(estimate, messages, usable);
    }

    method AddMessageRaw(msg: Message)
      requires Valid()
      modifies this
      ensures Valid() && maxTokens == old(maxTokens) && cwd == old(cwd) && revision == old(revision)
      ensures turnCount == old(turnCount) + if IsUser(msg) then 1 else 0
      ensures messages == Trim(estimate, old(messages) + [msg], Usable()) && Usable() == old(Usable())
      ensures FitsBeside(estimate, messages, CachedTokens(), maxTokens)
      ensures !IsUser(msg) ==> activeFiles == old(activeFiles) && latestFiles == old(latestFiles)
      ensures IsUser(msg) ==>
                activeFiles == StillActive(old(activeFiles), turnCount) &&
                latestFiles == old(latestFiles) + Demoted(old(activeFiles), turnCount)
    {
      hide StillActive, Demoted, Tiers, Tokens, Trim;
      assert activeFiles.Keys !! latestFiles.Keys by { TiersApart(activeFiles, latestFiles, turnCount, revision); }
      if IsUser(msg) {
        TiersPromote(activeFiles, latestFiles, turnCount, revision);
        turnCount := turnCount + 1;
        PromoteStaleActiveFiles();
      }
      messages := messages + [msg];
      FilesShare(maxTokens);
      TrimContext();
    }

    method SetMessages(ms: seq<Message>)
      requires Valid()
      modifies this`messages
      ensures Valid() && messages == Trim(estimate, ms, Usable())
      ensures FitsBeside(estimate, messages, CachedTokens(), maxTokens)
    {
      FilesShare(maxTokens);
      messages := ms;
      TrimContext();
    }

    /** A checkpoint replaces the visible text it extends; repeating it changes nothing. */
    method UpsertAssistantMessage(checkpoint: Message)
      requires Valid() && checkpoint.role == "assistant"
      modifies this`messages
      ensures Valid()
      ensures var ms, n := old(messages), |old(messages)|;
              messages ==
              if n > 0 && ms[n - 1] == checkpoint then ms
              else if n > 0 && ms[n - 1].role == "assistant" && ms[n - 1].toolCalls == None &&
                      ms[n - 1].content == checkpoint.content
              then Trim(estimate, ms[..n - 1] + [checkpoint], Usable())
              else Trim(estimate, ms + [checkpoint], Usable())
    {
      if messages != [] && messages[|messages| - 1] == checkpoint {
        return;
      }
      if messages != [] {
        var last := messages[|messages| - 1];
        if last.role == "assistant" && last.toolCalls.None? && last.content == checkpoint.content {
          messages := messages[..|messages| - 1] + [checkpoint];
          TrimContext();
          return;
        }
      }
      messages := messages + [checkpoint];
      TrimContext();
    }

    method SetCwd(dir: string)
      requires Valid()
      modifies this
      ensures Valid() && cwd == dir
      ensures messages == if old(cwd) == dir then old(messages)
                          else Trim(estimate, old(messages) + [Plain("system", "Current working directory: " + dir)],
                              Usable())
    {
      if cwd != dir {
        cwd := dir;
        AddMessageRaw(Plain("system", "Current working directory: " + dir));
      }
    }

    method SetInputTokenBudget(tokens: nat) returns (ok: bool)
      requires Valid()
      modifies this
      ensures Valid() && ok == (tokens != 0)
      ensures !ok ==>
                messages == old(messages) && maxTokens == old(maxTokens) && activeFiles == old(activeFiles) &&
                latestFiles == old(latestFiles)
      ensures ok ==>
                maxTokens == tokens &&
                Evicted(old(latestFiles), old(activeFiles), FilesBudget(tokens), latestFiles, activeFiles)
      ensures ok ==> messages == Trim(estimate, old(messages), Usable())
      ensures ok ==> FitsBeside(estimate, messages, CachedTokens(), maxTokens)
    {
      if tokens == 0 {
        return false;
      }
      maxTokens := tokens;
      FilesShare(maxTokens);
      EvictFilesOverBudget();
      TrimContext();
      return true;
    }

    method Clear()
      requires Valid()
      modifies this
      ensures Valid() && messages == [] && turnCount == 0 && activeFiles == map[] && latestFiles == map[] &&
              maxTokens == old(maxTokens)
    {
      messages, turnCount, activeFiles, latestFiles := [], 0, map[], map[];
    }
  }

  lemma RevisionsDiffer(active: Files, latest: Files, turn: nat, revision: nat)
    requires Tiers(active, latest, turn, revision)
    ensures DistinctRevisions(active) && DistinctRevisions(latest)
  {
  }

  lemma TiersApart(active: Files, latest: Files, turn: nat, revision: nat)
    requires Tiers(active, latest, turn, revision)
    ensures active.Keys !! latest.Keys
  {
  }

  lemma KeptWithin(files: Files, kept: Files)
    requires OldestGone(files, kept)
    ensures Within(kept, files)
  {
  }

  // ----- the loops of trimming --------------------------------------------------------

  method TokenSum(estimate: Estimate, ms: seq<Message>) returns (total: nat)
    ensures total == Cost(estimate, ms)
  {
    total := 0;
    for i := 0 to |ms|
      invariant total == Cost(estimate, ms[..i])
    {
      assert ms[..i + 1] == ms[..i] + [ms[i]];
      CostConcat(estimate, ms[..i], [ms[i]]);
      assert [ms[i]][1..] == [];
      total := total + estimate(ms[i]);
    }
    assert ms[..|ms|] == ms;
  }

  method FindProtected(ms: seq<Message>) returns (limit: nat)
    ensures limit == Protected(ms)
  {
    for i := |ms| downto 0
      invariant forall k | i <= k < |ms| :: !IsUser(ms[k])
    {
      if IsUser(ms[i]) {
        return i;
      }
    }
    return |ms|;
  }

  method FindUnitEnd(ms: seq<Message>, index: nat, limit: nat) returns (end: nat)
    requires index < limit <= |ms|
    ensures end == UnitEnd(ms, index, limit)
  {
    end := index + 1;
    if IsCall(ms[index]) {
      while end < limit && IsTool(ms[end])
        invariant index < end <= limit && ToolsFrom(ms, index + 1, limit) == ToolsFrom(ms, end, limit)
      {
        end := end + 1;
      }
    }
  }

  /** Marks whole units as dropped, from the front, until enough tokens are gone. */
  method MarkDropped(estimate: Estimate, ms: seq<Message>, limit: nat, tokens: nat,
                     dropped: array<bool>) returns (stop: nat)
    requires limit <= |ms| == dropped.Length && forall k | 0 <= k < |ms| :: !dropped[k]
    modifies dropped
    ensures stop == StopAt(estimate, ms, 0, limit, tokens)
    ensures forall k | 0 <= k < |ms| :: dropped[k] == (k < stop && !IsSystem(ms[k]))
  {
    hide Cost, UnitEnd, IsSystem;
    var need: nat := tokens;
    stop := 0;
    while stop < limit && need > 0
      invariant stop <= limit
      invariant StopAt(estimate, ms, stop, limit, need) == StopAt(estimate, ms, 0, limit, tokens)
      invariant forall k | 0 <= k < |ms| :: dropped[k] == (k < stop && !IsSystem(ms[k]))
    {
      if IsSystem(ms[stop]) {
        stop := stop + 1;
        continue;
      }
      var end := FindUnitEnd(ms, stop, limit);
      var unitCost := TokenSum(estimate, ms[stop..end]);
      UnitWithoutSystem(ms, stop, limit);
      for i := stop to end
        invariant forall k | 0 <= k < |ms| :: dropped[k] == (k < i && !IsSystem(ms[k]))
      {
        dropped[i] := true;
      }
      need := Minus(need, unitCost);
      stop := end;
    }
  }

  lemma UnitWithoutSystem(ms: seq<Message>, i: nat, limit: nat)
    requires i < limit <= |ms| && !IsSystem(ms[i])
    ensures forall k | i <= k < UnitEnd(ms, i, limit) :: !IsSystem(ms[k])
  {
  }

  lemma SystemsNext(ms: seq<Message>, i: nat)
    requires i < |ms|
    ensures Systems(ms[..i + 1]) == if IsSystem(ms[i]) then Systems(ms[..i]) + [ms[i]] else Systems(ms[..i])
  {
    assert ms[..i + 1] == ms[..i] + [ms[i]];
    SystemsConcat(ms[..i], [ms[i]]);
    assert [ms[i]][1..] == [];
    assert Systems(ms[..i]) + [] == Systems(ms[..i]);
  }

  lemma SystemsNone(ms: seq<Message>)
    ensures Systems(ms[..0]) == []
  {
  }

  method Retain(ms: seq<Message>, dropped: array<bool>, stop: nat) returns (kept: seq<Message>)
    requires stop <= |ms| == dropped.Length && forall k | 0 <= k < |ms| :: dropped[k] == (k < stop && !IsSystem(ms[k]))
    ensures kept == LeftAt(ms, stop)
  {
    hide Systems;
    SystemsNone(ms);
    kept := [];
    for i := 0 to stop
      invariant kept == Systems(ms[..i])
    {
      SystemsNext(ms, i);
      if !dropped[i] {
        kept := kept + [ms[i]];
      }
    }
    for i := stop to |ms|
      invariant kept == Systems(ms[..stop]) + ms[stop..i]
    {
      assert ms[stop..i + 1] == ms[stop..i] + [ms[i]];
      if !dropped[i] {
        kept := kept + [ms[i]];
      }
    }
    assert ms[stop..|ms|] == ms[stop..];
  }

  /** Whole units are marked as dropped, then the rest is retained. */
  method TrimmedMessages(estimate: Estimate, ms: seq<Message>, usable: nat) returns (kept: seq<Message>)
    ensures kept == Trim(estimate, ms, usable)
  {
    hide StopAt, Systems, Cost;
    var total := TokenSum(estimate, ms);
    if total <= usable {
      NothingDropped(ms);
      return ms;
    }
    var limit := FindProtected(ms);
    var dropped := new bool[|ms|](_ => false);
    var stop := MarkDropped(estimate, ms, limit, total - usable, dropped);
    kept := Retain(ms, dropped, stop);
  }
}
