/** The two tiers of cached files, and how they are evicted to fit their budget. */
module FileCache {

  /** `revision` orders files by when they were cached. */
  datatype CachedFile = CachedFile(content: string, revision: nat, tokens: nat, accessTurn: nat)

  type Files = map<string, CachedFile>

  ghost function Tokens(files: Files): nat
    decreases |files.Keys|
  {
    if files == map[] then 0
    else
      var path :| path in files;
      assert (files - {path}).Keys == files.Keys - {path};
      files[path].tokens + Tokens(files - {path})
  }

  lemma {:induction false} TokensRemove(files: Files, path: string)
    requires path in files
    ensures Tokens(files) == files[path].tokens + Tokens(files - {path})
    decreases |files.Keys|
  {
    var first :| first in files && Tokens(files) == files[first].tokens + Tokens(files - {first});
    if first != path {
      assert (files - {first}).Keys == files.Keys - {first};
      assert (files - {path}).Keys == files.Keys - {path};
      TokensRemove(files - {first}, path);
      TokensRemove(files - {path}, first);
      assert files - {first} - {path} == files - {path} - {first};
    }
  }

  lemma TokensEmpty()
    ensures Tokens(map[]) == 0
  {
  }

  predicate Within(part: Files, files: Files) {
    forall path | path in part :: path in files && part[path] == files[path]
  }

  lemma {:induction false} TokensMonotone(part: Files, files: Files)
    requires Within(part, files)
    ensures Tokens(part) <= Tokens(files)
    decreases |files.Keys|
  {
    if files == map[] {
      assert part == map[];
    } else {
      var path :| path in files;
      assert (files - {path}).Keys == files.Keys - {path};
      TokensRemove(files, path);
      if path in part {
        TokensRemove(part, path);
        TokensMonotone(part - {path}, files - {path});
      } else {
        TokensMonotone(part, files - {path});
      }
    }
  }

  /** Moving a file from one tier to the other leaves the sum as it is. */
  lemma TokensMove(a: Files, b: Files, path: string)
    requires path in a && path !in b
    ensures Tokens(a) + Tokens(b) == Tokens(a - {path}) + Tokens(b[path := a[path]])
  {
    TokensRemove(a, path);
    TokensRemove(b[path := a[path]], path);
    assert b[path := a[path]] - {path} == b;
  }

  ghost predicate DistinctRevisions(files: Files) {
    forall p, q | p in files && q in files && p != q :: files[p].revision != files[q].revision
  }

  method OldestPath(files: Files) returns (oldest: string)
    requires files != map[]
    ensures oldest in files && forall p | p in files :: files[oldest].revision <= files[p].revision
  {
    var paths := files.Keys;
    oldest :| oldest in paths;
    paths := paths - {oldest};
    while paths != {}
      invariant oldest in files && paths <= files.Keys
      invariant forall p | p in files && p !in paths :: files[oldest].revision <= files[p].revision
      decreases |paths|
    {
      var p :| p in paths;
      if files[p].revision < files[oldest].revision {
        oldest := p;
      }
      paths := paths - {p};
    }
  }

  // ----- eviction ---------------------------------------------------------------------

  /** `kept` is what is left of a tier when its oldest files have been removed. */
  ghost predicate OldestGone(files: Files, kept: Files) {
    Within(kept, files) && forall p, q | p in files && p !in kept && q in kept :: files[p].revision < kept[q].revision
  }

  /** `path` is the last one that was removed from the tier. */
  ghost predicate LastGone(files: Files, kept: Files, path: string) {
    path in files && path !in kept && forall p | p in files && p !in kept :: files[p].revision <= files[path].revision
  }

  /** With the file removed last still there it would not fit beside `others`. */
  ghost predicate NeededGone(files: Files, kept: Files, others: nat, budget: nat) {
    forall path | LastGone(files, kept, path) :: Tokens(kept[path := files[path]]) + others > budget
  }

  /** What eviction must leave: files that fit the budget, the oldest gone first, the
      latest tier before the active one, and nothing removed that could have stayed. */
  ghost predicate Evicted(latest: Files, active: Files, budget: nat, keptLatest: Files, keptActive: Files) {
    && OldestGone(latest, keptLatest) && OldestGone(active, keptActive)
    && Tokens(keptLatest) + Tokens(keptActive) <= budget
    && (keptActive != active ==> keptLatest == map[] && NeededGone(active, keptActive, 0, budget))
    && (keptActive == active ==> NeededGone(latest, keptLatest, Tokens(active), budget))
  }

  lemma FindLastGone(files: Files, kept: Files, some: string) returns (path: string)
    requires some in files && some !in kept
    ensures LastGone(files, kept, path)
  {
    path := some;
    var rest := set p | p in files && p !in kept && files[p].revision > files[path].revision;
    while rest != {}
      invariant path in files && path !in kept
      invariant rest == set p | p in files && p !in kept && files[p].revision > files[path].revision
      decreases |rest|
    {
      var next :| next in rest;
      var fewer := set p | p in files && p !in kept && files[p].revision > files[next].revision;
      assert fewer <= rest - {next};
      SmallerSet(fewer, rest - {next});
      path, rest := next, fewer;
    }
    forall p | p in files && p !in kept ensures files[p].revision <= files[path].revision {
      assert p !in rest;
    }
  }

  lemma SmallerSet<T>(a: set<T>, b: set<T>)
    requires a <= b
    ensures |a| <= |b|
  {
    if a != b {
      assert b == a + (b - a);
    }
  }

  /** Of two ways to remove oldest files first, the one that keeps less keeps part of the
      other, and the file it removed last is still in the other. */
  lemma KeepsLess(files: Files, a: Files, b: Files, extra: string)
    requires DistinctRevisions(files) && OldestGone(files, a) && OldestGone(files, b) && extra in b && extra !in a
    ensures exists path :: LastGone(files, a, path) && Within(a[path := files[path]], b)
  {
    var path := FindLastGone(files, a, extra);
    assert path in b;
    forall q | q in a ensures q in b && a[q] == b[q] {
      assert files[extra].revision < a[q].revision;
    }
  }

  lemma SameFiles(a: Files, b: Files, files: Files)
    requires Within(a, files) && Within(b, files)
    requires forall path :: path in a <==> path in b
    ensures a == b
  {
  }

  /** There is only one way to evict as required. */
  lemma ActiveDetermined(latest: Files, active: Files, budget: nat, l1: Files, a1: Files, l2: Files, a2: Files)
    requires DistinctRevisions(active)
    requires Evicted(latest, active, budget, l1, a1) && Evicted(latest, active, budget, l2, a2)
    ensures forall path | path in a2 :: path in a1
  {
    forall path | path in a2 ensures path in a1 {
      if path !in a1 {
        KeepsLess(active, a1, a2, path);
        var last :| LastGone(active, a1, last) && Within(a1[last := active[last]], a2);
        TokensMonotone(a1[last := active[last]], a2);
      }
    }
  }

  lemma LatestDetermined(latest: Files, active: Files, budget: nat, l1: Files, l2: Files)
    requires DistinctRevisions(latest)
    requires Evicted(latest, active, budget, l1, active) && Evicted(latest, active, budget, l2, active)
    ensures forall path | path in l2 :: path in l1
  {
    forall path | path in l2 ensures path in l1 {
      if path !in l1 {
        KeepsLess(latest, l1, l2, path);
        var last :| LastGone(latest, l1, last) && Within(l1[last := latest[last]], l2);
        TokensMonotone(l1[last := latest[last]], l2);
      }
    }
  }

  lemma EvictionDetermined(latest: Files, active: Files, budget: nat, l1: Files, a1: Files, l2: Files, a2: Files)
    requires DistinctRevisions(latest) && DistinctRevisions(active)
    requires Evicted(latest, active, budget, l1, a1) && Evicted(latest, active, budget, l2, a2)
    ensures l1 == l2 && a1 == a2
  {
    ActiveDetermined(latest, active, budget, l1, a1, l2, a2);
    ActiveDetermined(latest, active, budget, l2, a2, l1, a1);
    SameFiles(a1, a2, active);
    if a1 == active {
      LatestDetermined(latest, active, budget, l1, l2);
      LatestDetermined(latest, active, budget, l2, l1);
      SameFiles(l1, l2, latest);
    }
  }

  // ----- the two tiers ------------------------------------------------------------------

  const ACTIVE_FILE_TURNS: nat := 3

  /** No file is in both tiers; a file is active exactly as long as it was used within the last turns. */
  ghost predicate AgesOk(active: Files, latest: Files, turn: nat) {
    && (forall p | p in active :: p !in latest)
    && (forall p | p in active :: active[p].accessTurn <= turn <= active[p].accessTurn + ACTIVE_FILE_TURNS)
    && (forall p | p in latest :: latest[p].accessTurn + ACTIVE_FILE_TURNS < turn)
  }

  /** Revisions tell the files of both tiers apart by age. */
  ghost predicate RevisionsOk(active: Files, latest: Files, revision: nat) {
    && (forall p | p in active :: active[p].revision <= revision)
    && (forall p | p in latest :: latest[p].revision <= revision)
    && DistinctRevisions(active) && DistinctRevisions(latest)
    && (forall p, q | p in active && q in latest :: active[p].revision != latest[q].revision)
  }

  ghost predicate Tiers(active: Files, latest: Files, turn: nat, revision: nat) {
    AgesOk(active, latest, turn) && RevisionsOk(active, latest, revision)
  }

  lemma TiersShrink(active: Files, latest: Files, turn: nat, revision: nat, active': Files, latest': Files)
    requires Tiers(active, latest, turn, revision) && Within(active', active) && Within(latest', latest)
    ensures Tiers(active', latest', turn, revision)
  {
  }

  lemma TiersInsert(active: Files, latest: Files, turn: nat, revision: nat, path: string, file: CachedFile)
    requires Tiers(active, latest, turn, revision) && file.revision == revision + 1 && file.accessTurn == turn
    ensures Tiers(active[path := file], latest - {path}, turn, revision + 1)
  {
  }

  predicate Stale(file: CachedFile, turn: nat) {
    file.accessTurn + ACTIVE_FILE_TURNS < turn
  }

  function Only(files: Files, paths: set<string>): Files {
    map p | p in files && p in paths :: files[p]
  }

  function StillActive(active: Files, turn: nat): Files {
    map p | p in active && !Stale(active[p], turn) :: active[p]
  }

  function Demoted(active: Files, turn: nat): Files {
    map p | p in active && Stale(active[p], turn) :: active[p]
  }

  lemma RevisionsPromote(active: Files, latest: Files, turn: nat, revision: nat)
    requires RevisionsOk(active, latest, revision)
    ensures RevisionsOk(StillActive(active, turn), latest + Demoted(active, turn), revision)
  {
  }

  /** When a turn begins, files not used for more than three turns leave the active tier. */
  lemma TiersPromote(active: Files, latest: Files, turn: nat, revision: nat)
    requires Tiers(active, latest, turn, revision)
    ensures Tiers(StillActive(active, turn + 1), latest + Demoted(active, turn + 1), turn + 1, revision)
  {
    hide RevisionsOk;
    RevisionsPromote(active, latest, turn + 1, revision);
  }

  lemma MoveOne(active: Files, latest: Files, gone: set<string>, path: string)
    requires active.Keys !! latest.Keys && path in active && path !in gone
    ensures (latest + Only(active, gone))[path := active[path]] == latest + Only(active, gone + {path})
    ensures active - gone - {path} == active - (gone + {path})
    ensures path in active - gone && (active - gone)[path] == active[path]
    ensures Tokens(active - (gone + {path})) + Tokens(latest + Only(active, gone + {path})) ==
            Tokens(active - gone) + Tokens(latest + Only(active, gone))
  {
    TokensMove(active - gone, latest + Only(active, gone), path);
  }

  lemma AllMoved(active: Files, stale: set<string>, turn: nat)
    requires stale == set p | p in active && Stale(active[p], turn)
    ensures active - stale == StillActive(active, turn) && Only(active, stale) == Demoted(active, turn)
  {
  }

  method PromoteStale(active: Files, latest: Files, turn: nat) returns (stillActive: Files, nowLatest: Files)
    requires active.Keys !! latest.Keys
    ensures stillActive == StillActive(active, turn) && nowLatest == latest + Demoted(active, turn)
    ensures Tokens(stillActive) + Tokens(nowLatest) == Tokens(active) + Tokens(latest)
  {
    hide Tokens, StillActive, Demoted, Only;
    var stale := set p | p in active && Stale(active[p], turn);
    AllMoved(active, stale, turn);
    NoneMoved(active, latest);
    var gone := {};
    stillActive, nowLatest := active, latest;
    while !(stale <= gone)
      invariant gone <= stale
      invariant stillActive == active - gone && nowLatest == latest + Only(active, gone)
      invariant Tokens(stillActive) + Tokens(nowLatest) == Tokens(active) + Tokens(latest)
      decreases stale - gone
    {
      var path :| path in stale && path !in gone;
      MoveOne(active, latest, gone, path);
      nowLatest := nowLatest[path := stillActive[path]];
      stillActive := stillActive - {path};
      gone := gone + {path};
    }
    assert gone == stale;
  }

  lemma NoneMoved(active: Files, latest: Files)
    ensures active - {} == active && latest + Only(active, {}) == latest
  {
  }

  lemma NewestGone(files: Files, before: Files, path: string, p: string)
    requires DistinctRevisions(files) && OldestGone(files, before) && path in before
    requires forall q | q in before :: before[path].revision <= before[q].revision
    requires LastGone(files, before - {path}, p)
    ensures p == path
  {
    assert files[path].revision <= files[p].revision;
  }

  /** One more file goes, the oldest that is left. */
  lemma EvictStep(files: Files, kept: Files, path: string, others: nat, budget: nat)
    requires DistinctRevisions(files) && OldestGone(files, kept) && path in kept && Tokens(kept) + others > budget
    requires forall q | q in kept :: kept[path].revision <= kept[q].revision
    ensures OldestGone(files, kept - {path}) && NeededGone(files, kept - {path}, others, budget)
    ensures Tokens(kept) == kept[path].tokens + Tokens(kept - {path})
  {
    TokensRemove(kept, path);
    assert (kept - {path})[path := files[path]] == kept;
    forall p | LastGone(files, kept - {path}, p)
      ensures Tokens((kept - {path})[p := files[p]]) + others > budget
    {
      NewestGone(files, kept, path, p);
    }
  }

  lemma NothingGone(files: Files, others: nat, budget: nat)
    ensures OldestGone(files, files) && NeededGone(files, files, others, budget)
  {
  }

  /** Removes oldest files of one tier until what is left fits beside `others`. */
  method EvictTier(files: Files, others: nat, budget: nat) returns (kept: Files)
    requires DistinctRevisions(files)
    ensures OldestGone(files, kept) && NeededGone(files, kept, others, budget)
    ensures Tokens(kept) + others <= budget || kept == map[]
    ensures Tokens(files) + others <= budget ==> kept == files
  {
    hide OldestGone, NeededGone, Tokens, DistinctRevisions;
    kept := files;
    var tokens := TokenTotal(files);
    NothingGone(files, others, budget);
    while tokens + others > budget && kept != map[]
      invariant OldestGone(files, kept) && NeededGone(files, kept, others, budget) && tokens == Tokens(kept)
      invariant Tokens(files) + others <= budget ==> kept == files
      decreases |kept.Keys|
    {
      var path := OldestPath(kept);
      EvictStep(files, kept, path, others, budget);
      assert (kept - {path}).Keys == kept.Keys - {path};
      tokens := tokens - kept[path].tokens;
      kept := kept - {path};
    }
  }

  method TokenTotal(files: Files) returns (total: nat)
    ensures total == Tokens(files)
  {
    total := 0;
    var rest := files;
    while rest != map[]
      invariant total + Tokens(rest) == Tokens(files)
      decreases |rest.Keys|
    {
      var path :| path in rest;
      TokensRemove(rest, path);
      assert (rest - {path}).Keys == rest.Keys - {path};
      total := total + rest[path].tokens;
      rest := rest - {path};
    }
  }
}
