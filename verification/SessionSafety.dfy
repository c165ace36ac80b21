/** What holds in every interleaving of processes and crashes. */
module SessionSafety {
  import opened Text
  import opened SessionMachine
  import opened SessionInvariant

  lemma ApplyProper(w: World, p: Pid, a: Action, v: World)
    requires Inv(w) && Apply(w, p, a) == Some(v)
    ensures Proper(w, v, p, a)
  {
    hide Inv, Proper;
    hide DoLockNewIdentity, DoSaveCreating, DoMakeDirectory, DoLockNewPath, DoBindNew, DoSaveCreated,
         DoReadRegisteredRecord, DoReadRegisteredBinding, DoSeekPath, DoSeekDeletion, DoSeekRecovery,
         DoLockPath, DoCheckBindings, DoCheckRecords, DoCheckOwnRecord, DoLockIdentity, DoBindIdentity,
         DoSettle, DoCommit, DoBeginDeletion, DoMarkDeleting, DoRemoveScope, DoRemoveEntry, DoRemoveLegacy,
         DoRemoveDirectory, DoSaveDeleted, DoWriteState, DoAddEntry, DoStop;
    match a
    case LockNewIdentity(id) => LockNewIdentityProper(w, p, id, v);
    case SaveCreating(name) => SaveCreatingProper(w, p, name, v);
    case MakeDirectory => MakeDirectoryProper(w, p, v);
    case LockNewPath => LockNewPathProper(w, p, v);
    case BindNew => BindNewProper(w, p, v);
    case SaveCreated => SaveCreatedProper(w, p, v);
    case ReadRegisteredRecord(id) => ReadRegisteredRecordProper(w, p, id, v);
    case ReadRegisteredBinding => ReadRegisteredBindingProper(w, p, v);
    case SeekPath(name, id) => SeekPathProper(w, p, name, id, v);
    case SeekDeletion(name, id) => SeekDeletionProper(w, p, name, id, v);
    case SeekRecovery(name, id) => SeekRecoveryProper(w, p, name, id, v);
    case LockPath => LockPathProper(w, p, v);
    case CheckBindings => CheckBindingsProper(w, p, v);
    case CheckRecords => CheckRecordsProper(w, p, v);
    case CheckOwnRecord => CheckOwnRecordProper(w, p, v);
    case LockIdentity => LockIdentityProper(w, p, v);
    case BindIdentity => BindIdentityProper(w, p, v);
    case Settle => SettleProper(w, p, v);
    case Commit => CommitProper(w, p, v);
    case BeginDeletion => BeginDeletionProper(w, p, v);
    case MarkDeleting => MarkDeletingProper(w, p, v);
    case RemoveScope => RemoveScopeProper(w, p, v);
    case RemoveEntry(entry) => RemoveEntryProper(w, p, entry, v);
    case RemoveLegacy => RemoveLegacyProper(w, p, v);
    case RemoveDirectory => RemoveDirectoryProper(w, p, v);
    case SaveDeleted => SaveDeletedProper(w, p, v);
    case WriteState(state) => WriteStateProper(w, p, state, v);
    case AddEntry(entry) => AddEntryProper(w, p, entry, v);
    case Stop => StopProper(w, p, v);
  }

  lemma ApplyKeeps(w: World, p: Pid, a: Action, v: World)
    requires Inv(w) && Apply(w, p, a) == Some(v)
    ensures Inv(v)
  {
    hide Inv, Within, StageOk, Apply;
    ApplyProper(w, p, a, v);
    WithinKeeps(w, v, p, ChangeOf(w, p, a));
  }

  lemma {:induction false} RunsKeep(w: World, steps: seq<Step>, v: World)
    requires Inv(w) && After(w, steps) == Some(v)
    ensures Inv(v)
    decreases |steps|
  {
    hide Inv, Apply;
    if steps != [] {
      var next := Apply(w, steps[0].pid, steps[0].action).value;
      ApplyKeeps(w, steps[0].pid, steps[0].action, next);
      RunsKeep(next, steps[1..], v);
    }
  }

  lemma InitialHolds(w: World)
    requires Initial(w)
    ensures Inv(w)
  {
  }

  ghost predicate Reachable(w: World) {
    exists w0, steps :: Initial(w0) && After(w0, steps) == Some(w)
  }

  lemma ReachableHolds(w: World)
    requires Reachable(w)
    ensures Inv(w)
  {
    hide Inv, Initial, After;
    var w0, steps :| Initial(w0) && After(w0, steps) == Some(w);
    InitialHolds(w0);
    RunsKeep(w0, steps, w);
  }

  // ----- leases -------------------------------------------------------------------------

  /** No two live leases share an identity or a path. */
  lemma LeasesExclusive(w: World, p: Pid, q: Pid)
    requires Reachable(w) && p != q && LeaseOf(StageOf(w, p)).Some? && LeaseOf(StageOf(w, q)).Some?
    ensures LeaseOf(StageOf(w, p)).value.id != LeaseOf(StageOf(w, q)).value.id
    ensures LeaseOf(StageOf(w, p)).value.name != LeaseOf(StageOf(w, q)).value.name
  {
    hide Inv, Reachable;
    ReachableHolds(w);
    InvMeans(w, p);
    InvMeans(w, q);
  }

  /** A resumed session is not tombstoned, is bound to the directory that is
      there, and no other identity is bound to or recorded for its path, although
      the record was read before the identity lock was taken. */
  lemma ResumedIsLive(w: World, p: Pid)
    requires Reachable(w) && StageOf(w, p).Resumed?
    ensures var lease := StageOf(w, p).lease;
            && !Tombstoned(w, lease.id)
            && LeaseBound(w, lease) && Current(w, lease.binding)
            && (forall j | j in w.bindings && j != lease.id :: w.bindings[j].path != lease.name)
            && (forall j | j in w.records && j != lease.id ::
                  w.records[j].name != lease.name &&
                  (w.records[j].binding.Some? ==> w.records[j].binding.value.path != lease.name))
  {
    hide Inv, Reachable;
    ReachableHolds(w);
    InvMeans(w, p);
  }

  /** The same for the process that created the session, which alone may commit it. */
  lemma CreatedIsLive(w: World, p: Pid)
    requires Reachable(w) && StageOf(w, p).Created?
    ensures var lease := StageOf(w, p).lease;
            !Tombstoned(w, lease.id) && LeaseBound(w, lease) && Current(w, lease.binding)
  {
    hide Inv, Reachable;
    ReachableHolds(w);
    InvMeans(w, p);
  }

  /** Every record is written under the lock of its identity, and one at a time. */
  lemma RecordWritesLocked(w: World, p: Pid, a: Action, v: World, id: Id)
    requires Reachable(w) && Apply(w, p, a) == Some(v)
    requires id in v.records && (id !in w.records || v.records[id] != w.records[id])
    ensures OwnsId(w, p, id)
    ensures v.records == w.records[id := v.records[id]]
  {
    hide Inv, Reachable, Apply, OthersKept;
    ReachableHolds(w);
    ApplyProper(w, p, a, v);
  }

  /** Bindings are never changed or removed, and put on file under both locks of their identity and path. */
  lemma BindingsWriteOnce(w: World, p: Pid, a: Action, v: World, id: Id)
    requires Reachable(w) && Apply(w, p, a) == Some(v)
    ensures id in w.bindings ==> id in v.bindings && v.bindings[id] == w.bindings[id]
    ensures id in v.bindings && id !in w.bindings ==> OwnsId(w, p, id) && OwnsPath(w, p, v.bindings[id].path)
  {
    hide Inv, Reachable, Apply, OthersKept;
    ReachableHolds(w);
    ApplyProper(w, p, a, v);
  }

  /** Nobody but the holder touches the record, the binding or the directory of a lease. */
  lemma HolderOnly(w: World, p: Pid, q: Pid, a: Action, v: World)
    requires Reachable(w) && q != p && LeaseOf(StageOf(w, p)).Some? && Apply(w, q, a) == Some(v)
    ensures StageOf(v, p) == StageOf(w, p)
    ensures SameAt(w, v, LeaseOf(StageOf(w, p)).value)
  {
    hide Inv, Reachable, Apply, OwnOnly, ChangeOf, Established;
    ReachableHolds(w);
    InvMeans(w, p);
    ApplyProper(w, q, a, v);
    WithinOthers(w, v, q, ChangeOf(w, q, a));
    OthersElsewhere(w, v, q, ChangeOf(w, q, a), p);
  }

  ghost predicate SameAt(w: World, v: World, lease: Lease) {
    && (lease.id in v.records <==> lease.id in w.records)
    && (lease.id in w.records ==> v.records[lease.id] == w.records[lease.id])
    && (lease.name in v.dirs <==> lease.name in w.dirs)
    && (lease.name in w.dirs ==> v.dirs[lease.name] == w.dirs[lease.name])
  }

  lemma OthersElsewhere(w: World, v: World, q: Pid, c: Change, p: Pid)
    requires Within(w, v, q, c) && q != p && LeaseOf(StageOf(w, p)).Some? && Locks(w, p, StageOf(w, p))
    ensures SameAt(w, v, LeaseOf(StageOf(w, p)).value)
  {
    hide OthersKept;
  }

  predicate EndsUse(a: Action) {
    a == BeginDeletion || a == MarkDeleting || a == Stop
  }

  lemma HolderStays(w: World, p: Pid, a: Action, v: World)
    requires StageOf(w, p).Resumed? && Apply(w, p, a) == Some(v) && !EndsUse(a)
    ensures StageOf(v, p) == StageOf(w, p)
  {
    if a == Commit {
      HolderCommits(w, p, v);
    } else if a.WriteState? || a.AddEntry? {
      HolderWrites(w, p, a, v);
    } else {
      HolderDoesNothingElse(w, p, a, v);
    }
  }

  lemma HolderCommits(w: World, p: Pid, v: World)
    requires StageOf(w, p).Resumed? && DoCommit(w, p) == Some(v)
    ensures StageOf(v, p) == StageOf(w, p)
  {
    hide CommittedRecord, FirstStateSaved, RecordOf;
  }

  lemma HolderWrites(w: World, p: Pid, a: Action, v: World)
    requires StageOf(w, p).Resumed? && (a.WriteState? || a.AddEntry?) && Apply(w, p, a) == Some(v)
    ensures StageOf(v, p) == StageOf(w, p)
  {
  }

  lemma HolderDoesNothingElse(w: World, p: Pid, a: Action, v: World)
    requires StageOf(w, p).Resumed? && Apply(w, p, a) == Some(v) && !EndsUse(a)
    ensures a == Commit || a.WriteState? || a.AddEntry?
  {
    hide DoCommit, DoWriteState, DoAddEntry, Marking, DoStop;
  }

  /** From the moment a session is resumed until its holder deletes it or lets it go,
      whatever the other processes do, it stays resumed and is not tombstoned. */
  lemma {:induction false} ResumedUntilHolderEnds(w: World, p: Pid, steps: seq<Step>, v: World)
    requires Reachable(w) && StageOf(w, p).Resumed? && After(w, steps) == Some(v)
    requires forall s | s in steps && s.pid == p :: !EndsUse(s.action)
    ensures StageOf(v, p) == StageOf(w, p) && !Tombstoned(v, StageOf(w, p).lease.id)
    decreases |steps|
  {
    hide Reachable, Apply;
    if steps == [] {
      ResumedIsLive(w, p);
    } else {
      var s := steps[0];
      var next := Apply(w, s.pid, s.action).value;
      assert s in steps;
      ReachableStep(w, s.pid, s.action, next);
      if s.pid == p {
        HolderStays(w, p, s.action, next);
      } else {
        HolderOnly(w, p, s.pid, s.action, next);
      }
      ResumedUntilHolderEnds(next, p, steps[1..], v);
    }
  }

  lemma {:induction false} AfterAppend(w: World, steps: seq<Step>, v: World, s: Step, u: World)
    requires After(w, steps) == Some(v) && Apply(v, s.pid, s.action) == Some(u)
    ensures After(w, steps + [s]) == Some(u)
    decreases |steps|
  {
    hide Apply;
    if steps == [] {
      assert [s][1..] == [];
      assert steps + [s] == [s];
    } else {
      var next := Apply(w, steps[0].pid, steps[0].action).value;
      AfterAppend(next, steps[1..], v, s, u);
      assert (steps + [s])[1..] == steps[1..] + [s] && (steps + [s])[0] == steps[0];
    }
  }

  lemma ReachableStep(w: World, p: Pid, a: Action, v: World)
    requires Reachable(w) && Apply(w, p, a) == Some(v)
    ensures Reachable(v)
  {
    hide Initial, After, Apply;
    var w0, steps :| Initial(w0) && After(w0, steps) == Some(w);
    AfterAppend(w0, steps, w, Step(p, a), v);
  }

  // ----- tombstones -------------------------------------------------------------------------

  /** A deleted session has no directory, under any binding or name. */
  lemma DeletedIsGone(w: World, id: Id)
    requires Reachable(w) && id in w.records && w.records[id].phase == Deleted
    ensures w.records[id].name !in w.dirs
    ensures id in w.bindings && w.bindings[id].path == w.records[id].name
  {
    hide Inv, Reachable;
    ReachableHolds(w);
    InvMeans(w, 0);
    assert RecordOk(w, id);
  }

  /** Recovery is about to write a record it read when no directory was bound yet,
      although the identity has been tombstoned since. */
  predicate StaleRecovery(w: World, p: Pid, a: Action, id: Id) {
    var stage := StageOf(w, p);
    a == Settle && stage.Bound? && WritesFound(stage.goal) && stage.lease.id == id && Tombstoned(w, id)
  }

  lemma WritesTombstone(w: World, p: Pid, a: Action, v: World, id: Id, r: Record)
    requires Inv(w) && Apply(w, p, a) == Some(v) && ChangeOf(w, p, a) == SaveRecord(id, r) && Tombstoned(w, id)
    ensures Tombstone(r) || StaleRecovery(w, p, a, id)
  {
    hide Inv, Global, Accounted, Locks;
    InvMeans(w, p);
  }

  lemma StaleRecoveryRevives(w: World, p: Pid, id: Id, v: World)
    requires Inv(w) && Apply(w, p, Settle) == Some(v) && StaleRecovery(w, p, Settle, id)
    ensures !Tombstoned(v, id)
  {
    hide Inv, Global, Accounted;
    InvMeans(w, p);
  }

  /** A tombstone is taken back by a stale recovery and by nothing else. */
  lemma TombstoneLostIffStale(w: World, p: Pid, a: Action, v: World, id: Id)
    requires Reachable(w) && Apply(w, p, a) == Some(v) && Tombstoned(w, id)
    ensures !Tombstoned(v, id) <==> StaleRecovery(w, p, a, id)
  {
    hide Inv, Reachable, Apply, OthersKept, ChangeOf;
    ReachableHolds(w);
    ApplyProper(w, p, a, v);
    if StaleRecovery(w, p, a, id) {
      StaleRecoveryRevives(w, p, id, v);
    }
    var c := ChangeOf(w, p, a);
    if c.SaveRecord? && c.id == id {
      WritesTombstone(w, p, a, v, id, c.record);
    }
  }

  ghost predicate StaleStep(w: World, s: Step, id: Id) {
    StaleRecovery(w, s.pid, s.action, id)
  }

  /** The run takes a stale recovery of `id` at some step. */
  ghost predicate HasStale(w: World, steps: seq<Step>, id: Id)
    decreases |steps|
  {
    steps != [] && (
      StaleStep(w, steps[0], id) ||
      (var next := Apply(w, steps[0].pid, steps[0].action); next.Some? && HasStale(next.value, steps[1..], id)))
  }

  /** Deletion is irrevocable along every run without a stale recovery. */
  lemma {:induction false} TombstonesStay(w: World, steps: seq<Step>, v: World, id: Id)
    requires Reachable(w) && After(w, steps) == Some(v) && Tombstoned(w, id) && !HasStale(w, steps, id)
    ensures Tombstoned(v, id)
    decreases |steps|
  {
    hide Reachable, Apply, StaleRecovery;
    if steps != [] {
      var s := steps[0];
      var next := Apply(w, s.pid, s.action).value;
      TombstoneLostIffStale(w, s.pid, s.action, next, id);
      ReachableStep(w, s.pid, s.action, next);
      TombstonesStay(next, steps[1..], v, id);
    }
  }
}
