/** Deleting a session: what a crash can leave, what can always be completed, and
    what cannot. */
module SessionDeletion {
  import opened Text
  import opened SessionMachine
  import opened SessionInvariant
  import opened SessionSafety

  // ----- a removal that stopped after the directory was gone -------------------------------

  /** Marked for deletion, the directory gone, and nobody about to record that it is gone. */
  ghost predicate Stuck(w: World, id: Id) {
    && id in w.records && w.records[id].phase == Deleting && w.records[id].name !in w.dirs
    && forall p :: !Finishing(w, p, id)
  }

  /** `p` has removed the directory of `id` and is about to record it. */
  ghost predicate Finishing(w: World, p: Pid, id: Id) {
    var stage := StageOf(w, p);
    stage.Removing? && stage.progress == DirectoryGone && stage.lease.id == id
  }

  lemma StuckNoWriter(w: World, p: Pid, a: Action, v: World, id: Id)
    requires Inv(w) && Stuck(w, id) && Apply(w, p, a) == Some(v)
    ensures ChangeOf(w, p, a).SaveRecord? ==> ChangeOf(w, p, a).id != id
  {
    hide Inv, Accounted, NoOtherBound, NoOtherRecorded, Alone, ClearAt, NamesUsed, BindingsCurrent, UnboundDistinct;
    InvMeans(w, p);
    assert RecordOk(w, id);
    assert !Finishing(w, p, id);
  }

  lemma StuckNoMaker(w: World, v: World, p: Pid, id: Id, c: Change)
    requires Inv(w) && Stuck(w, id) && Within(w, v, p, c)
    ensures w.records[id].name !in v.dirs
  {
    hide Inv, Accounted, OthersKept;
    InvMeans(w, p);
    assert RecordOk(w, id);
  }

  lemma FinishingOnlyByRemoval(w: World, p: Pid, a: Action, v: World, id: Id)
    requires Apply(w, p, a) == Some(v) && Finishing(v, p, id) && !Finishing(w, p, id)
    ensures a == RemoveDirectory && StageOf(w, p).Removing? && StageOf(w, p).lease.id == id &&
            StageOf(w, p).lease.name in w.dirs
    ensures StageOf(w, p).progress == LegacyGone
  {
    hide OnlyRecoverable, NoOtherBound, NoOtherRecorded, Tombstoned, ValidRecord, Current, Readable, Matches,
      FirstStateSaved;
  }

  lemma StuckNotFinishing(w: World, p: Pid, a: Action, v: World, id: Id, q: Pid)
    requires Inv(w) && Stuck(w, id) && Apply(w, p, a) == Some(v) && OthersStay(w, v, p)
    ensures !Finishing(v, q, id)
  {
    hide Inv, Apply, Global, Accounted;
    assert !Finishing(w, q, id);
    if q == p && Finishing(v, p, id) {
      FinishingOnlyByRemoval(w, p, a, v, id);
      InvMeans(w, p);
    }
  }

  lemma StuckStays(w: World, p: Pid, a: Action, v: World, id: Id)
    requires Inv(w) && Stuck(w, id) && Apply(w, p, a) == Some(v)
    ensures Stuck(v, id)
  {
    hide Inv, Apply, Finishing, ChangeOf, OwnOnly, StageOk;
    ApplyProper(w, p, a, v);
    var c := ChangeOf(w, p, a);
    WithinOthers(w, v, p, c);
    StuckNoMaker(w, v, p, id, c);
    forall q ensures !Finishing(v, q, id) {
      StuckNotFinishing(w, p, a, v, id, q);
    }
    StuckNoWriter(w, p, a, v, id);
  }

  lemma {:induction false} StuckForever(w: World, steps: seq<Step>, v: World, id: Id)
    requires Inv(w) && Stuck(w, id) && After(w, steps) == Some(v)
    ensures Stuck(v, id)
    decreases |steps|
  {
    hide Inv, Apply, Stuck;
    if steps != [] {
      var next := Apply(w, steps[0].pid, steps[0].action).value;
      StuckStays(w, steps[0].pid, steps[0].action, next, id);
      ApplyKeeps(w, steps[0].pid, steps[0].action, next);
      StuckForever(next, steps[1..], v, id);
    }
  }

  // ----- a removal that can still be completed ----------------------------------------------

  ghost predicate Leads(w: World, v: World) {
    exists steps :: After(w, steps) == Some(v)
  }

  lemma LeadsSelf(w: World)
    ensures Leads(w, w)
  {
    assert After(w, []) == Some(w);
  }

  lemma LeadsStep(w: World, v: World, p: Pid, a: Action, u: World)
    requires Leads(w, v) && Apply(v, p, a) == Some(u)
    ensures Leads(w, u)
  {
    hide Apply;
    var steps :| After(w, steps) == Some(v);
    AfterAppend(w, steps, v, Step(p, a), u);
  }

  lemma LeadsKeeps(w: World, v: World)
    requires Inv(w) && Leads(w, v)
    ensures Inv(v)
  {
    hide Inv, Apply;
    var steps :| After(w, steps) == Some(v);
    RunsKeep(w, steps, v);
  }

  /** One more step of `p` on a run from `w`. */
  lemma Taken(v: World, p: Pid, a: Action, u: World, w: World)
    requires Leads(w, v)
    requires match a
             case LockNewIdentity(id) => DoLockNewIdentity(v, p, id) == Some(u)
             case SaveCreating(name) => DoSaveCreating(v, p, name) == Some(u)
             case MakeDirectory => DoMakeDirectory(v, p) == Some(u)
             case LockNewPath => DoLockNewPath(v, p) == Some(u)
             case BindNew => DoBindNew(v, p) == Some(u)
             case SaveCreated => DoSaveCreated(v, p) == Some(u)
             case SeekDeletion(name, id) => DoSeekDeletion(v, p, name, id) == Some(u)
             case SeekRecovery(name, id) => DoSeekRecovery(v, p, name, id) == Some(u)
             case LockPath => DoLockPath(v, p) == Some(u)
             case LockIdentity => DoLockIdentity(v, p) == Some(u)
             case BindIdentity => DoBindIdentity(v, p) == Some(u)
             case Settle => DoSettle(v, p) == Some(u)
             case BeginDeletion => DoBeginDeletion(v, p) == Some(u)
             case MarkDeleting => DoMarkDeleting(v, p) == Some(u)
             case RemoveScope => DoRemoveScope(v, p) == Some(u)
             case RemoveEntry(entry) => DoRemoveEntry(v, p, entry) == Some(u)
             case RemoveLegacy => DoRemoveLegacy(v, p) == Some(u)
             case RemoveDirectory => DoRemoveDirectory(v, p) == Some(u)
             case SaveDeleted => DoSaveDeleted(v, p) == Some(u)
             case WriteState(state) => DoWriteState(v, p, state) == Some(u)
             case AddEntry(entry) => DoAddEntry(v, p, entry) == Some(u)
             case Stop => DoStop(v, p) == Some(u)
             case _ => false
    ensures Leads(w, u) && Apply(v, p, a) == Some(u)
  {
    hide Leads;
    LeadsStep(w, v, p, a, u);
  }

  /** The same durable state. */
  ghost predicate SameDisk(w: World, v: World) {
    v.records == w.records && v.bindings == w.bindings && v.dirs == w.dirs
  }

  /** Whoever holds the locks of `name` and `id` may crash, and `p` with them. */
  lemma EveryoneLetsGo(w: World, p: Pid, name: Name, id: Id) returns (v: World)
    ensures Leads(w, v) && SameDisk(w, v) && StageOf(v, p) == Idle && name !in v.pathOwner && id !in v.idOwner
  {
    hide Leads;
    v := w;
    LeadsSelf(w);
    if name in v.pathOwner {
      v := LetsGo(w, v, v.pathOwner[name]);
    }
    if id in v.idOwner {
      v := LetsGo(w, v, v.idOwner[id]);
    }
    v := LetsGo(w, v, p);
  }

  lemma LetsGo(w: World, u: World, p: Pid) returns (v: World)
    requires Leads(w, u) && SameDisk(w, u)
    ensures Leads(w, v) && SameDisk(w, v) && StageOf(v, p) == Idle
    ensures forall n | n in v.pathOwner :: n in u.pathOwner && u.pathOwner[n] != p && v.pathOwner[n] == u.pathOwner[n]
    ensures forall i | i in v.idOwner :: i in u.idOwner && u.idOwner[i] != p && v.idOwner[i] == u.idOwner[i]
  {
    hide Leads;
    v := DoStop(u, p).value;
    LeadsStep(w, u, p, Stop, v);
  }

  ghost predicate Deletable(w: World, id: Id) {
    id in w.records && w.records[id].phase == Deleting && w.records[id].name in w.dirs
  }

  function LeaseFor(w: World, id: Id): Lease
    requires id in w.bindings
  {
    Lease(id, w.bindings[id].path, w.bindings[id])
  }

  lemma DeletableBound(w: World, id: Id)
    requires Inv(w) && Deletable(w, id)
    ensures id in w.bindings && w.records[id] == Record(w.bindings[id].path, Some(w.bindings[id]), Deleting)
    ensures Current(w, w.bindings[id])
  {
    InvMeans(w, 0);
    assert RecordOk(w, id);
  }

  lemma PathLockedAgain(w: World, p: Pid, name: Name, id: Id) returns (v: World)
    requires id in w.records && w.records[id].name == name && name in w.dirs && name !in w.pathOwner &&
             StageOf(w, p) == Idle
    ensures Leads(w, v) && SameDisk(w, v) && v.idOwner == w.idOwner
    ensures StageOf(v, p) == PathLocked(name, w.dirs[name].inode, Deletion(id, Some(w.records[id])))
  {
    hide Leads, Apply;
    LeadsSelf(w);
    var w1 := DoSeekDeletion(w, p, name, id).value;
    Taken(w, p, SeekDeletion(name, id), w1, w);
    v := DoLockPath(w1, p).value;
    Taken(w1, p, LockPath, v, w);
  }

  lemma BoundAgain(w: World, p: Pid, name: Name, id: Id, seen: Record) returns (v: World)
    requires name in w.dirs && StageOf(w, p) == PathLocked(name, w.dirs[name].inode, Deletion(id, Some(seen))) &&
             id !in w.idOwner
    requires id in w.bindings && w.bindings[id] == Binding(name, w.dirs[name].inode)
    ensures Leads(w, v) && SameDisk(w, v) && StageOf(v, p) == Bound(LeaseFor(w, id), Deletion(id, Some(seen)))
  {
    hide Leads, Apply;
    LeadsSelf(w);
    var w1 := DoLockIdentity(w, p).value;
    Taken(w, p, LockIdentity, w1, w);
    v := DoBindIdentity(w1, p).value;
    Taken(w1, p, BindIdentity, v, w);
  }

  /** A tombstoned session whose locks are free can be locked again for its deletion. */
  lemma LockedAgain(w: World, p: Pid, id: Id) returns (v: World)
    requires Inv(w) && Deletable(w, id) && StageOf(w, p) == Idle
    requires w.records[id].name !in w.pathOwner && id !in w.idOwner
    ensures Leads(w, v) && SameDisk(w, v) && id in w.bindings && StageOf(v, p) == ForDeletion(LeaseFor(w, id))
  {
    hide Inv, Leads, Apply;
    DeletableBound(w, id);
    var r := w.records[id];
    var w1 := PathLockedAgain(w, p, r.name, id);
    var w2 := BoundAgain(w1, p, r.name, id, r);
    LeadsOn(w, w1, w2);
    v := DoSettle(w2, p).value;
    Taken(w2, p, Settle, v, w);
  }

  /** What removing a locked session leaves: the tombstone says deleted and the directory is gone. */
  ghost predicate RemovedFrom(w: World, v: World, lease: Lease) {
    && v.records == w.records[lease.id := Record(lease.name, Some(lease.binding), Deleted)]
    && v.dirs == w.dirs - {lease.name}
    && v.bindings == w.bindings
  }

  lemma {:induction false} EntriesRemoved(w: World, p: Pid, lease: Lease) returns (v: World)
    requires StageOf(w, p) == Removing(lease, ScopeGone) && lease.name in w.dirs
    ensures Leads(w, v) && lease.name in v.dirs && v.dirs[lease.name].others == {}
    ensures v == WithDirectory(w, lease.name, v.dirs[lease.name]).(stages := v.stages) && StageOf(v, p) == StageOf(w, p)
    decreases |w.dirs[lease.name].others|
  {
    hide Apply;
    LeadsSelf(w);
    var others := w.dirs[lease.name].others;
    if others == {} {
      assert w.dirs[lease.name := w.dirs[lease.name]] == w.dirs;
      v := w;
    } else {
      var entry :| entry in others;
      var u := DoRemoveEntry(w, p, entry).value;
      Taken(w, p, RemoveEntry(entry), u, w);
      assert u.dirs[lease.name].others == others - {entry};
      v := EntriesRemoved(u, p, lease);
      LeadsOn(w, u, v);
      assert v.dirs == w.dirs[lease.name := v.dirs[lease.name]];
    }
  }

  lemma {:induction false} AfterThen(w: World, steps: seq<Step>, v: World, more: seq<Step>, u: World)
    requires After(w, steps) == Some(v) && After(v, more) == Some(u)
    ensures After(w, steps + more) == Some(u)
    decreases |steps|
  {
    hide Apply;
    if steps == [] {
      assert steps + more == more;
    } else {
      var next := Apply(w, steps[0].pid, steps[0].action).value;
      AfterThen(next, steps[1..], v, more, u);
      assert (steps + more)[1..] == steps[1..] + more && (steps + more)[0] == steps[0];
    }
  }

  lemma LeadsOn(w: World, v: World, u: World)
    requires Leads(w, v) && Leads(v, u)
    ensures Leads(w, u)
  {
    hide After;
    var steps :| After(w, steps) == Some(v);
    var more :| After(v, more) == Some(u);
    AfterThen(w, steps, v, more, u);
  }

  /** An emptied directory is removed, which has still to be recorded. */
  lemma DirectoryRemoved(w: World, p: Pid, lease: Lease) returns (v: World)
    requires StageOf(w, p) == Removing(lease, ScopeGone) && lease.name in w.dirs && w.dirs[lease.name].others == {}
    ensures Leads(w, v) && StageOf(v, p) == Removing(lease, DirectoryGone)
    ensures v.records == w.records && v.bindings == w.bindings && v.dirs == w.dirs - {lease.name}
  {
    hide Leads, Apply;
    LeadsSelf(w);
    var w1 := DoRemoveLegacy(w, p).value;
    Taken(w, p, RemoveLegacy, w1, w);
    v := DoRemoveDirectory(w1, p).value;
    Taken(w1, p, RemoveDirectory, v, w);
    assert v.dirs == w.dirs - {lease.name};
  }

  /** The removal up to the point where the directory is gone. */
  lemma RemovedButUnrecorded(w: World, p: Pid, lease: Lease) returns (v: World)
    requires Held(StageOf(w, p)) == Some(lease) && lease.binding.path == lease.name && Current(w, lease.binding)
    requires TombstoneRecord(RecordOf(w, lease, Active), lease).Some?
    ensures Leads(w, v) && StageOf(v, p) == Removing(lease, DirectoryGone)
    ensures v.records == w.records[lease.id := Record(lease.name, Some(lease.binding), Deleting)]
    ensures v.bindings == w.bindings && v.dirs == w.dirs - {lease.name}
  {
    hide Leads, Apply, Held, TombstoneRecord, Current;
    var w1 := ScopeCleared(w, p, lease);
    var w2 := EntriesRemoved(w1, p, lease);
    LeadsOn(w, w1, w2);
    v := DirectoryRemoved(w2, p, lease);
    LeadsOn(w, w2, v);
    assert v.dirs == w.dirs - {lease.name};
  }

  lemma ScopeCleared(w: World, p: Pid, lease: Lease) returns (v: World)
    requires Held(StageOf(w, p)) == Some(lease) && lease.binding.path == lease.name && Current(w, lease.binding)
    requires TombstoneRecord(RecordOf(w, lease, Active), lease).Some?
    ensures Leads(w, v) && StageOf(v, p) == Removing(lease, ScopeGone)
    ensures v.records == w.records[lease.id := Record(lease.name, Some(lease.binding), Deleting)] &&
            v.bindings == w.bindings
    ensures lease.name in v.dirs && v.dirs == w.dirs[lease.name := v.dirs[lease.name]]
  {
    hide Leads, Apply;
    LeadsSelf(w);
    var w1 := DoMarkDeleting(w, p).value;
    Taken(w, p, MarkDeleting, w1, w);
    v := DoRemoveScope(w1, p).value;
    Taken(w1, p, RemoveScope, v, w);
  }

  /** Under a lease on a directory that is there, removal runs to its end. */
  lemma RemovalCompletes(w: World, p: Pid, lease: Lease) returns (v: World)
    requires Held(StageOf(w, p)) == Some(lease) && lease.binding.path == lease.name && Current(w, lease.binding)
    requires TombstoneRecord(RecordOf(w, lease, Active), lease).Some?
    ensures Leads(w, v) && RemovedFrom(w, v, lease)
  {
    hide Leads, Apply, Held, TombstoneRecord, Current;
    var w1 := RemovedButUnrecorded(w, p, lease);
    v := DoSaveDeleted(w1, p).value;
    Taken(w1, p, SaveDeleted, v, w);
  }

  ghost predicate DeletedIn(w: World, id: Id) {
    id in w.records && w.records[id].phase == Deleted
  }

  lemma DeletableCompletes(w: World, id: Id) returns (v: World)
    requires Inv(w) && Deletable(w, id)
    ensures Leads(w, v) && id in w.bindings && RemovedFrom(w, v, LeaseFor(w, id))
  {
    hide Inv, Leads, Apply, Current;
    DeletableBound(w, id);
    var w1 := EveryoneLetsGo(w, 0, w.records[id].name, id);
    LeadsKeeps(w, w1);
    var w2 := LockedAgain(w1, 0, id);
    LeadsOn(w, w1, w2);
    LeadsKeeps(w, w2);
    DeletableBound(w2, id);
    v := RemovalCompletes(w2, 0, LeaseFor(w, id));
    LeadsOn(w, w2, v);
  }

  lemma FinishingCompletes(w: World, p: Pid, id: Id) returns (v: World)
    requires Inv(w) && Finishing(w, p, id)
    ensures Leads(w, v) && DeletedIn(v, id)
  {
    hide Inv, Leads, Apply;
    LeadsSelf(w);
    v := DoSaveDeleted(w, p).value;
    Taken(w, p, SaveDeleted, v, w);
  }

  lemma StuckIsStuck(w: World, v: World, id: Id)
    requires Inv(w) && Stuck(w, id) && Leads(w, v)
    ensures !DeletedIn(v, id)
  {
    hide Inv, Apply, After;
    var steps :| After(w, steps) == Some(v);
    StuckForever(w, steps, v, id);
  }

  /** From any crash point a deletion can be completed if and only if the directory
      is still there, or its remover has still to record that it is gone. A process
      that dies between removing the directory and recording it leaves a session
      that stays marked for deletion for ever. */
  lemma DeletionCompletesIff(w: World, id: Id)
    requires Reachable(w) && id in w.records && w.records[id].phase == Deleting
    ensures (exists v :: Leads(w, v) && DeletedIn(v, id)) <==>
            (w.records[id].name in w.dirs || exists p :: Finishing(w, p, id))
  {
    hide Inv, Reachable, Leads, Finishing;
    ReachableHolds(w);
    if w.records[id].name in w.dirs {
      var v := DeletableCompletes(w, id);
      assert DeletedIn(v, id);
    } else if p :| Finishing(w, p, id) {
      var v := FinishingCompletes(w, p, id);
    } else {
      forall v | Leads(w, v)
        ensures !DeletedIn(v, id)
      {
        StuckIsStuck(w, v, id);
      }
    }
  }

  // ----- which of its contents a directory loses last ------------------------------------------

  /** Session state that could be read before the step cannot be read after it. */
  ghost predicate StateLost(w: World, v: World, name: Name) {
    name in w.dirs && Readable(w.dirs[name]) && (name in v.dirs ==> !Readable(v.dirs[name]))
  }

  /** The removal clears the content database of a directory that has no state file. */
  predicate ClearsOnlyCopy(w: World, p: Pid, a: Action, name: Name) {
    var stage := StageOf(w, p);
    a == RemoveScope && stage.Removing? && stage.progress == Marked && stage.lease.name == name && name in w.dirs &&
    w.dirs[name].stored.Some? && w.dirs[name].legacy.None?
  }

  lemma StateLostOnlyBy(w: World, p: Pid, a: Action, v: World, name: Name)
    requires Inv(w) && Apply(w, p, a) == Some(v) && name in w.dirs
    ensures StateLost(w, v, name) <==>
            ClearsOnlyCopy(w, p, a, name) ||
            (a == RemoveLegacy && StageOf(w, p).lease.name == name && w.dirs[name].legacy.Some?)
  {
    hide Inv, StageOk, Apply;
    if a == RemoveScope {
      InvMeans(w, p);
      ScopeLoses(w, p, v, name);
    } else if a == RemoveLegacy {
      InvMeans(w, p);
      LegacyLoses(w, p, v, name);
    } else if a == RemoveDirectory {
      InvMeans(w, p);
      DirectoryLoses(w, p, v, name);
    } else {
      OtherStepsLoseNothing(w, p, a, v, name);
    }
  }

  lemma ScopeLoses(w: World, p: Pid, v: World, name: Name)
    requires Apply(w, p, RemoveScope) == Some(v) && name in w.dirs
    ensures StateLost(w, v, name) <==> ClearsOnlyCopy(w, p, RemoveScope, name)
  {
  }

  lemma LegacyLoses(w: World, p: Pid, v: World, name: Name)
    requires StageOk(w, p) && Apply(w, p, RemoveLegacy) == Some(v) && name in w.dirs
    ensures StateLost(w, v, name) <==> StageOf(w, p).lease.name == name && w.dirs[name].legacy.Some?
  {
    hide NoOtherBound, NoOtherRecorded;
  }

  lemma DirectoryLoses(w: World, p: Pid, v: World, name: Name)
    requires StageOk(w, p) && Apply(w, p, RemoveDirectory) == Some(v) && name in w.dirs
    ensures !StateLost(w, v, name)
  {
    hide NoOtherBound, NoOtherRecorded;
  }

  lemma OtherStepsLoseNothing(w: World, p: Pid, a: Action, v: World, name: Name)
    requires Apply(w, p, a) == Some(v) && name in w.dirs && a != RemoveScope && a != RemoveLegacy &&
             a != RemoveDirectory
    ensures !StateLost(w, v, name)
  {
    if a == MakeDirectory || a.RemoveEntry? || a.WriteState? || a.AddEntry? {
      FillingLosesNothing(w, p, a, v, name);
    } else {
      DirectoriesStay(w, p, a, v);
    }
  }

  lemma FillingLosesNothing(w: World, p: Pid, a: Action, v: World, name: Name)
    requires Apply(w, p, a) == Some(v) && name in w.dirs &&
             (a == MakeDirectory || a.RemoveEntry? || a.WriteState? || a.AddEntry?)
    ensures !StateLost(w, v, name)
  {
  }

  predicate TouchesDirectories(a: Action) {
    match a
    case MakeDirectory => true
    case RemoveScope => true
    case RemoveEntry(_) => true
    case RemoveLegacy => true
    case RemoveDirectory => true
    case WriteState(_) => true
    case AddEntry(_) => true
    case _ => false
  }

  lemma DirectoriesStay(w: World, p: Pid, a: Action, v: World)
    requires Apply(w, p, a) == Some(v) && !TouchesDirectories(a)
    ensures v.dirs == w.dirs
  {
    hide NoOtherBound, NoOtherRecorded, OnlyRecoverable, Tombstoned, SeenBinding, Target, LoadOrCreateBinding, Current,
         Settled, CommittedRecord, FirstStateSaved, TombstoneRecord, RecordOf, DoSettle, DoCommit, DoBeginDeletion,
         DoMarkDeleting;
    SettleKeepsDirectories(w, p);
    CommitKeepsDirectories(w, p);
    MarkingKeepsDirectories(w, p);
  }

  lemma SettleKeepsDirectories(w: World, p: Pid)
    ensures var v := DoSettle(w, p); v.Some? ==> v.value.dirs == w.dirs
  {
    hide Settled;
  }

  lemma CommitKeepsDirectories(w: World, p: Pid)
    ensures var v := DoCommit(w, p); v.Some? ==> v.value.dirs == w.dirs
  {
    hide CommittedRecord, FirstStateSaved, RecordOf;
  }

  lemma MarkingKeepsDirectories(w: World, p: Pid)
    ensures var v := DoBeginDeletion(w, p); v.Some? ==> v.value.dirs == w.dirs
    ensures var v := DoMarkDeleting(w, p); v.Some? ==> v.value.dirs == w.dirs
  {
    hide TombstoneRecord, RecordOf, Current;
  }

  /** A state file outlives every other entry of its directory. State that is kept in
      the content database does not: it is cleared first, whatever else is left. */
  lemma StateOutlivesEntries(w: World, p: Pid, a: Action, v: World, name: Name)
    requires Reachable(w) && Apply(w, p, a) == Some(v) && name in w.dirs && w.dirs[name].others != {}
    ensures StateLost(w, v, name) <==> ClearsOnlyCopy(w, p, a, name)
  {
    hide Inv, Reachable, Apply, StateLost;
    ReachableHolds(w);
    StateLostOnlyBy(w, p, a, v, name);
    if a == RemoveLegacy {
      LegacyLast(w, p, v);
    }
  }

  lemma LegacyLast(w: World, p: Pid, v: World)
    requires Apply(w, p, RemoveLegacy) == Some(v)
    ensures StageOf(w, p).Removing? && StageOf(w, p).lease.name in w.dirs &&
            w.dirs[StageOf(w, p).lease.name].others == {}
  {
  }
}
