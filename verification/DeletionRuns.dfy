/** Runs that reach what a deletion cannot recover from, and what it does not keep to the last. */
module DeletionRuns {
  import opened Text
  import opened SessionMachine
  import opened SessionInvariant
  import opened SessionSafety
  import opened SessionDeletion
  import opened StaleRecoveryRun

  /** A process that sought to recover the abandoned session holds it for deletion. */
  lemma HeldForDeletion(id: Id, name: Name) returns (w: World)
    ensures Leads(EMPTY, w) && StageOf(w, 1) == ForDeletion(Lease(id, name, Binding(name, 0)))
    ensures w.records == map[id := Record(name, Some(Binding(name, 0)), Creating)] && Current(w, Binding(name, 0))
  {
    hide Leads, Apply, OwnsPath, OwnsId;
    var found := Record(name, None, Creating);
    var w0 := Abandoned(id, name);
    var w1 := Sought(w0, 1, id, name);
    var w2 := BoundBy(w1, 1, id, name, found);
    w := SettledBy(w2, Lease(id, name, Binding(name, 0)), found);
  }

  /** Settling a recovery writes the record it found, now bound. */
  lemma SettledBy(w: World, lease: Lease, found: Record) returns (v: World)
    requires Leads(EMPTY, w) && StageOf(w, 1) == Bound(lease, Recovery(lease.id, found)) && found.binding.None?
    ensures Leads(EMPTY, v) && StageOf(v, 1) == ForDeletion(lease) && v.dirs == w.dirs
    ensures v.records == w.records[lease.id := found.(binding := Some(lease.binding))]
  {
    hide Leads, Apply;
    v := DoSettle(w, 1).value;
    Taken(w, 1, Settle, v, EMPTY);
  }

  /** The process that removed the directory dies before it records that. */
  lemma DiesUnrecorded(w: World, p: Pid, lease: Lease) returns (v: World)
    requires Leads(EMPTY, w) && StageOf(w, p) == Removing(lease, DirectoryGone) && lease.name !in w.dirs
    requires lease.id in w.records && w.records[lease.id].phase == Deleting && w.records[lease.id].name == lease.name
    ensures Leads(EMPTY, v) && Stuck(v, lease.id)
  {
    hide Leads, Apply, Reachable;
    v := DoStop(w, p).value;
    Taken(w, p, Stop, v, EMPTY);
    FromEmpty(w);
    forall q ensures !Finishing(v, q, lease.id) {
      if q != p && Finishing(w, q, lease.id) {
        LeasesExclusive(w, p, q);
      }
    }
  }

  /** A session that is marked for deletion for ever can be reached, for every identity and name. */
  lemma StuckReached(id: Id, name: Name) returns (w: World)
    ensures Reachable(w) && Stuck(w, id)
  {
    hide Leads, Apply, Reachable, Stuck;
    var lease := Lease(id, name, Binding(name, 0));
    var w0 := HeldForDeletion(id, name);
    var w1 := RemovedButUnrecorded(w0, 1, lease);
    LeadsOn(EMPTY, w0, w1);
    w := DiesUnrecorded(w1, 1, lease);
    FromEmpty(w);
  }

  // ----- state that is cleared before other entries ----------------------------------------------

  lemma DirectoryMade(id: Id, name: Name) returns (w: World)
    ensures Leads(EMPTY, w) && StageOf(w, 0) == CreateMade(id, name) && name !in w.pathOwner && id !in w.bindings
    ensures name in w.dirs && w.dirs[name] == Directory(0, None, None, {})
  {
    hide Leads, Apply;
    LeadsSelf(EMPTY);
    var w1 := DoLockNewIdentity(EMPTY, 0, id).value;
    Taken(EMPTY, 0, LockNewIdentity(id), w1, EMPTY);
    var w2 := DoSaveCreating(w1, 0, name).value;
    Taken(w1, 0, SaveCreating(name), w2, EMPTY);
    w := DoMakeDirectory(w2, 0).value;
    Taken(w2, 0, MakeDirectory, w, EMPTY);
  }

  /** A process has created a session. */
  lemma CreatedBy(id: Id, name: Name) returns (w: World)
    ensures Leads(EMPTY, w) && StageOf(w, 0) == Created(Lease(id, name, Binding(name, 0)))
    ensures name in w.dirs && w.dirs[name] == Directory(0, None, None, {})
    ensures id in w.records && w.records[id] == Record(name, Some(Binding(name, 0)), Creating)
  {
    hide Leads, Apply;
    var w0 := DirectoryMade(id, name);
    var w1 := DoLockNewPath(w0, 0).value;
    Taken(w0, 0, LockNewPath, w1, EMPTY);
    var w2 := DoBindNew(w1, 0).value;
    Taken(w1, 0, BindNew, w2, EMPTY);
    w := DoSaveCreated(w2, 0).value;
    Taken(w2, 0, SaveCreated, w, EMPTY);
  }

  /** It has saved state and another entry. */
  lemma FilledBy(w: World, lease: Lease, state: Saved, entry: string) returns (v: World)
    requires Leads(EMPTY, w) && StageOf(w, 0) == Created(lease) && lease.name in w.dirs
    requires lease.id in w.records
    ensures Leads(EMPTY, v) && StageOf(v, 0) == StageOf(w, 0) && v.records == w.records
    ensures lease.name in v.dirs
    ensures v.dirs[lease.name] == w.dirs[lease.name].(stored := Some(state),
            others := w.dirs[lease.name].others + {entry})
  {
    hide Leads, Apply;
    var w1 := DoWriteState(w, 0, state).value;
    Taken(w, 0, WriteState(state), w1, EMPTY);
    v := DoAddEntry(w1, 0, entry).value;
    Taken(w1, 0, AddEntry(entry), v, EMPTY);
  }

  /** A removal that clears the only copy of the session state while another entry is left
      can be reached, for every identity and name. */
  lemma OnlyCopyClearedFirst(id: Id, name: Name) returns (w: World, v: World)
    ensures Reachable(w) && Apply(w, 0, RemoveScope) == Some(v) && ClearsOnlyCopy(w, 0, RemoveScope, name)
    ensures name in w.dirs && w.dirs[name].others != {} && StateLost(w, v, name)
  {
    hide Leads, Apply, Reachable;
    var lease := Lease(id, name, Binding(name, 0));
    var w0 := CreatedBy(id, name);
    var w1 := FilledBy(w0, lease, Saved(id, Some(lease.binding)), "notes");
    w := DoMarkDeleting(w1, 0).value;
    Taken(w1, 0, MarkDeleting, w, EMPTY);
    FromEmpty(w);
    assert "notes" in w.dirs[name].others;
    v := DoRemoveScope(w, 0).value;
    Taken(w, 0, RemoveScope, v, EMPTY);
  }
}
