/** Recovery may write a record it read before it held any lock. A run in which
    this takes a tombstone back. */
module StaleRecoveryRun {
  import opened Text
  import opened SessionMachine
  import opened SessionInvariant
  import opened SessionSafety
  import opened SessionDeletion

  const EMPTY := World(map[], map[], map[], map[], map[], map[], 0, {})

  lemma FromEmpty(w: World)
    requires Leads(EMPTY, w)
    ensures Reachable(w)
  {
    hide After;
    assert Initial(EMPTY);
  }

  /** A process creates the directory and dies before it is bound. */
  lemma Abandoned(id: Id, name: Name) returns (w: World)
    ensures Leads(EMPTY, w) && w.records == map[id := Record(name, None, Creating)] && w.bindings == map[]
    ensures name in w.dirs && w.dirs[name].inode == 0
    ensures w.pathOwner == map[] && w.idOwner == map[] && forall p :: StageOf(w, p) == Idle
  {
    hide Leads, Apply;
    LeadsSelf(EMPTY);
    var w1 := DoLockNewIdentity(EMPTY, 0, id).value;
    Taken(EMPTY, 0, LockNewIdentity(id), w1, EMPTY);
    var w2 := DoSaveCreating(w1, 0, name).value;
    Taken(w1, 0, SaveCreating(name), w2, EMPTY);
    var w3 := DoMakeDirectory(w2, 0).value;
    Taken(w2, 0, MakeDirectory, w3, EMPTY);
    w := DoStop(w3, 0).value;
    Taken(w3, 0, Stop, w, EMPTY);
  }

  lemma Sought(w: World, p: Pid, id: Id, name: Name) returns (v: World)
    requires Leads(EMPTY, w) && w.records == map[id := Record(name, None, Creating)] && name in w.dirs &&
             StageOf(w, p) == Idle
    ensures Leads(EMPTY, v) && v == At(w, p, Seeking(name, Recovery(id, Record(name, None, Creating))))
  {
    hide Leads, Apply;
    assert OnlyRecoverable(w, name, id);
    v := DoSeekRecovery(w, p, name, id).value;
    Taken(w, p, SeekRecovery(name, id), v, EMPTY);
  }

  lemma LockedBy(w: World, p: Pid, id: Id, name: Name, found: Record) returns (v: World)
    requires Leads(EMPTY, w) && StageOf(w, p) == Seeking(name, Recovery(id, found))
    requires name in w.dirs && name !in w.pathOwner && id !in w.idOwner
    ensures Leads(EMPTY, v) && OwnsPath(v, p, name) && OwnsId(v, p, id)
    ensures v == At(w.(pathOwner := v.pathOwner, idOwner := v.idOwner), p,
            BothLocked(name, w.dirs[name].inode, Recovery(id, found)))
  {
    hide Leads, Apply;
    var w1 := DoLockPath(w, p).value;
    Taken(w, p, LockPath, w1, EMPTY);
    v := DoLockIdentity(w1, p).value;
    Taken(w1, p, LockIdentity, v, EMPTY);
  }

  /** A process that seeks to recover takes both locks and binds the directory. */
  lemma BoundBy(w: World, p: Pid, id: Id, name: Name, found: Record) returns (v: World)
    requires Leads(EMPTY, w) && StageOf(w, p) == Seeking(name, Recovery(id, found))
    requires name in w.dirs && name !in w.pathOwner && id !in w.idOwner
    requires id in w.bindings ==> w.bindings[id] == Binding(name, w.dirs[name].inode)
    ensures Leads(EMPTY, v) && StageOf(v, p) ==
            Bound(Lease(id, name, Binding(name, w.dirs[name].inode)), Recovery(id, found))
    ensures v.records == w.records && v.dirs == w.dirs && id in v.bindings &&
            v.bindings[id] == Binding(name, w.dirs[name].inode)
    ensures forall q | q != p :: StageOf(v, q) == StageOf(w, q)
    ensures OwnsPath(v, p, name) && OwnsId(v, p, id)
  {
    hide Leads, Apply;
    var w1 := LockedBy(w, p, id, name, found);
    v := DoBindIdentity(w1, p).value;
    Taken(w1, p, BindIdentity, v, EMPTY);
  }

  /** It records the binding, marks the session deleted and dies. */
  lemma MarkedAndDead(w: World, p: Pid, lease: Lease, found: Record) returns (v: World)
    requires Leads(EMPTY, w) && StageOf(w, p) == Bound(lease, Recovery(lease.id, found))
    requires OwnsPath(w, p, lease.name) && OwnsId(w, p, lease.id)
    requires found == Record(lease.name, None, Creating) && Current(w, lease.binding) &&
             lease.binding.path == lease.name
    ensures Leads(EMPTY, v) && v.records == w.records[lease.id := Record(lease.name, Some(lease.binding), Deleting)]
    ensures v.dirs == w.dirs && v.bindings == w.bindings
    ensures forall q | q != p :: StageOf(v, q) == StageOf(w, q)
    ensures lease.name !in v.pathOwner && lease.id !in v.idOwner
  {
    hide Leads, Apply, ValidRecord, Matches;
    var w1 := DoSettle(w, p).value;
    Taken(w, p, Settle, w1, EMPTY);
    var w2 := Marked(w1, p, lease, found.(binding := Some(lease.binding)));
    v := Dies(w2, p, lease.name, lease.id);
  }

  lemma Dies(w: World, p: Pid, name: Name, id: Id) returns (v: World)
    requires Leads(EMPTY, w) && OwnsPath(w, p, name) && OwnsId(w, p, id)
    ensures Leads(EMPTY, v) && v.records == w.records && v.dirs == w.dirs && v.bindings == w.bindings
    ensures forall q | q != p :: StageOf(v, q) == StageOf(w, q)
    ensures name !in v.pathOwner && id !in v.idOwner
  {
    hide Leads, Apply;
    v := DoStop(w, p).value;
    Taken(w, p, Stop, v, EMPTY);
  }

  lemma Marked(w: World, p: Pid, lease: Lease, r: Record) returns (v: World)
    requires Leads(EMPTY, w) && StageOf(w, p) == ForDeletion(lease) && Current(w, lease.binding) &&
             lease.binding.path == lease.name
    requires lease.id in w.records && w.records[lease.id] == r && r == Record(lease.name, Some(lease.binding), Creating)
    ensures Leads(EMPTY, v) && v == At(Saving(w, lease.id, r.(phase := Deleting)), p, ForDeletion(lease))
  {
    hide Leads, Apply;
    v := DoBeginDeletion(w, p).value;
    Taken(w, p, BeginDeletion, v, EMPTY);
  }

  /** Two processes seek to recover the same abandoned session; one tombstones it and
      dies, and the other then writes what it had read. */
  lemma TombstoneTakenBack(id: Id, name: Name) returns (w: World, v: World)
    ensures Reachable(w) && Apply(w, 1, Settle) == Some(v) && StaleRecovery(w, 1, Settle, id)
    ensures w.records[id].phase == Deleting && v.records[id].phase == Creating
  {
    hide Leads, Apply, OwnsPath, OwnsId, DoSettle, StaleRecovery;
    var found := Record(name, None, Creating);
    var w0 := Abandoned(id, name);
    var w1 := Sought(w0, 1, id, name);
    assert StageOf(w0, 2) == Idle;
    var w2 := Sought(w1, 2, id, name);
    var w3 := BoundBy(w2, 2, id, name, found);
    var w4 := MarkedAndDead(w3, 2, Lease(id, name, Binding(name, 0)), found);
    w := BoundBy(w4, 1, id, name, found);
    FromEmpty(w);
    v := Revived(w, Lease(id, name, Binding(name, 0)), found);
  }

  lemma Revived(w: World, lease: Lease, found: Record) returns (v: World)
    requires Leads(EMPTY, w) && StageOf(w, 1) == Bound(lease, Recovery(lease.id, found)) && found.binding.None? &&
             found.phase == Creating
    requires lease.id in w.records && w.records[lease.id].phase == Deleting
    ensures Apply(w, 1, Settle) == Some(v) && StaleRecovery(w, 1, Settle, lease.id)
    ensures lease.id in v.records && v.records[lease.id].phase == Creating
  {
    hide Leads, Apply;
    v := DoSettle(w, 1).value;
    Taken(w, 1, Settle, v, EMPTY);
  }
}
