/** What a process that is not disturbed achieves: when creating a session and resuming one
    succeed, and what is on file afterwards. */
module SessionLife {
  import opened Text
  import opened SessionMachine
  import opened SessionInvariant
  import opened SessionSafety

  /** The world after `p` has taken the actions one after another, if it could. */
  ghost function Solo(w: World, p: Pid, actions: seq<Action>): Option<World>
    decreases |actions|
  {
    if actions == [] then Some(w)
    else
      var next := Apply(w, p, actions[0]);
      if next.None? then None else Solo(next.value, p, actions[1..])
  }

  function StepsOf(p: Pid, actions: seq<Action>): seq<Step> {
    seq(|actions|, i requires 0 <= i < |actions| => Step(p, actions[i]))
  }

  lemma {:induction false} SoloIsRun(w: World, p: Pid, actions: seq<Action>)
    ensures After(w, StepsOf(p, actions)) == Solo(w, p, actions)
    decreases |actions|
  {
    hide Apply;
    if actions != [] {
      var next := Apply(w, p, actions[0]);
      assert StepsOf(p, actions)[1..] == StepsOf(p, actions[1..]);
      if next.Some? {
        SoloIsRun(next.value, p, actions[1..]);
      }
    }
  }

  lemma {:induction false} SoloOn(w: World, p: Pid, a: seq<Action>, b: seq<Action>)
    ensures Solo(w, p, a + b) ==
            (var v := Solo(w, p, a); if v.None? then None else Solo(v.value, p, b))
    decreases |a|
  {
    hide Apply;
    if a == [] {
      assert a + b == b;
    } else {
      assert (a + b)[1..] == a[1..] + b;
      if Apply(w, p, a[0]).Some? {
        SoloOn(Apply(w, p, a[0]).value, p, a[1..], b);
      }
    }
  }

  lemma SoloOne(w: World, p: Pid, a: Action)
    ensures Solo(w, p, [a]) == Apply(w, p, a)
  {
    hide Apply;
    assert [a][1..] == [];
    if Apply(w, p, a).Some? {
      assert Solo(Apply(w, p, a).value, p, []) == Apply(w, p, a);
    }
  }

  lemma SoloTwo(w: World, p: Pid, a: Action, b: Action)
    ensures Solo(w, p, [a, b]) == (var v := Apply(w, p, a); if v.None? then None else Apply(v.value, p, b))
  {
    hide Apply, Solo;
    assert [a, b] == [a] + [b];
    SoloOn(w, p, [a], [b]);
    SoloOne(w, p, a);
    if Apply(w, p, a).Some? {
      SoloOne(Apply(w, p, a).value, p, b);
    }
  }

  // ----- what is on file ------------------------------------------------------------------------------

  /** The directory holds this state: in the content database, or, if nothing is there, in its file. */
  predicate Holds(dir: Directory, saved: Saved) {
    dir.stored == Some(saved) || (dir.stored.None? && dir.legacy == Some(saved))
  }

  /** The record is for this directory, and neither tombstoned nor bound otherwise. */
  predicate Live(r: Record, name: Name, b: Binding) {
    && r.name == name && (r.phase == Creating || r.phase == Active)
    && (r.binding == Some(b) || (r.binding == None && r.phase == Creating))
  }

  /** The record is for this directory, whatever its phase; only a session that is being created may be unbound. */
  predicate ForDirectory(r: Record, name: Name, b: Binding) {
    r.name == name && (r.binding == Some(b) || (r.binding == None && r.phase == Creating))
  }

  function Activated(records: map<Id, Record>, id: Id, name: Name, b: Binding): map<Id, Record> {
    if id in records && records[id].phase == Active then records else records[id := Record(name, Some(b), Active)]
  }

  // ----- committing ----------------------------------------------------------------------------------------

  /** Committing succeeds exactly when the bound directory is still there and holds the state of
      this very session, and the record is live; it leaves the record active. */
  lemma CommitIff(w: World, p: Pid, lease: Lease)
    requires StageOf(w, p) == Created(lease) || StageOf(w, p) == Committing(lease) || StageOf(w, p) == Resumed(lease)
    requires lease.binding.path == lease.name
    ensures var v := Apply(w, p, Commit);
            && (v.Some? <==>
                && lease.name in w.dirs && w.dirs[lease.name].inode == lease.binding.inode
                && Holds(w.dirs[lease.name], Saved(lease.id, Some(lease.binding)))
                && (lease.id in w.records ==> Live(w.records[lease.id], lease.name, lease.binding)))
            && (v.Some? ==>
                  v.value == At(w.(records := Activated(w.records, lease.id, lease.name, lease.binding)), p,
                                if StageOf(w, p).Created? then Created(lease) else Resumed(lease)))
  {
    assert Apply(w, p, Commit) == DoCommit(w, p);
    if lease.id in w.records && w.records[lease.id].phase == Creating {
      assert w.records[lease.id].(binding := Some(lease.binding), phase := Active) ==
             Record(w.records[lease.id].name, Some(lease.binding), Active);
    }
  }

  lemma WriteIs(w: World, p: Pid, lease: Lease, state: Saved)
    requires (StageOf(w, p) == Created(lease) || StageOf(w, p) == Resumed(lease)) && lease.name in w.dirs
    ensures Apply(w, p, WriteState(state)) ==
            Some(w.(dirs := w.dirs[lease.name := w.dirs[lease.name].(stored := Some(state))]))
  {
  }

  /** From every reachable world in which a process has created a session, saving the first
      state and committing makes the session active; with any other state it is refused. */
  lemma CreationActivates(w: World, p: Pid, state: Saved)
    requires Reachable(w) && StageOf(w, p).Created?
    ensures var lease := StageOf(w, p).lease;
            var v := Solo(w, p, [WriteState(state), Commit]);
            && (v.Some? <==> state == Saved(lease.id, Some(lease.binding)))
            && (v.Some? ==> v.value.records == w.records[lease.id := Record(lease.name, Some(lease.binding), Active)])
  {
    hide Apply, Reachable, Inv, Solo;
    var lease := StageOf(w, p).lease;
    ReachableHolds(w);
    CreatedIsLive(w, p);
    CreatedRecord(w, p);
    WriteIs(w, p, lease, state);
    SoloTwo(w, p, WriteState(state), Commit);
    CommitIff(Apply(w, p, WriteState(state)).value, p, lease);
    if lease.id in w.records && w.records[lease.id].phase == Active {
      assert w.records == w.records[lease.id := Record(lease.name, Some(lease.binding), Active)];
    }
  }

  lemma CreatedRecord(w: World, p: Pid)
    requires Inv(w) && StageOf(w, p).Created?
    ensures var lease := StageOf(w, p).lease;
            lease.id in w.records && w.records[lease.id].name == lease.name &&
            w.records[lease.id].binding == Some(lease.binding)
  {
    InvMeans(w, p);
  }

  /** Marking for deletion succeeds exactly when the bound directory is still there and the
      record is for it. */
  lemma MarkIff(w: World, p: Pid, lease: Lease)
    requires Held(StageOf(w, p)) == Some(lease) && lease.binding.path == lease.name
    ensures var v := Apply(w, p, MarkDeleting);
            v == if lease.name in w.dirs && w.dirs[lease.name].inode == lease.binding.inode &&
                    (lease.id in w.records ==> ForDirectory(w.records[lease.id], lease.name, lease.binding))
                 then Some(At(w.(records := w.records[lease.id := Record(lease.name, Some(lease.binding), Deleting)]),
                              p, Removing(lease, Marked)))
                 else None
  {
    assert Apply(w, p, MarkDeleting) == DoMarkDeleting(w, p);
    if lease.id in w.records {
      assert w.records[lease.id].(binding := Some(lease.binding), phase := Deleting) ==
             Record(w.records[lease.id].name, Some(lease.binding), Deleting);
    }
  }

  // ----- creating a session ------------------------------------------------------------------------------

  const CREATE := [MakeDirectory, LockNewPath, BindNew, SaveCreated]

  /** A session can be created under an identity and a name exactly when nothing is on file
      for either and both locks are free; then the record and the binding name the new
      directory, which is empty, and nothing else has changed. */
  lemma CreateIff(w: World, p: Pid, id: Id, name: Name)
    requires StageOf(w, p) == Idle
    ensures var v, b := Solo(w, p, [LockNewIdentity(id), SaveCreating(name)] + CREATE), Binding(name, w.nextInode);
            && (v.Some? <==> id !in w.idOwner && name !in w.pathOwner && id !in w.bindings && id !in w.records &&
                             name !in w.dirs && name !in w.used)
            && (v.Some? ==>
                  && StageOf(v.value, p) == Created(Lease(id, name, b))
                  && v.value.records == w.records[id := Record(name, Some(b), Creating)]
                  && v.value.bindings == w.bindings[id := b]
                  && v.value.dirs == w.dirs[name := Directory(w.nextInode, None, None, {})]
                  && v.value.idOwner == w.idOwner[id := p] && v.value.pathOwner == w.pathOwner[name := p])
  {
    hide Apply, Solo;
    SoloOn(w, p, [LockNewIdentity(id), SaveCreating(name)], CREATE);
    SoloTwo(w, p, LockNewIdentity(id), SaveCreating(name));
    BeginIs(w, p, id, name);
    var begun := Solo(w, p, [LockNewIdentity(id), SaveCreating(name)]);
    if begun.Some? {
      BuildIs(begun.value, p, id, name);
    }
  }

  lemma BeginIs(w: World, p: Pid, id: Id, name: Name)
    requires StageOf(w, p) == Idle
    ensures var v := Apply(w, p, LockNewIdentity(id));
            && (v.Some? <==> id !in w.idOwner)
            && (v.Some? ==>
                  Apply(v.value, p, SaveCreating(name)) ==
                  if id !in w.bindings && id !in w.records && name !in w.dirs && name !in w.used
                  then Some(At(w.(idOwner := w.idOwner[id := p], used := w.used + {name},
                                  records := w.records[id := Record(name, None, Creating)]), p, CreateSaved(id, name)))
                  else None)
  {
    StageTwice(w, p, CreateLocked(id), CreateSaved(id, name));
  }

  lemma StageTwice(w: World, p: Pid, a: Stage, b: Stage)
    ensures w.stages[p := a][p := b] == w.stages[p := b]
  {
  }

  lemma BuildIs(w: World, p: Pid, id: Id, name: Name)
    requires StageOf(w, p) == CreateSaved(id, name) && name !in w.dirs && id !in w.bindings
    ensures var v, b := Solo(w, p, CREATE), Binding(name, w.nextInode);
            && (v.Some? <==> name !in w.pathOwner)
            && (v.Some? ==>
                  && StageOf(v.value, p) == Created(Lease(id, name, b))
                  && v.value.records == w.records[id := Record(name, Some(b), Creating)]
                  && v.value.bindings == w.bindings[id := b]
                  && v.value.dirs == w.dirs[name := Directory(w.nextInode, None, None, {})]
                  && v.value.idOwner == w.idOwner && v.value.pathOwner == w.pathOwner[name := p])
  {
    hide Apply, Solo;
    assert CREATE == [MakeDirectory, LockNewPath] + [BindNew, SaveCreated];
    SoloOn(w, p, [MakeDirectory, LockNewPath], [BindNew, SaveCreated]);
    SoloTwo(w, p, MakeDirectory, LockNewPath);
    MadeIs(w, p, id, name);
    var made := Solo(w, p, [MakeDirectory, LockNewPath]);
    if made.Some? {
      SoloTwo(made.value, p, BindNew, SaveCreated);
      BoundIs(made.value, p, id, name);
    }
  }

  lemma MadeIs(w: World, p: Pid, id: Id, name: Name)
    requires StageOf(w, p) == CreateSaved(id, name) && name !in w.dirs
    ensures var v := Apply(w, p, MakeDirectory);
            && v.Some?
            && Apply(v.value, p, LockNewPath) ==
               if name !in w.pathOwner
               then Some(At(w.(dirs := w.dirs[name := Directory(w.nextInode, None, None, {})],
                               nextInode := w.nextInode + 1, pathOwner := w.pathOwner[name := p]), p,
                            CreatePath(id, name, w.nextInode)))
               else None
  {
    StageTwice(w, p, CreateMade(id, name), CreatePath(id, name, w.nextInode));
  }

  lemma BoundIs(w: World, p: Pid, id: Id, name: Name)
    requires StageOf(w, p).CreatePath? && StageOf(w, p).id == id && StageOf(w, p).name == name && id !in w.bindings
    requires name in w.dirs && w.dirs[name].inode == StageOf(w, p).inode
    ensures var v, b := Apply(w, p, BindNew), Binding(name, StageOf(w, p).inode);
            && v.Some?
            && Apply(v.value, p, SaveCreated) ==
               Some(At(w.(bindings := w.bindings[id := b], records := w.records[id := Record(name, Some(b), Creating)]),
                       p, Created(Lease(id, name, b))))
  {
    var lease := Lease(id, name, Binding(name, StageOf(w, p).inode));
    StageTwice(w, p, CreateBound(lease), Created(lease));
  }

  // ----- resuming a session ------------------------------------------------------------------------------

  const READS := [ReadRegisteredBinding]
  const LOCKS := [LockPath, CheckBindings, CheckRecords, CheckOwnRecord, LockIdentity]
  const RESUMES := [BindIdentity, Settle, Commit]

  /** The name of the directory a registered session is looked for under: that of the binding
      on file, or of the binding in its record, or of the record. */
  function Registered(w: World, id: Id): Option<Name> {
    if id in w.bindings then Some(w.bindings[id].path)
    else if id in w.records then
      Some(if w.records[id].binding.Some? then w.records[id].binding.value.path else w.records[id].name)
    else None
  }

  /** No other identity is bound to the directory or recorded for it. */
  ghost predicate OthersElsewhere(w: World, id: Id, name: Name) {
    && (forall j | j in w.bindings && j != id :: w.bindings[j].path != name)
    && (forall j | j in w.records && j != id ::
          w.records[j].name != name && forall b | w.records[j].binding == Some(b) :: b.path != name)
  }

  /** Nothing else names the directory, both locks are free, what is on file for the identity
      is live and names the directory as it is, and the directory holds the state of the session. */
  ghost predicate Resumable(w: World, id: Id, name: Name) {
    && name in w.dirs && name !in w.pathOwner && id !in w.idOwner
    && OthersElsewhere(w, id, name)
    && var b := Binding(name, w.dirs[name].inode);
       && (id in w.bindings ==> w.bindings[id] == b)
       && (id in w.records ==> Live(w.records[id], name, b))
       && Holds(w.dirs[name], Saved(id, Some(b)))
  }

  /** A registered session is resumed by a process on its own exactly when it is resumable; it
      is then active and bound, under both locks, and nothing else has changed. */
  lemma ResumeIff(w: World, p: Pid, id: Id)
    requires StageOf(w, p) == Idle
    ensures var v, name := Solo(w, p, [ReadRegisteredRecord(id)] + READS + LOCKS + RESUMES), Registered(w, id);
            && (v.Some? <==> name.Some? && Resumable(w, id, name.value))
            && (v.Some? ==>
                  var b := Binding(name.value, w.dirs[name.value].inode);
                  v.value == At(w.(records := Activated(w.records, id, name.value, b),
                                   bindings := w.bindings[id := b], idOwner := w.idOwner[id := p],
                                   pathOwner := w.pathOwner[name.value := p]),
                                p, Resumed(Lease(id, name.value, b))))
  {
    hide Apply, Solo, Registered, Resumable;
    assert [ReadRegisteredRecord(id)] + READS == [ReadRegisteredRecord(id), ReadRegisteredBinding];
    SoloOn(w, p, [ReadRegisteredRecord(id)] + READS + LOCKS, RESUMES);
    SoloOn(w, p, [ReadRegisteredRecord(id)] + READS, LOCKS);
    SoloTwo(w, p, ReadRegisteredRecord(id), ReadRegisteredBinding);
    ReadsIs(w, p, id);
    var sought := Solo(w, p, [ReadRegisteredRecord(id), ReadRegisteredBinding]);
    if sought.Some? {
      var name, goal := Registered(w, id).value, GoalFor(w, id);
      LocksIs(w, p, name, goal);
      var locked := Solo(At(w, p, Seeking(name, goal)), p, LOCKS);
      if locked.Some? {
        ResumesIs(w, p, name, id);
      }
    }
    ResumableMeans(w, id);
  }

  function GoalFor(w: World, id: Id): Goal {
    Goal.Registered(id, if id in w.records then Some(w.records[id]) else None,
                    if id in w.bindings then Some(w.bindings[id]) else None)
  }

  /** What is read first: a tombstone or a directory that is not the bound one ends it here. */
  predicate Seekable(w: World, id: Id) {
    && !Tombstoned(w, id) && Registered(w, id).Some?
    && (id in w.bindings ==> Current(w, w.bindings[id]))
    && (id !in w.bindings && w.records[id].binding.Some? ==> Current(w, w.records[id].binding.value))
  }

  lemma ReadsIs(w: World, p: Pid, id: Id)
    requires StageOf(w, p) == Idle
    ensures var v := Apply(w, p, ReadRegisteredRecord(id));
            (if v.None? then None else Apply(v.value, p, ReadRegisteredBinding)) ==
            if Seekable(w, id) then Some(At(w, p, Seeking(Registered(w, id).value, GoalFor(w, id)))) else None
  {
    if Seekable(w, id) {
      StageTwice(w, p, ReadRecord(id, GoalFor(w, id).seen), Seeking(Registered(w, id).value, GoalFor(w, id)));
    }
  }

  ghost predicate Lockable(w: World, id: Id, name: Name) {
    && name in w.dirs && name !in w.pathOwner && id !in w.idOwner
    && NoOtherBound(w, name, id) && NoOtherRecorded(w, name, id) && !Tombstoned(w, id)
    && (id in w.records ==> w.records[id].name == name &&
                            (w.records[id].binding.Some? ==> w.records[id].binding.value.path == name))
  }

  function Locked(w: World, p: Pid, id: Id, name: Name): World {
    w.(idOwner := w.idOwner[id := p], pathOwner := w.pathOwner[name := p])
  }

  lemma LocksIs(w: World, p: Pid, name: Name, goal: Goal)
    requires Resuming(goal)
    ensures Solo(At(w, p, Seeking(name, goal)), p, LOCKS) ==
            if Lockable(w, goal.id, name)
            then Some(At(Locked(w, p, goal.id, name), p, BothLocked(name, w.dirs[name].inode, goal))) else None
  {
    hide Apply, Solo, NoOtherBound, NoOtherRecorded, Tombstoned;
    var start := At(w, p, Seeking(name, goal));
    assert LOCKS == [LockPath] + ([CheckBindings, CheckRecords] + [CheckOwnRecord, LockIdentity]);
    SoloOn(start, p, [LockPath], [CheckBindings, CheckRecords] + [CheckOwnRecord, LockIdentity]);
    SoloOne(start, p, LockPath);
    PathLockIs(w, p, name, goal);
    if name in w.dirs && name !in w.pathOwner {
      var u := w.(pathOwner := w.pathOwner[name := p]);
      var inode := w.dirs[name].inode;
      var locked := At(u, p, PathLocked(name, inode, goal));
      SoloOn(locked, p, [CheckBindings, CheckRecords], [CheckOwnRecord, LockIdentity]);
      SoloTwo(locked, p, CheckBindings, CheckRecords);
      OthersAre(u, p, name, inode, goal);
      SameOthers(w, u, name, goal.id);
      var checked := At(u, p, OthersUnrecorded(name, inode, goal));
      SoloTwo(checked, p, CheckOwnRecord, LockIdentity);
      OwnIs(u, p, name, inode, goal);
    }
  }

  lemma SameOthers(w: World, u: World, name: Name, id: Id)
    requires u.records == w.records && u.bindings == w.bindings
    ensures NoOtherBound(u, name, id) == NoOtherBound(w, name, id)
    ensures NoOtherRecorded(u, name, id) == NoOtherRecorded(w, name, id) && Tombstoned(u, id) == Tombstoned(w, id)
  {
  }

  lemma PathLockIs(w: World, p: Pid, name: Name, goal: Goal)
    ensures Apply(At(w, p, Seeking(name, goal)), p, LockPath) ==
            if name in w.dirs && name !in w.pathOwner
            then Some(At(w.(pathOwner := w.pathOwner[name := p]), p, PathLocked(name, w.dirs[name].inode, goal)))
            else None
  {
    if name in w.dirs {
      StageTwice(w, p, Seeking(name, goal), PathLocked(name, w.dirs[name].inode, goal));
    }
  }

  lemma OthersAre(w: World, p: Pid, name: Name, inode: nat, goal: Goal)
    requires Resuming(goal)
    ensures var v := Apply(At(w, p, PathLocked(name, inode, goal)), p, CheckBindings);
            (if v.None? then None else Apply(v.value, p, CheckRecords)) ==
            if NoOtherBound(w, name, goal.id) && NoOtherRecorded(w, name, goal.id)
            then Some(At(w, p, OthersUnrecorded(name, inode, goal))) else None
  {
    StageTwice(w, p, PathLocked(name, inode, goal), OthersUnbound(name, inode, goal));
    StageTwice(w, p, OthersUnbound(name, inode, goal), OthersUnrecorded(name, inode, goal));
  }

  lemma OwnIs(w: World, p: Pid, name: Name, inode: nat, goal: Goal)
    ensures var id, v := goal.id, Apply(At(w, p, OthersUnrecorded(name, inode, goal)), p, CheckOwnRecord);
            (if v.None? then None else Apply(v.value, p, LockIdentity)) ==
            if !Tombstoned(w, id) && id !in w.idOwner &&
               (id in w.records ==> w.records[id].name == name &&
                                    (w.records[id].binding.Some? ==> w.records[id].binding.value.path == name))
            then Some(At(w.(idOwner := w.idOwner[id := p]), p, BothLocked(name, inode, goal))) else None
  {
    StageTwice(w, p, OthersUnrecorded(name, inode, goal), Clear(name, inode, goal));
    StageTwice(w, p, Clear(name, inode, goal), BothLocked(name, inode, goal));
  }

  /** What must hold of the files for the lease to be taken and kept. */
  predicate Kept(w: World, id: Id, name: Name)
    requires name in w.dirs
  {
    var b := Binding(name, w.dirs[name].inode);
    && (id in w.bindings ==> w.bindings[id] == b)
    && (id in w.records ==> Live(w.records[id], name, b))
    && Holds(w.dirs[name], Saved(id, Some(b)))
  }

  lemma ResumesIs(w: World, p: Pid, name: Name, id: Id)
    requires Lockable(w, id, name) && Seekable(w, id) && Registered(w, id) == Some(name)
    ensures var v, b := Solo(At(Locked(w, p, id, name), p, BothLocked(name, w.dirs[name].inode, GoalFor(w, id))), p,
                             RESUMES), Binding(name, w.dirs[name].inode);
            v == if Kept(w, id, name)
                 then Some(At(Locked(w, p, id, name).(records := Activated(w.records, id, name, b),
                                                      bindings := w.bindings[id := b]),
                              p, Resumed(Lease(id, name, b))))
                 else None
  {
    hide Apply, Solo, NoOtherBound, NoOtherRecorded;
    var u, b, goal := Locked(w, p, id, name), Binding(name, w.dirs[name].inode), GoalFor(w, id);
    var start := At(u, p, BothLocked(name, w.dirs[name].inode, goal));
    assert RESUMES == [BindIdentity] + [Settle, Commit];
    SoloOn(start, p, [BindIdentity], [Settle, Commit]);
    SoloOne(start, p, BindIdentity);
    BindIs(u, p, name, goal);
    if id in w.bindings ==> w.bindings[id] == b {
      var bound := At(u.(bindings := u.bindings[id := b]), p, Bound(Lease(id, name, b), goal));
      SoloTwo(bound, p, Settle, Commit);
      SettleIs(u.(bindings := u.bindings[id := b]), p, Lease(id, name, b), goal);
      CommitBound(u.(bindings := u.bindings[id := b]), p, Lease(id, name, b));
    }
  }

  lemma BindIs(w: World, p: Pid, name: Name, goal: Goal)
    requires name in w.dirs
    ensures var b, id := Binding(name, w.dirs[name].inode), goal.id;
            Apply(At(w, p, BothLocked(name, w.dirs[name].inode, goal)), p, BindIdentity) ==
            if id in w.bindings ==> w.bindings[id] == b
            then Some(At(w.(bindings := w.bindings[id := b]), p, Bound(Lease(id, name, b), goal))) else None
  {
    var b := Binding(name, w.dirs[name].inode);
    StageTwice(w, p, BothLocked(name, w.dirs[name].inode, goal), Bound(Lease(goal.id, name, b), goal));
    if goal.id in w.bindings && w.bindings[goal.id] == b {
      assert w.bindings[goal.id := b] == w.bindings;
    }
  }

  lemma SettleIs(w: World, p: Pid, lease: Lease, goal: Goal)
    requires goal.Registered? && lease.name in w.dirs
    ensures var b, dir := SeenBinding(goal.seen, goal.bound), w.dirs[lease.name];
            Apply(At(w, p, Bound(lease, goal)), p, Settle) ==
            if b.Some? && b.value != lease.binding then None
            else if goal.seen.Some? && goal.seen.value.phase == Creating && dir.stored.None? && dir.legacy.None?
            then Some(At(w, p, ForDeletion(lease)))
            else Some(At(w, p, Committing(lease)))
    ensures Apply(At(w, p, ForDeletion(lease)), p, Commit) == None
  {
    StageTwice(w, p, Bound(lease, goal), Committing(lease));
    StageTwice(w, p, Bound(lease, goal), ForDeletion(lease));
  }

  lemma CommitBound(w: World, p: Pid, lease: Lease)
    requires lease.binding.path == lease.name
    ensures var v := At(w, p, Committing(lease));
            Apply(v, p, Commit) ==
            if lease.name in w.dirs && w.dirs[lease.name].inode == lease.binding.inode &&
               Holds(w.dirs[lease.name], Saved(lease.id, Some(lease.binding))) &&
               (lease.id in w.records ==> Live(w.records[lease.id], lease.name, lease.binding))
            then Some(At(w.(records := Activated(w.records, lease.id, lease.name, lease.binding)), p, Resumed(lease)))
            else None
  {
    hide Apply;
    CommitIff(At(w, p, Committing(lease)), p, lease);
    StageTwice(w, p, Committing(lease), Resumed(lease));
  }

  lemma ResumableMeans(w: World, id: Id)
    ensures (exists name :: Registered(w, id) == Some(name) && Resumable(w, id, name)) <==>
            exists name :: Registered(w, id) == Some(name) && Seekable(w, id) && Lockable(w, id, name) &&
                           Kept(w, id, name)
  {
    forall name ensures OthersElsewhere(w, id, name) <==> NoOtherBound(w, name, id) && NoOtherRecorded(w, name, id) {
      ElsewhereMeans(w, id, name);
    }
  }

  lemma ElsewhereMeans(w: World, id: Id, name: Name)
    ensures OthersElsewhere(w, id, name) <==> NoOtherBound(w, name, id) && NoOtherRecorded(w, name, id)
  {
    if OthersElsewhere(w, id, name) {
      forall j | j in w.records && j != id && w.records[j].binding.Some?
        ensures w.records[j].binding.value.path != name
      {
        assert w.records[j].binding == Some(w.records[j].binding.value);
      }
    }
  }

  /** A session that is resumed by the path of its directory needs no record, but what is on
      file must not say otherwise; nothing is committed. */
  lemma ResumeByPathIff(w: World, p: Pid, id: Id, name: Name)
    requires StageOf(w, p) == Idle
    ensures var v := Solo(w, p, [SeekPath(name, id)] + LOCKS + [BindIdentity, Settle]);
            && (v.Some? <==>
                && name in w.dirs && name !in w.pathOwner && id !in w.idOwner && OthersElsewhere(w, id, name)
                && !Tombstoned(w, id)
                && (id in w.records ==> w.records[id].name == name &&
                                        forall b | w.records[id].binding == Some(b) :: b.path == name)
                && (id in w.bindings ==> w.bindings[id] == Binding(name, w.dirs[name].inode)))
            && (v.Some? ==>
                  var b := Binding(name, w.dirs[name].inode);
                  v.value == At(Locked(w, p, id, name).(bindings := w.bindings[id := b]), p,
                                Resumed(Lease(id, name, b))))
  {
    hide Apply, Solo, NoOtherBound, NoOtherRecorded;
    SoloOn(w, p, [SeekPath(name, id)] + LOCKS, [BindIdentity, Settle]);
    SoloOn(w, p, [SeekPath(name, id)], LOCKS);
    SoloOne(w, p, SeekPath(name, id));
    SeekPathIs(w, p, name, id);
    LocksIs(w, p, name, ByPath(id));
    ElsewhereMeans(w, id, name);
    if Lockable(w, id, name) {
      var u, b := Locked(w, p, id, name), Binding(name, w.dirs[name].inode);
      SoloTwo(At(u, p, BothLocked(name, b.inode, ByPath(id))), p, BindIdentity, Settle);
      BindIs(u, p, name, ByPath(id));
      SettleByPath(u.(bindings := w.bindings[id := b]), p, Lease(id, name, b));
    }
  }

  lemma SeekPathIs(w: World, p: Pid, name: Name, id: Id)
    requires StageOf(w, p) == Idle
    ensures Apply(w, p, SeekPath(name, id)) == Some(At(w, p, Seeking(name, ByPath(id))))
  {
  }

  lemma SettleByPath(w: World, p: Pid, lease: Lease)
    ensures Apply(At(w, p, Bound(lease, ByPath(lease.id))), p, Settle) == Some(At(w, p, Resumed(lease)))
  {
    StageTwice(w, p, Bound(lease, ByPath(lease.id)), Resumed(lease));
  }

  // ----- taking a session for deletion ----------------------------------------------------------------------

  const TAKES := [LockPath, LockIdentity, BindIdentity, Settle]

  /** The record is not bound to another directory. */
  predicate Unbound(r: Record, b: Binding) {
    r.binding.Some? ==> r.binding.value == b
  }

  lemma TakesIs(w: World, p: Pid, name: Name, goal: Goal)
    requires goal.Deletion? || goal.Recovery?
    ensures var id, v := goal.id, Solo(At(w, p, Seeking(name, goal)), p, TAKES);
            var free := name in w.dirs && name !in w.pathOwner && id !in w.idOwner;
            && (v.Some? <==>
                free && var b := Binding(name, w.dirs[name].inode);
                        (id in w.bindings ==> w.bindings[id] == b) &&
                        match goal
                        case Recovery(_, found) => Unbound(found, b)
                        case Deletion(_, seen) => seen.Some? ==> Unbound(seen.value, b)
                        case _ => true)
            && (v.Some? ==>
                  var b := Binding(name, w.dirs[name].inode);
                  v.value == At(Locked(w, p, id, name).(
                                  bindings := w.bindings[id := b],
                                  records := if goal.Recovery? && goal.found.binding.None?
                                             then w.records[id := goal.found.(binding := Some(b))] else w.records),
                                p, ForDeletion(Lease(id, name, b))))
  {
    hide Apply, Solo;
    var start, id := At(w, p, Seeking(name, goal)), goal.id;
    assert TAKES == [LockPath, LockIdentity] + [BindIdentity, Settle];
    SoloOn(start, p, [LockPath, LockIdentity], [BindIdentity, Settle]);
    SoloTwo(start, p, LockPath, LockIdentity);
    PathLockIs(w, p, name, goal);
    if name in w.dirs && name !in w.pathOwner {
      var u, b := w.(pathOwner := w.pathOwner[name := p]), Binding(name, w.dirs[name].inode);
      IdentityLockIs(u, p, name, w.dirs[name].inode, goal);
      if id !in w.idOwner {
        var l := Locked(w, p, id, name);
        SoloTwo(At(l, p, BothLocked(name, b.inode, goal)), p, BindIdentity, Settle);
        BindIs(l, p, name, goal);
        SettleTaken(l.(bindings := w.bindings[id := b]), p, Lease(id, name, b), goal);
      }
    }
  }

  lemma IdentityLockIs(w: World, p: Pid, name: Name, inode: nat, goal: Goal)
    requires goal.Deletion? || goal.Recovery?
    ensures Apply(At(w, p, PathLocked(name, inode, goal)), p, LockIdentity) ==
            if goal.id !in w.idOwner
            then Some(At(w.(idOwner := w.idOwner[goal.id := p]), p, BothLocked(name, inode, goal))) else None
  {
    StageTwice(w, p, PathLocked(name, inode, goal), BothLocked(name, inode, goal));
  }

  lemma SettleTaken(w: World, p: Pid, lease: Lease, goal: Goal)
    requires goal.Deletion? || goal.Recovery?
    ensures Apply(At(w, p, Bound(lease, goal)), p, Settle) ==
            match goal
            case Deletion(_, seen) =>
              if seen.Some? && !Unbound(seen.value, lease.binding) then None else Some(At(w, p, ForDeletion(lease)))
            case Recovery(_, found) =>
              if !Unbound(found, lease.binding) then None
              else if found.binding.Some? then Some(At(w, p, ForDeletion(lease)))
              else Some(At(w.(records := w.records[lease.id := found.(binding := Some(lease.binding))]), p,
                           ForDeletion(lease)))
            case _ => None
  {
    StageTwice(w, p, Bound(lease, goal), ForDeletion(lease));
  }

  /** A process on its own takes a session for deletion exactly when its record, if there is
      one, is for this directory, both locks are free, and neither binding on file names
      another directory. No record is written yet. */
  lemma DeletionTakenIff(w: World, p: Pid, id: Id, name: Name)
    requires StageOf(w, p) == Idle
    ensures var v := Solo(w, p, [SeekDeletion(name, id)] + TAKES);
            && (v.Some? <==>
                name in w.dirs && name !in w.pathOwner && id !in w.idOwner &&
                var b := Binding(name, w.dirs[name].inode);
                (id in w.bindings ==> w.bindings[id] == b) &&
                (id in w.records ==> w.records[id].name == name && Unbound(w.records[id], b)))
            && (v.Some? ==>
                  var b := Binding(name, w.dirs[name].inode);
                  v.value == At(Locked(w, p, id, name).(bindings := w.bindings[id := b]), p,
                                ForDeletion(Lease(id, name, b))))
  {
    hide Apply, Solo;
    SoloOn(w, p, [SeekDeletion(name, id)], TAKES);
    SoloOne(w, p, SeekDeletion(name, id));
    SeekIs(w, p, id, name);
    TakesIs(w, p, name, Deletion(id, if id in w.records then Some(w.records[id]) else None));
  }

  lemma SeekIs(w: World, p: Pid, id: Id, name: Name)
    requires StageOf(w, p) == Idle
    ensures Apply(w, p, SeekDeletion(name, id)) ==
            if id in w.records ==> w.records[id].name == name
            then Some(At(w, p, Seeking(name, Deletion(id, if id in w.records then Some(w.records[id]) else None))))
            else None
    ensures Apply(w, p, SeekRecovery(name, id)) ==
            if name in w.dirs && OnlyRecoverable(w, name, id)
            then Some(At(w, p, Seeking(name, Recovery(id, w.records[id])))) else None
  {
    hide OnlyRecoverable;
  }

  /** Recovery of a directory takes the one session that is recorded for it and not active,
      and writes its record, now bound, when it had not been. */
  lemma RecoveryTakenIff(w: World, p: Pid, id: Id, name: Name)
    requires StageOf(w, p) == Idle
    ensures var v := Solo(w, p, [SeekRecovery(name, id)] + TAKES);
            && (v.Some? <==>
                && name in w.dirs && name !in w.pathOwner && id !in w.idOwner
                && id in w.records && w.records[id].name == name && w.records[id].phase != Active
                && (forall j | j in w.records && w.records[j].name == name && w.records[j].phase != Active :: j == id)
                && var b := Binding(name, w.dirs[name].inode);
                   (id in w.bindings ==> w.bindings[id] == b) && Unbound(w.records[id], b))
            && (v.Some? ==>
                  var b := Binding(name, w.dirs[name].inode);
                  v.value == At(Locked(w, p, id, name).(
                                  bindings := w.bindings[id := b],
                                  records := w.records[id := w.records[id].(binding := Some(b))]),
                                p, ForDeletion(Lease(id, name, b))))
  {
    hide Apply, Solo;
    SoloOn(w, p, [SeekRecovery(name, id)], TAKES);
    SoloOne(w, p, SeekRecovery(name, id));
    SeekIs(w, p, id, name);
    if name in w.dirs && OnlyRecoverable(w, name, id) {
      TakesIs(w, p, name, Recovery(id, w.records[id]));
      if w.records[id].binding == Some(Binding(name, w.dirs[name].inode)) {
        assert w.records[id := w.records[id]] == w.records;
      }
    }
  }
}
