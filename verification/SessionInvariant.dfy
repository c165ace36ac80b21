/** What every step of the session machine keeps. Each step is shown to stay within
    what its own locks allow; what another process has established is then stable. */
module SessionInvariant {
  import opened Text
  import opened SessionMachine

  function PathHeld(stage: Stage): Option<Name> {
    match stage
    case CreatePath(_, name, _) => Some(name)
    case CreateBound(lease) => Some(lease.name)
    case Created(lease) => Some(lease.name)
    case PathLocked(name, _, _) => Some(name)
    case OthersUnbound(name, _, _) => Some(name)
    case OthersUnrecorded(name, _, _) => Some(name)
    case Clear(name, _, _) => Some(name)
    case BothLocked(name, _, _) => Some(name)
    case Bound(lease, _) => Some(lease.name)
    case Committing(lease) => Some(lease.name)
    case Resumed(lease) => Some(lease.name)
    case ForDeletion(lease) => Some(lease.name)
    case Removing(lease, _) => Some(lease.name)
    case _ => None
  }

  function IdHeld(stage: Stage): Option<Id> {
    match stage
    case CreateLocked(id) => Some(id)
    case CreateSaved(id, _) => Some(id)
    case CreateMade(id, _) => Some(id)
    case CreatePath(id, _, _) => Some(id)
    case CreateBound(lease) => Some(lease.id)
    case Created(lease) => Some(lease.id)
    case BothLocked(_, _, goal) => Some(goal.id)
    case Bound(lease, _) => Some(lease.id)
    case Committing(lease) => Some(lease.id)
    case Resumed(lease) => Some(lease.id)
    case ForDeletion(lease) => Some(lease.id)
    case Removing(lease, _) => Some(lease.id)
    case _ => None
  }

  /** The lease of a stage that has one. */
  function LeaseOf(stage: Stage): Option<Lease> {
    match stage
    case CreateBound(lease) => Some(lease)
    case Created(lease) => Some(lease)
    case Bound(lease, _) => Some(lease)
    case Committing(lease) => Some(lease)
    case Resumed(lease) => Some(lease)
    case ForDeletion(lease) => Some(lease)
    case Removing(lease, _) => Some(lease)
    case _ => None
  }

  /** The identity a stage is about. */
  function Subject(stage: Stage): Id {
    match stage
    case Idle => ""
    case CreateLocked(id) => id
    case CreateSaved(id, _) => id
    case CreateMade(id, _) => id
    case CreatePath(id, _, _) => id
    case ReadRecord(id, _) => id
    case Seeking(_, goal) => goal.id
    case PathLocked(_, _, goal) => goal.id
    case OthersUnbound(_, _, goal) => goal.id
    case OthersUnrecorded(_, _, goal) => goal.id
    case Clear(_, _, goal) => goal.id
    case BothLocked(_, _, goal) => goal.id
    case _ => LeaseOf(stage).value.id
  }

  ghost predicate LeaseBound(w: World, lease: Lease) {
    lease.binding.path == lease.name && lease.id in w.bindings && w.bindings[lease.id] == lease.binding
  }

  ghost predicate DirectoryThere(w: World, name: Name, inode: nat) {
    name in w.dirs && w.dirs[name].inode == inode
  }

  /** The identity is not tombstoned, or its tombstone is for another directory. */
  ghost predicate ClearAt(w: World, name: Name, id: Id) {
    Tombstoned(w, id) ==> id in w.bindings && w.bindings[id].path != name
  }

  ghost predicate Alone(w: World, name: Name, id: Id) {
    NoOtherBound(w, name, id) && NoOtherRecorded(w, name, id)
  }

  /** The record of a lease, bound and not tombstoned. */
  ghost predicate LiveRecord(r: Record, lease: Lease) {
    r.name == lease.name && r.binding == Some(lease.binding) && (r.phase == Creating || r.phase == Active)
  }

  ghost predicate RemovalOk(w: World, lease: Lease, progress: Progress) {
    && (progress.DirectoryGone? || progress.Finished? ==> lease.name !in w.dirs)
    && (progress.Marked? || progress.ScopeGone? || progress.LegacyGone? ==>
       DirectoryThere(w, lease.name, lease.binding.inode))
    && (progress.ScopeGone? || progress.LegacyGone? ==> lease.name in w.dirs && w.dirs[lease.name].stored.None?)
    && (progress.LegacyGone? ==> w.dirs[lease.name].others == {} && w.dirs[lease.name].legacy.None?)
    && lease.id in w.records
    && w.records[lease.id] == Record(lease.name, Some(lease.binding), if progress.Finished? then Deleted else Deleting)
  }

  ghost predicate GoalOk(name: Name, goal: Goal) {
    goal.Recovery? ==> goal.found.name == name && goal.found.phase != Active && ValidRecord(goal.found)
  }

  /** What a process has established by the stage it is in, besides its locks. */
  ghost predicate Established(w: World, stage: Stage) {
    match stage
    case Idle => true
    case CreateLocked(_) => true
    case CreateSaved(id, name) => CreatingOnly(w, id, name) && Unbuilt(w, name)
    case CreateMade(id, name) => CreatingOnly(w, id, name)
    case CreatePath(id, name, inode) => CreatingOnly(w, id, name) && DirectoryThere(w, name, inode)
    case CreateBound(lease) =>
      && LeaseBound(w, lease) && DirectoryThere(w, lease.name, lease.binding.inode)
      && lease.id in w.records && w.records[lease.id] == Record(lease.name, None, Creating)
    case Created(lease) =>
      && LeaseBound(w, lease) && DirectoryThere(w, lease.name, lease.binding.inode)
      && lease.id in w.records && LiveRecord(w.records[lease.id], lease)
    case ReadRecord(_, _) => true
    case Seeking(name, goal) => GoalOk(name, goal)
    case PathLocked(name, inode, goal) => DirectoryThere(w, name, inode) && GoalOk(name, goal)
    case OthersUnbound(name, inode, goal) => DirectoryThere(w, name, inode) && Resuming(goal) &&
        NoOtherBound(w, name, goal.id)
    case OthersUnrecorded(name, inode, goal) => DirectoryThere(w, name, inode) && Resuming(goal) &&
        Alone(w, name, goal.id)
    case Clear(name, inode, goal) =>
      DirectoryThere(w, name, inode) && Resuming(goal) && Alone(w, name, goal.id) && ClearAt(w, name, goal.id)
    case BothLocked(name, inode, goal) =>
      && DirectoryThere(w, name, inode) && GoalOk(name, goal)
      && (Resuming(goal) ==> Alone(w, name, goal.id) && ClearAt(w, name, goal.id))
    case Bound(lease, goal) =>
      && LeaseBound(w, lease) && DirectoryThere(w, lease.name, lease.binding.inode) && GoalOk(lease.name, goal)
      && goal.id == lease.id
      && (Resuming(goal) ==> Alone(w, lease.name, lease.id) && ClearAt(w, lease.name, lease.id))
    case Committing(lease) =>
      && LeaseBound(w, lease) && DirectoryThere(w, lease.name, lease.binding.inode)
      && Alone(w, lease.name, lease.id) && ClearAt(w, lease.name, lease.id)
    case Resumed(lease) =>
      && LeaseBound(w, lease) && DirectoryThere(w, lease.name, lease.binding.inode)
      && Alone(w, lease.name, lease.id) && ClearAt(w, lease.name, lease.id)
    case ForDeletion(lease) => LeaseBound(w, lease) && DirectoryThere(w, lease.name, lease.binding.inode)
    case Removing(lease, progress) => LeaseBound(w, lease) && RemovalOk(w, lease, progress)
  }

  /** A name that has been reserved by a record and by nothing else. */
  ghost predicate Unbuilt(w: World, name: Name) {
    name !in w.dirs && name !in w.pathOwner && forall j | j in w.bindings :: w.bindings[j].path != name
  }

  ghost predicate CreatingOnly(w: World, id: Id, name: Name) {
    && id in w.records && w.records[id] == Record(name, None, Creating) && id !in w.bindings && name in w.used
  }

  ghost predicate Locks(w: World, p: Pid, stage: Stage) {
    && (PathHeld(stage).Some? ==> PathHeld(stage).value in w.pathOwner && w.pathOwner[PathHeld(stage).value] == p)
    && (IdHeld(stage).Some? ==> IdHeld(stage).value in w.idOwner && w.idOwner[IdHeld(stage).value] == p)
  }

  ghost predicate StageOk(w: World, p: Pid) {
    Locks(w, p, StageOf(w, p)) && Established(w, StageOf(w, p))
  }

  ghost predicate RecordsOk(w: World) {
    forall i | i in w.records :: RecordOk(w, i)
  }

  ghost predicate RecordOk(w: World, i: Id)
    requires i in w.records
  {
    var r := w.records[i];
    && ValidRecord(r) && r.name in w.used
    && (r.binding.Some? ==> i in w.bindings && w.bindings[i] == r.binding.value)
    && (r.phase == Deleted ==> r.name !in w.dirs)
  }

  /** Records still without a directory have names of their own. */
  ghost predicate UnboundDistinct(w: World) {
    forall i, j | i in w.records && j in w.records && i != j && w.records[i].binding.None? &&
        w.records[j].binding.None? ::
      w.records[i].name != w.records[j].name
  }

  ghost predicate NamesUsed(w: World) {
    && (forall n | n in w.dirs :: n in w.used)
    && (forall n | n in w.pathOwner :: n in w.used)
    && (forall i | i in w.bindings :: w.bindings[i].path in w.used)
  }

  /** A bound directory that exists is the one that was bound: names are never built twice. */
  ghost predicate BindingsCurrent(w: World) {
    forall i | i in w.bindings && w.bindings[i].path in w.dirs :: w.dirs[w.bindings[i].path].inode ==
        w.bindings[i].inode
  }

  ghost predicate Global(w: World) {
    RecordsOk(w) && UnboundDistinct(w) && NamesUsed(w) && BindingsCurrent(w)
  }

  /** No lock outlives the stage that holds it. */
  ghost predicate Accounted(w: World) {
    && (forall n | n in w.pathOwner :: PathHeld(StageOf(w, w.pathOwner[n])) == Some(n))
    && (forall i | i in w.idOwner :: IdHeld(StageOf(w, w.idOwner[i])) == Some(i))
  }

  ghost predicate Inv(w: World) {
    Global(w) && Accounted(w) && forall p :: StageOk(w, p)
  }

  // ----- what one step may change ----------------------------------------------------

  /** The stages and locks of the others stay, and a path is locked only while its directory exists. */
  ghost predicate OthersStay(w: World, v: World, p: Pid) {
    && (forall q | q != p :: StageOf(v, q) == StageOf(w, q))
    && (forall n | n in w.pathOwner && w.pathOwner[n] != p :: n in v.pathOwner && v.pathOwner[n] == w.pathOwner[n])
    && (forall i | i in w.idOwner && w.idOwner[i] != p :: i in v.idOwner && v.idOwner[i] == w.idOwner[i])
    && (forall n | n in v.pathOwner :: n in w.pathOwner || n in w.dirs)
    && v.used >= w.used
  }

  /** No lock appears but those that go with the new stage of `p`. */
  ghost predicate OwnOnly(w: World, v: World, p: Pid) {
    && (forall n | n in v.pathOwner && v.pathOwner[n] != p :: n in w.pathOwner && w.pathOwner[n] == v.pathOwner[n])
    && (forall i | i in v.idOwner && v.idOwner[i] != p :: i in w.idOwner && w.idOwner[i] == v.idOwner[i])
    && (forall n | n in v.pathOwner && v.pathOwner[n] == p :: PathHeld(StageOf(v, p)) == Some(n))
    && (forall i | i in v.idOwner && v.idOwner[i] == p :: IdHeld(StageOf(v, p)) == Some(i))
  }

  ghost predicate OthersKept(w: World, v: World, p: Pid) {
    OthersStay(w, v, p) && OwnOnly(w, v, p)
  }

  ghost predicate OwnsId(w: World, p: Pid, id: Id) {
    id in w.idOwner && w.idOwner[id] == p
  }

  ghost predicate OwnsPath(w: World, p: Pid, name: Name) {
    name in w.pathOwner && w.pathOwner[name] == p
  }

  /** Only stages and locks change. */
  ghost predicate Local(w: World, v: World, p: Pid) {
    OthersKept(w, v, p) && v.records == w.records && v.bindings == w.bindings && v.dirs == w.dirs
  }

  lemma LocalStable(w: World, v: World, p: Pid, q: Pid)
    requires Global(w) && Local(w, v, p) && StageOk(w, q) && q != p
    ensures StageOk(v, q)
  {
    hide OwnOnly;
  }

  lemma LocalGlobal(w: World, v: World, p: Pid)
    requires Global(w) && Local(w, v, p)
    ensures Global(v)
  {
    hide OwnOnly;
  }

  /** One record is written, under its identity lock, for the path that is held or for a fresh name. */
  ghost predicate Saves(w: World, v: World, p: Pid, id: Id, r: Record) {
    && OthersKept(w, v, p) && v.records == w.records[id := r] && v.bindings == w.bindings && v.dirs == w.dirs
    && OwnsId(w, p, id) && ValidRecord(r) && r.name in v.used
    && (r.binding.Some? ==> id in w.bindings && w.bindings[id] == r.binding.value && OwnsPath(w, p, r.name))
    && (r.binding.None? ==> r.name !in w.used && id !in w.records)
    && (r.phase == Deleted ==> r.name !in w.dirs)
  }

  /** What others found out about the path they hold stays true. */
  lemma SavesFindings(w: World, v: World, p: Pid, id: Id, r: Record, q: Pid, name: Name, i: Id)
    requires Global(w) && Saves(w, v, p, id, r) && q != p && OwnsPath(w, q, name)
    ensures NoOtherBound(w, name, i) ==> NoOtherBound(v, name, i)
    ensures NoOtherRecorded(w, name, i) ==> NoOtherRecorded(v, name, i)
    ensures ClearAt(w, name, i) ==> ClearAt(v, name, i)
  {
    hide OwnOnly;
  }

  lemma SavesStable(w: World, v: World, p: Pid, id: Id, r: Record, q: Pid)
    requires Global(w) && Saves(w, v, p, id, r) && StageOk(w, q) && q != p
    ensures StageOk(v, q)
  {
    hide OwnOnly, NoOtherBound, NoOtherRecorded, ClearAt, ValidRecord, RecordsOk, BindingsCurrent;
    if PathHeld(StageOf(w, q)).Some? {
      SavesFindings(w, v, p, id, r, q, PathHeld(StageOf(w, q)).value, Subject(StageOf(w, q)));
    }
  }

  lemma SavesGlobal(w: World, v: World, p: Pid, id: Id, r: Record)
    requires Global(w) && Saves(w, v, p, id, r)
    ensures Global(v)
  {
    hide OwnOnly;
  }

  /** A binding is put on file, under both locks. */
  ghost predicate Binds(w: World, v: World, p: Pid, id: Id, b: Binding) {
    && OthersKept(w, v, p) && v.records == w.records && v.dirs == w.dirs
    && (v.bindings == w.bindings || (id !in w.bindings && v.bindings == w.bindings[id := b]))
    && OwnsId(w, p, id) && OwnsPath(w, p, b.path) && DirectoryThere(w, b.path, b.inode)
  }

  lemma BindsFindings(w: World, v: World, p: Pid, id: Id, b: Binding, q: Pid, name: Name, i: Id)
    requires Global(w) && Binds(w, v, p, id, b) && q != p && OwnsPath(w, q, name)
    ensures NoOtherBound(w, name, i) ==> NoOtherBound(v, name, i)
    ensures NoOtherRecorded(w, name, i) ==> NoOtherRecorded(v, name, i)
    ensures ClearAt(w, name, i) ==> ClearAt(v, name, i)
  {
    hide OwnOnly;
  }

  lemma BindsStable(w: World, v: World, p: Pid, id: Id, b: Binding, q: Pid)
    requires Global(w) && Binds(w, v, p, id, b) && StageOk(w, q) && q != p
    ensures StageOk(v, q)
  {
    hide OwnOnly, NoOtherBound, NoOtherRecorded, ClearAt;
    if PathHeld(StageOf(w, q)).Some? {
      BindsFindings(w, v, p, id, b, q, PathHeld(StageOf(w, q)).value, Subject(StageOf(w, q)));
    }
  }

  lemma BindsGlobal(w: World, v: World, p: Pid, id: Id, b: Binding)
    requires Global(w) && Binds(w, v, p, id, b)
    ensures Global(v)
  {
    hide OwnOnly;
  }

  /** A directory is made for a record that has none. */
  ghost predicate Makes(w: World, v: World, p: Pid, id: Id, name: Name) {
    && OthersKept(w, v, p) && v.records == w.records && v.bindings == w.bindings
    && OwnsId(w, p, id) && CreatingOnly(w, id, name) && Unbuilt(w, name)
    && v.pathOwner == w.pathOwner
    && name in v.dirs && v.dirs == w.dirs[name := v.dirs[name]]
  }

  lemma MakesStable(w: World, v: World, p: Pid, id: Id, name: Name, q: Pid)
    requires Global(w) && Makes(w, v, p, id, name) && StageOk(w, q) && q != p
    ensures StageOk(v, q)
  {
    hide OwnOnly;
  }

  lemma MakesGlobal(w: World, v: World, p: Pid, id: Id, name: Name)
    requires Global(w) && Makes(w, v, p, id, name)
    ensures Global(v)
  {
    hide OwnOnly;
  }

  /** The held directory changes what it contains. */
  ghost predicate Fills(w: World, v: World, p: Pid, name: Name) {
    && OthersKept(w, v, p) && v.records == w.records && v.bindings == w.bindings
    && OwnsPath(w, p, name) && name in w.dirs && name in v.dirs && v.dirs[name].inode == w.dirs[name].inode
    && v.dirs == w.dirs[name := v.dirs[name]]
  }

  lemma FillsStable(w: World, v: World, p: Pid, name: Name, q: Pid)
    requires Global(w) && Fills(w, v, p, name) && StageOk(w, q) && q != p
    ensures StageOk(v, q)
  {
    hide OwnOnly;
  }

  lemma FillsGlobal(w: World, v: World, p: Pid, name: Name)
    requires Global(w) && Fills(w, v, p, name)
    ensures Global(v)
  {
    hide OwnOnly;
  }

  /** The held directory is removed. */
  ghost predicate Removes(w: World, v: World, p: Pid, name: Name) {
    && OthersKept(w, v, p) && v.records == w.records && v.bindings == w.bindings
    && OwnsPath(w, p, name) && v.dirs == w.dirs - {name}
  }

  lemma RemovesStable(w: World, v: World, p: Pid, name: Name, q: Pid)
    requires Global(w) && Removes(w, v, p, name) && StageOk(w, q) && q != p
    ensures StageOk(v, q)
  {
    hide OwnOnly;
  }

  lemma RemovesGlobal(w: World, v: World, p: Pid, name: Name)
    requires Global(w) && Removes(w, v, p, name)
    ensures Global(v)
  {
    hide OwnOnly;
  }

  // ----- what each action changes --------------------------------------------------------

  /** What an action changes besides locks and stages. */
  datatype Change =
    | Nothing
    | SaveRecord(id: Id, record: Record)
    | PutBinding(id: Id, binding: Binding)
    | MakeDir(id: Id, name: Name)
    | FillDir(name: Name)
    | RemoveDir(name: Name)

  ghost predicate Within(w: World, v: World, p: Pid, c: Change) {
    match c
    case Nothing => Local(w, v, p)
    case SaveRecord(id, r) => Saves(w, v, p, id, r)
    case PutBinding(id, b) => Binds(w, v, p, id, b)
    case MakeDir(id, name) => Makes(w, v, p, id, name)
    case FillDir(name) => Fills(w, v, p, name)
    case RemoveDir(name) => Removes(w, v, p, name)
  }

  lemma WithinStable(w: World, v: World, p: Pid, c: Change, q: Pid)
    requires Global(w) && Within(w, v, p, c) && StageOk(w, q) && q != p
    ensures StageOk(v, q)
  {
    hide Global, Local, Saves, Binds, Makes, Fills, Removes, StageOk;
    match c
    case Nothing => LocalStable(w, v, p, q);
    case SaveRecord(id, r) => SavesStable(w, v, p, id, r, q);
    case PutBinding(id, b) => BindsStable(w, v, p, id, b, q);
    case MakeDir(id, name) => MakesStable(w, v, p, id, name, q);
    case FillDir(name) => FillsStable(w, v, p, name, q);
    case RemoveDir(name) => RemovesStable(w, v, p, name, q);
  }

  lemma WithinGlobal(w: World, v: World, p: Pid, c: Change)
    requires Global(w) && Within(w, v, p, c)
    ensures Global(v)
  {
    hide Global, Local, Saves, Binds, Makes, Fills, Removes;
    match c
    case Nothing => LocalGlobal(w, v, p);
    case SaveRecord(id, r) => SavesGlobal(w, v, p, id, r);
    case PutBinding(id, b) => BindsGlobal(w, v, p, id, b);
    case MakeDir(id, name) => MakesGlobal(w, v, p, id, name);
    case FillDir(name) => FillsGlobal(w, v, p, name);
    case RemoveDir(name) => RemovesGlobal(w, v, p, name);
  }

  lemma WithinOthers(w: World, v: World, p: Pid, c: Change)
    requires Within(w, v, p, c)
    ensures OthersKept(w, v, p)
  {
    hide OthersKept;
  }

  lemma WithinAccounted(w: World, v: World, p: Pid, c: Change)
    requires Accounted(w) && Within(w, v, p, c)
    ensures Accounted(v)
  {
    hide Within;
    WithinOthers(w, v, p, c);
  }

  lemma WithinKeeps(w: World, v: World, p: Pid, c: Change)
    requires Inv(w) && Within(w, v, p, c) && StageOk(v, p)
    ensures Inv(v)
  {
    hide Global, Within, StageOk, Accounted;
    WithinGlobal(w, v, p, c);
    WithinAccounted(w, v, p, c);
    forall q ensures StageOk(v, q) {
      if q != p {
        assert StageOk(w, q);
        WithinStable(w, v, p, c, q);
      }
    }
  }

  /** What the action of `p` changes, read off its stage. */
  function ChangeOf(w: World, p: Pid, a: Action): Change {
    var stage := StageOf(w, p);
    match a
    case SaveCreating(name) => if stage.CreateLocked? then SaveRecord(stage.id, Record(name, None, Creating))
        else Nothing
    case MakeDirectory => if stage.CreateSaved? then MakeDir(stage.id, stage.name) else Nothing
    case BindNew => if stage.CreatePath? then PutBinding(stage.id, Binding(stage.name, stage.inode)) else Nothing
    case SaveCreated =>
      if stage.CreateBound? then SaveRecord(stage.lease.id,
          Record(stage.lease.name, Some(stage.lease.binding), Creating)) else Nothing
    case BindIdentity => if stage.BothLocked? then PutBinding(stage.goal.id, Binding(stage.name, stage.inode))
        else Nothing
    case Settle =>
      if stage.Bound? && WritesFound(stage.goal)
      then SaveRecord(stage.lease.id, stage.goal.found.(binding := Some(stage.lease.binding))) else Nothing
    case Commit =>
      if Held(stage).Some? && RecordOf(w, stage.lease, Creating).phase == Creating
      then SaveRecord(stage.lease.id, Record(stage.lease.name, Some(stage.lease.binding), Active)) else Nothing
    case BeginDeletion => if Held(stage).Some?
        then SaveRecord(stage.lease.id, Record(stage.lease.name, Some(stage.lease.binding), Deleting)) else Nothing
    case MarkDeleting => if Held(stage).Some?
        then SaveRecord(stage.lease.id, Record(stage.lease.name, Some(stage.lease.binding), Deleting)) else Nothing
    case SaveDeleted => if stage.Removing?
        then SaveRecord(stage.lease.id, Record(stage.lease.name, Some(stage.lease.binding), Deleted)) else Nothing
    case RemoveScope => if stage.Removing? then FillDir(stage.lease.name) else Nothing
    case RemoveEntry(_) => if stage.Removing? then FillDir(stage.lease.name) else Nothing
    case RemoveLegacy => if stage.Removing? then FillDir(stage.lease.name) else Nothing
    case WriteState(_) => if Writing(stage) then FillDir(stage.lease.name) else Nothing
    case AddEntry(_) => if Writing(stage) then FillDir(stage.lease.name) else Nothing
    case RemoveDirectory => if stage.Removing? then RemoveDir(stage.lease.name) else Nothing
    case _ => Nothing
  }

  /** The process takes no more than its action allows and ends in a stage that holds. */
  ghost predicate Proper(w: World, v: World, p: Pid, a: Action) {
    Within(w, v, p, ChangeOf(w, p, a)) && StageOk(v, p)
  }

  /** A step that takes and gives back no lock leaves the others alone. */
  lemma SameLocks(w: World, v: World, p: Pid)
    requires Accounted(w) && v.pathOwner == w.pathOwner && v.idOwner == w.idOwner && v.used >= w.used
    requires v.stages == w.stages || v.stages == w.stages[p := StageOf(v, p)]
    requires PathHeld(StageOf(v, p)) == PathHeld(StageOf(w, p)) && IdHeld(StageOf(v, p)) == IdHeld(StageOf(w, p))
    ensures OthersKept(w, v, p)
  {
  }

  lemma InvMeans(w: World, p: Pid)
    requires Inv(w)
    ensures Global(w) && Accounted(w) && StageOk(w, p)
  {
  }

  lemma UnpackStage(w: World, p: Pid)
    requires StageOk(w, p)
    ensures Established(w, StageOf(w, p)) && Locks(w, p, StageOf(w, p))
  {
  }

  /** What a stage has established does not depend on who holds identity locks. */
  lemma SameEstablished(w: World, v: World, stage: Stage)
    requires v.records == w.records && v.bindings == w.bindings && v.dirs == w.dirs && v.used == w.used
    requires stage.CreateSaved? ==> v.pathOwner == w.pathOwner
    requires Established(w, stage)
    ensures Established(v, stage)
  {
  }

  lemma MoveLocal(w: World, p: Pid, stage: Stage)
    requires Accounted(w) && PathHeld(stage) == PathHeld(StageOf(w, p)) && IdHeld(stage) == IdHeld(StageOf(w, p))
    ensures Local(w, At(w, p, stage), p)
  {
  }

  lemma MoveStage(w: World, p: Pid, stage: Stage)
    requires Inv(w) && Established(w, stage)
    requires PathHeld(stage) == PathHeld(StageOf(w, p)) && IdHeld(stage) == IdHeld(StageOf(w, p))
    ensures Local(w, At(w, p, stage), p) && StageOk(At(w, p, stage), p)
  {
    hide Inv, Established, Accounted, Local, Global;
    InvMeans(w, p);
    MoveLocal(w, p, stage);
    SameEstablished(w, At(w, p, stage), stage);
  }

  lemma TakePath(w: World, p: Pid, name: Name, stage: Stage)
    requires Accounted(w) && name !in w.pathOwner && name in w.dirs
    requires PathHeld(StageOf(w, p)) == None && PathHeld(stage) == Some(name) && IdHeld(stage) == IdHeld(StageOf(w, p))
    ensures Local(w, At(w.(pathOwner := w.pathOwner[name := p]), p, stage), p)
  {
  }

  lemma TakePathStage(w: World, p: Pid, name: Name, stage: Stage)
    requires Inv(w) && name !in w.pathOwner && name in w.dirs && Established(w, stage)
    requires PathHeld(StageOf(w, p)) == None && PathHeld(stage) == Some(name) && IdHeld(stage) == IdHeld(StageOf(w, p))
    ensures var v := At(w.(pathOwner := w.pathOwner[name := p]), p, stage); Local(w, v, p) && StageOk(v, p)
  {
    hide Inv, Established, Accounted, Local, Global;
    InvMeans(w, p);
    TakePath(w, p, name, stage);
    SameEstablished(w, At(w.(pathOwner := w.pathOwner[name := p]), p, stage), stage);
  }

  lemma TakeId(w: World, p: Pid, id: Id, stage: Stage)
    requires Accounted(w) && id !in w.idOwner
    requires IdHeld(StageOf(w, p)) == None && IdHeld(stage) == Some(id) && PathHeld(stage) == PathHeld(StageOf(w, p))
    ensures Local(w, At(w.(idOwner := w.idOwner[id := p]), p, stage), p)
  {
  }

  lemma TakeIdStage(w: World, p: Pid, id: Id, stage: Stage)
    requires Inv(w) && id !in w.idOwner && Established(w, stage)
    requires IdHeld(StageOf(w, p)) == None && IdHeld(stage) == Some(id) && PathHeld(stage) == PathHeld(StageOf(w, p))
    ensures var v := At(w.(idOwner := w.idOwner[id := p]), p, stage); Local(w, v, p) && StageOk(v, p)
  {
    hide Inv, Established, Accounted, Local, Global;
    InvMeans(w, p);
    TakeId(w, p, id, stage);
    SameEstablished(w, At(w.(idOwner := w.idOwner[id := p]), p, stage), stage);
  }

  lemma LockNewIdentityProper(w: World, p: Pid, id: Id, v: World)
    requires Inv(w) && DoLockNewIdentity(w, p, id) == Some(v)
    ensures Proper(w, v, p, LockNewIdentity(id))
  {
    hide Inv, Accounted, Local, NoOtherBound, NoOtherRecorded, StageOk;
    InvMeans(w, p);
    UnpackStage(w, p);
    TakeIdStage(w, p, id, StageOf(v, p));
  }

  lemma SaveCreatingProper(w: World, p: Pid, name: Name, v: World)
    requires Inv(w) && DoSaveCreating(w, p, name) == Some(v)
    ensures Proper(w, v, p, SaveCreating(name))
  {
    hide Inv;
    InvMeans(w, p);
  }

  lemma MakeDirectoryProper(w: World, p: Pid, v: World)
    requires Inv(w) && DoMakeDirectory(w, p) == Some(v)
    ensures Proper(w, v, p, MakeDirectory)
  {
    hide Inv, OthersKept, Accounted;
    InvMeans(w, p);
    SameLocks(w, v, p);
  }

  lemma LockNewPathProper(w: World, p: Pid, v: World)
    requires Inv(w) && DoLockNewPath(w, p) == Some(v)
    ensures Proper(w, v, p, LockNewPath)
  {
    hide Inv, Accounted, Local, NoOtherBound, NoOtherRecorded, StageOk;
    InvMeans(w, p);
    UnpackStage(w, p);
    TakePathStage(w, p, StageOf(w, p).name, StageOf(v, p));
  }

  lemma BindNewProper(w: World, p: Pid, v: World)
    requires Inv(w) && DoBindNew(w, p) == Some(v)
    ensures Proper(w, v, p, BindNew)
  {
    hide Inv, OthersKept, Accounted;
    InvMeans(w, p);
    SameLocks(w, v, p);
  }

  lemma SaveCreatedProper(w: World, p: Pid, v: World)
    requires Inv(w) && DoSaveCreated(w, p) == Some(v)
    ensures Proper(w, v, p, SaveCreated)
  {
    hide Inv, OthersKept, Accounted, NoOtherBound, NoOtherRecorded;
    InvMeans(w, p);
    SameLocks(w, v, p);
  }

  lemma ReadRegisteredRecordProper(w: World, p: Pid, id: Id, v: World)
    requires Inv(w) && DoReadRegisteredRecord(w, p, id) == Some(v)
    ensures Proper(w, v, p, ReadRegisteredRecord(id))
  {
    hide Inv, Accounted, Local, NoOtherBound, NoOtherRecorded, StageOk;
    InvMeans(w, p);
    UnpackStage(w, p);
    MoveStage(w, p, StageOf(v, p));
  }

  lemma ReadRegisteredBindingProper(w: World, p: Pid, v: World)
    requires Inv(w) && DoReadRegisteredBinding(w, p) == Some(v)
    ensures Proper(w, v, p, ReadRegisteredBinding)
  {
    hide Inv, Accounted, Local, NoOtherBound, NoOtherRecorded, StageOk;
    InvMeans(w, p);
    UnpackStage(w, p);
    MoveStage(w, p, StageOf(v, p));
  }

  lemma SeekPathProper(w: World, p: Pid, name: Name, id: Id, v: World)
    requires Inv(w) && DoSeekPath(w, p, name, id) == Some(v)
    ensures Proper(w, v, p, SeekPath(name, id))
  {
    hide Inv, Accounted, Local, NoOtherBound, NoOtherRecorded, StageOk;
    InvMeans(w, p);
    UnpackStage(w, p);
    MoveStage(w, p, StageOf(v, p));
  }

  lemma SeekDeletionProper(w: World, p: Pid, name: Name, id: Id, v: World)
    requires Inv(w) && DoSeekDeletion(w, p, name, id) == Some(v)
    ensures Proper(w, v, p, SeekDeletion(name, id))
  {
    hide Inv, Accounted, Local, NoOtherBound, NoOtherRecorded, StageOk;
    InvMeans(w, p);
    UnpackStage(w, p);
    MoveStage(w, p, StageOf(v, p));
  }

  lemma SeekRecoveryProper(w: World, p: Pid, name: Name, id: Id, v: World)
    requires Inv(w) && DoSeekRecovery(w, p, name, id) == Some(v)
    ensures Proper(w, v, p, SeekRecovery(name, id))
  {
    hide Inv, Accounted, Local, NoOtherBound, NoOtherRecorded, StageOk;
    InvMeans(w, p);
    UnpackStage(w, p);
    assert RecordOk(w, id);
    MoveStage(w, p, StageOf(v, p));
  }

  lemma LockPathProper(w: World, p: Pid, v: World)
    requires Inv(w) && DoLockPath(w, p) == Some(v)
    ensures Proper(w, v, p, LockPath)
  {
    hide Inv, Accounted, Local, NoOtherBound, NoOtherRecorded, StageOk;
    InvMeans(w, p);
    UnpackStage(w, p);
    TakePathStage(w, p, StageOf(w, p).name, StageOf(v, p));
  }

  lemma CheckBindingsProper(w: World, p: Pid, v: World)
    requires Inv(w) && DoCheckBindings(w, p) == Some(v)
    ensures Proper(w, v, p, CheckBindings)
  {
    hide Inv, Accounted, Local, NoOtherBound, NoOtherRecorded, StageOk;
    InvMeans(w, p);
    UnpackStage(w, p);
    MoveStage(w, p, StageOf(v, p));
  }

  lemma CheckRecordsProper(w: World, p: Pid, v: World)
    requires Inv(w) && DoCheckRecords(w, p) == Some(v)
    ensures Proper(w, v, p, CheckRecords)
  {
    hide Inv, Accounted, Local, NoOtherBound, NoOtherRecorded, StageOk;
    InvMeans(w, p);
    UnpackStage(w, p);
    MoveStage(w, p, StageOf(v, p));
  }

  lemma CheckOwnRecordProper(w: World, p: Pid, v: World)
    requires Inv(w) && DoCheckOwnRecord(w, p) == Some(v)
    ensures Proper(w, v, p, CheckOwnRecord)
  {
    hide Inv, Accounted, Local, NoOtherBound, NoOtherRecorded, StageOk;
    InvMeans(w, p);
    UnpackStage(w, p);
    MoveStage(w, p, StageOf(v, p));
  }

  lemma LockIdentityProper(w: World, p: Pid, v: World)
    requires Inv(w) && DoLockIdentity(w, p) == Some(v)
    ensures Proper(w, v, p, LockIdentity)
  {
    hide Inv, Accounted, Local, NoOtherBound, NoOtherRecorded, StageOk;
    InvMeans(w, p);
    UnpackStage(w, p);
    TakeIdStage(w, p, StageOf(w, p).goal.id, StageOf(v, p));
  }

  lemma BindIdentityProper(w: World, p: Pid, v: World)
    requires Inv(w) && DoBindIdentity(w, p) == Some(v)
    ensures Proper(w, v, p, BindIdentity)
  {
    hide Inv, OthersKept, Accounted;
    InvMeans(w, p);
    SameLocks(w, v, p);
  }

  lemma SettledEstablished(w: World, lease: Lease, goal: Goal)
    requires Established(w, Bound(lease, goal)) && Settled(w, lease, goal).Some?
    ensures Established(w, Settled(w, lease, goal).value)
    ensures PathHeld(Settled(w, lease, goal).value) == Some(lease.name) &&
            IdHeld(Settled(w, lease, goal).value) == Some(lease.id)
  {
  }

  lemma SettleWrites(w: World, p: Pid, v: World)
    requires Inv(w) && DoSettle(w, p) == Some(v) && WritesFound(StageOf(w, p).goal)
    ensures Proper(w, v, p, Settle)
  {
    hide Inv, OthersKept, Accounted, NoOtherBound, NoOtherRecorded, ClearAt;
    InvMeans(w, p);
    SameLocks(w, v, p);
  }

  lemma SettleMoves(w: World, p: Pid, v: World)
    requires Inv(w) && DoSettle(w, p) == Some(v) && !WritesFound(StageOf(w, p).goal)
    ensures Proper(w, v, p, Settle)
  {
    hide Inv, Accounted, Local, Global, Settled, StageOk;
    InvMeans(w, p);
    UnpackStage(w, p);
    var stage := StageOf(w, p);
    SettledEstablished(w, stage.lease, stage.goal);
    MoveStage(w, p, Settled(w, stage.lease, stage.goal).value);
  }

  lemma SettleProper(w: World, p: Pid, v: World)
    requires Inv(w) && DoSettle(w, p) == Some(v)
    ensures Proper(w, v, p, Settle)
  {
    hide Inv, Proper, Settled;
    if WritesFound(StageOf(w, p).goal) {
      SettleWrites(w, p, v);
    } else {
      SettleMoves(w, p, v);
    }
  }

  /** Writing its own record does not disturb what a process knows about its path. */
  lemma OwnSaveFindings(w: World, v: World, p: Pid, id: Id, r: Record, name: Name)
    requires Saves(w, v, p, id, r)
    ensures Alone(w, name, id) ==> Alone(v, name, id)
    ensures !Tombstone(r) ==> ClearAt(v, name, id)
  {
  }

  lemma AloneSame(w: World, v: World, lease: Lease)
    requires v.records == w.records && v.bindings == w.bindings
    ensures Alone(w, lease.name, lease.id) ==> Alone(v, lease.name, lease.id)
    ensures ClearAt(w, lease.name, lease.id) ==> ClearAt(v, lease.name, lease.id)
  {
  }

  lemma CommitSaves(w: World, p: Pid, v: World)
    requires Inv(w) && DoCommit(w, p) == Some(v) && RecordOf(w, StageOf(w, p).lease, Creating).phase == Creating
    ensures var lease := StageOf(w, p).lease; Saves(w, v, p, lease.id, Record(lease.name, Some(lease.binding), Active))
  {
    hide Inv, OthersKept, Accounted, Alone, ClearAt;
    InvMeans(w, p);
    SameLocks(w, v, p);
    var lease := StageOf(w, p).lease;
    assert lease.id in w.records ==> RecordOk(w, lease.id);
  }

  lemma CommitWrites(w: World, p: Pid, v: World)
    requires Inv(w) && DoCommit(w, p) == Some(v) && RecordOf(w, StageOf(w, p).lease, Creating).phase == Creating
    ensures Proper(w, v, p, Commit)
  {
    hide Inv, Saves, Global, Accounted, Alone, ClearAt;
    InvMeans(w, p);
    CommitSaves(w, p, v);
    var lease := StageOf(w, p).lease;
    OwnSaveFindings(w, v, p, lease.id, Record(lease.name, Some(lease.binding), Active), lease.name);
  }

  lemma CommitProper(w: World, p: Pid, v: World)
    requires Inv(w) && DoCommit(w, p) == Some(v)
    ensures Proper(w, v, p, Commit)
  {
    hide Inv, OthersKept, Accounted, NoOtherBound, NoOtherRecorded, ClearAt, Alone, Global;
    InvMeans(w, p);
    SameLocks(w, v, p);
    if RecordOf(w, StageOf(w, p).lease, Creating).phase == Creating {
      CommitWrites(w, p, v);
    } else {
      AloneSame(w, v, StageOf(w, p).lease);
    }
  }

  lemma BeginDeletionProper(w: World, p: Pid, v: World)
    requires Inv(w) && DoBeginDeletion(w, p) == Some(v)
    ensures Proper(w, v, p, BeginDeletion)
  {
    hide Inv, OthersKept, Accounted, NoOtherBound, NoOtherRecorded, ClearAt;
    InvMeans(w, p);
    SameLocks(w, v, p);
    var lease := Held(StageOf(w, p)).value;
    assert lease.id in w.records ==> RecordOk(w, lease.id);
  }

  lemma MarkDeletingProper(w: World, p: Pid, v: World)
    requires Inv(w) && DoMarkDeleting(w, p) == Some(v)
    ensures Proper(w, v, p, MarkDeleting)
  {
    hide Inv, OthersKept, Accounted, NoOtherBound, NoOtherRecorded, ClearAt;
    InvMeans(w, p);
    SameLocks(w, v, p);
    var lease := Held(StageOf(w, p)).value;
    assert lease.id in w.records ==> RecordOk(w, lease.id);
  }

  lemma RemoveScopeProper(w: World, p: Pid, v: World)
    requires Inv(w) && DoRemoveScope(w, p) == Some(v)
    ensures Proper(w, v, p, RemoveScope)
  {
    hide Inv, OthersKept, Accounted, NoOtherBound, NoOtherRecorded, ClearAt;
    InvMeans(w, p);
    SameLocks(w, v, p);
  }

  lemma RemoveEntryProper(w: World, p: Pid, entry: string, v: World)
    requires Inv(w) && DoRemoveEntry(w, p, entry) == Some(v)
    ensures Proper(w, v, p, RemoveEntry(entry))
  {
    hide Inv, OthersKept, Accounted, NoOtherBound, NoOtherRecorded, ClearAt;
    InvMeans(w, p);
    SameLocks(w, v, p);
  }

  lemma RemoveLegacyProper(w: World, p: Pid, v: World)
    requires Inv(w) && DoRemoveLegacy(w, p) == Some(v)
    ensures Proper(w, v, p, RemoveLegacy)
  {
    hide Inv, OthersKept, Accounted, NoOtherBound, NoOtherRecorded, ClearAt;
    InvMeans(w, p);
    SameLocks(w, v, p);
  }

  lemma RemoveDirectoryProper(w: World, p: Pid, v: World)
    requires Inv(w) && DoRemoveDirectory(w, p) == Some(v)
    ensures Proper(w, v, p, RemoveDirectory)
  {
    hide Inv, OthersKept, Accounted, NoOtherBound, NoOtherRecorded, ClearAt;
    InvMeans(w, p);
    SameLocks(w, v, p);
  }

  lemma SaveDeletedProper(w: World, p: Pid, v: World)
    requires Inv(w) && DoSaveDeleted(w, p) == Some(v)
    ensures Proper(w, v, p, SaveDeleted)
  {
    hide Inv, OthersKept, Accounted, NoOtherBound, NoOtherRecorded, ClearAt, BindingsCurrent, UnboundDistinct;
    InvMeans(w, p);
    SameLocks(w, v, p);
  }

  lemma WriteStateProper(w: World, p: Pid, state: Saved, v: World)
    requires Inv(w) && DoWriteState(w, p, state) == Some(v)
    ensures Proper(w, v, p, WriteState(state))
  {
    hide Inv, OthersKept, Accounted, Global;
    InvMeans(w, p);
    SameLocks(w, v, p);
  }

  lemma AddEntryProper(w: World, p: Pid, entry: string, v: World)
    requires Inv(w) && DoAddEntry(w, p, entry) == Some(v)
    ensures Proper(w, v, p, AddEntry(entry))
  {
    hide Inv, OthersKept, Accounted, Global;
    InvMeans(w, p);
    SameLocks(w, v, p);
  }

  lemma ReleaseLocal(w: World, p: Pid)
    ensures Local(w, At(Released(w, p), p, Idle), p)
  {
  }

  lemma StopProper(w: World, p: Pid, v: World)
    requires Inv(w) && DoStop(w, p) == Some(v)
    ensures Proper(w, v, p, Stop)
  {
    hide Inv, Local, Global;
    InvMeans(w, p);
    ReleaseLocal(w, p);
  }
}
