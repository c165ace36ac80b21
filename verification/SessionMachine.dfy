/** The session lifecycle as a machine: processes that share durable records,
    write-once identity bindings, one lock per path and one per identity, and
    session directories. Every action is one read, lock or durable write of the
    source, or a critical section under a held lock; a process may stop at any point. */
module SessionMachine {
  import opened Text

  type Id = string
  type Name = string
  type Pid = nat

  datatype Phase = Creating | Active | Deleting | Deleted

  /** A directory as it was bound: its place under the session root and its inode. */
  datatype Binding = Binding(path: Name, inode: nat)

  datatype Record = Record(name: Name, binding: Option<Binding>, phase: Phase)

  /** The session state a directory holds: whose it is and the binding it names. */
  datatype Saved = Saved(id: Id, binding: Option<Binding>)

  /** `stored` is the state kept in the content database, `legacy` a state file in
      the directory, `others` every other entry. */
  datatype Directory = Directory(inode: nat, stored: Option<Saved>, legacy: Option<Saved>, others: set<string>)

  /** What a lease holds: the path lock on `name` and the identity lock on `id`. */
  datatype Lease = Lease(id: Id, name: Name, binding: Binding)

  /** Why a process wants the path lock, with what it read before having it. */
  datatype Goal =
    | Registered(id: Id, seen: Option<Record>, bound: Option<Binding>)
    | ByPath(id: Id)
    | Deletion(id: Id, seen: Option<Record>)
    | Recovery(id: Id, found: Record)

  datatype Progress = Marked | ScopeGone | LegacyGone | DirectoryGone | Finished

  datatype Stage =
    | Idle
    | CreateLocked(id: Id)
    | CreateSaved(id: Id, name: Name)
    | CreateMade(id: Id, name: Name)
    | CreatePath(id: Id, name: Name, inode: nat)
    | CreateBound(lease: Lease)
    | Created(lease: Lease)
    | ReadRecord(id: Id, seen: Option<Record>)
    | Seeking(name: Name, goal: Goal)
    | PathLocked(name: Name, inode: nat, goal: Goal)
    | OthersUnbound(name: Name, inode: nat, goal: Goal)
    | OthersUnrecorded(name: Name, inode: nat, goal: Goal)
    | Clear(name: Name, inode: nat, goal: Goal)
    | BothLocked(name: Name, inode: nat, goal: Goal)
    | Bound(lease: Lease, goal: Goal)
    | Committing(lease: Lease)
    | Resumed(lease: Lease)
    | ForDeletion(lease: Lease)
    | Removing(lease: Lease, progress: Progress)

  datatype World = World(
    records: map<Id, Record>,
    bindings: map<Id, Binding>,
    dirs: map<Name, Directory>,
    pathOwner: map<Name, Pid>,
    idOwner: map<Id, Pid>,
    stages: map<Pid, Stage>,
    nextInode: nat,
    used: set<Name>)

  datatype Action =
    | LockNewIdentity(newId: Id)
    | SaveCreating(newName: Name)
    | MakeDirectory
    | LockNewPath
    | BindNew
    | SaveCreated
    | ReadRegisteredRecord(readId: Id)
    | ReadRegisteredBinding
    | SeekPath(path: Name, pathId: Id)
    | SeekDeletion(path: Name, pathId: Id)
    | SeekRecovery(path: Name, pathId: Id)
    | LockPath
    | CheckBindings
    | CheckRecords
    | CheckOwnRecord
    | LockIdentity
    | BindIdentity
    | Settle
    | Commit
    | BeginDeletion
    | MarkDeleting
    | RemoveScope
    | RemoveEntry(entry: string)
    | RemoveLegacy
    | RemoveDirectory
    | SaveDeleted
    | WriteState(state: Saved)
    | AddEntry(entry: string)
    | Stop

  function StageOf(w: World, p: Pid): Stage {
    if p in w.stages then w.stages[p] else Idle
  }

  predicate Tombstone(r: Record) {
    r.phase == Deleting || r.phase == Deleted
  }

  predicate Tombstoned(w: World, id: Id) {
    id in w.records && Tombstone(w.records[id])
  }

  /** A committed or tombstoned record names its directory binding, and the binding
      has the directory name of the record. */
  predicate ValidRecord(r: Record) {
    match r.binding
    case Some(b) => b.path == r.name
    case None => r.phase == Creating
  }

  /** The bound directory is still the one that was bound. */
  predicate Current(w: World, b: Binding) {
    b.path in w.dirs && w.dirs[b.path].inode == b.inode
  }

  predicate Readable(dir: Directory) {
    dir.stored.Some? || dir.legacy.Some?
  }

  function StateIn(dir: Directory): Option<Saved> {
    if dir.stored.Some? then dir.stored else dir.legacy
  }

  predicate Matches(r: Record, lease: Lease) {
    r.name == lease.name && (r.binding.Some? ==> r.binding.value == lease.binding)
  }

  /** The record of a lease; a session from before the records existed gets a new one. */
  function RecordOf(w: World, lease: Lease, phase: Phase): Record {
    if lease.id in w.records then w.records[lease.id] else Record(lease.name, Some(lease.binding), phase)
  }

  // ----- locks and stages ------------------------------------------------------

  function At(w: World, p: Pid, stage: Stage): World {
    w.(stages := w.stages[p := stage])
  }

  function Saving(w: World, id: Id, r: Record): World {
    w.(records := w.records[id := r])
  }

  function WithDirectory(w: World, name: Name, dir: Directory): World {
    w.(dirs := w.dirs[name := dir])
  }

  /** All locks of `p` are released, as the system does when a process ends. */
  function Released(w: World, p: Pid): World {
    w.(pathOwner := map n | n in w.pathOwner && w.pathOwner[n] != p :: w.pathOwner[n],
       idOwner := map i | i in w.idOwner && w.idOwner[i] != p :: w.idOwner[i])
  }

  // ----- creating a session ------------------------------------------------------

  function DoLockNewIdentity(w: World, p: Pid, id: Id): Option<World> {
    if StageOf(w, p).Idle? && id !in w.idOwner
    then Some(At(w.(idOwner := w.idOwner[id := p]), p, CreateLocked(id)))
    else None
  }

  /** New directory names carry a time stamp and part of a fresh identity: they were never used before. */
  function DoSaveCreating(w: World, p: Pid, name: Name): Option<World> {
    match StageOf(w, p)
    case CreateLocked(id) =>
      if id !in w.bindings && id !in w.records && name !in w.dirs && name !in w.used
      then Some(At(Saving(w, id, Record(name, None, Creating)).(used := w.used + {name}), p, CreateSaved(id, name)))
      else None
    case _ => None
  }

  function DoMakeDirectory(w: World, p: Pid): Option<World> {
    match StageOf(w, p)
    case CreateSaved(id, name) =>
      if name !in w.dirs
      then Some(At(WithDirectory(w, name, Directory(w.nextInode, None, None, {})).(nextInode := w.nextInode + 1), p,
                   CreateMade(id, name)))
      else None
    case _ => None
  }

  function DoLockNewPath(w: World, p: Pid): Option<World> {
    match StageOf(w, p)
    case CreateMade(id, name) =>
      if name in w.dirs && name !in w.pathOwner
      then Some(At(w.(pathOwner := w.pathOwner[name := p]), p, CreatePath(id, name, w.dirs[name].inode)))
      else None
    case _ => None
  }

  /** The binding on file, or `candidate` written as the binding; a different one on file is an error. */
  function LoadOrCreateBinding(bindings: map<Id, Binding>, id: Id, candidate: Binding): Option<map<Id, Binding>> {
    if id !in bindings then Some(bindings[id := candidate])
    else if bindings[id] == candidate then Some(bindings)
    else None
  }

  function DoBindNew(w: World, p: Pid): Option<World> {
    match StageOf(w, p)
    case CreatePath(id, name, inode) =>
      var b := Binding(name, inode);
      var bindings := LoadOrCreateBinding(w.bindings, id, b);
      if Current(w, b) && bindings.Some?
      then Some(At(w.(bindings := bindings.value), p, CreateBound(Lease(id, name, b))))
      else None
    case _ => None
  }

  function DoSaveCreated(w: World, p: Pid): Option<World> {
    match StageOf(w, p)
    case CreateBound(lease) =>
      Some(At(Saving(w, lease.id, Record(lease.name, Some(lease.binding), Creating)), p, Created(lease)))
    case _ => None
  }

  // ----- reads before the path lock ------------------------------------------------

  function DoReadRegisteredRecord(w: World, p: Pid, id: Id): Option<World> {
    if StageOf(w, p).Idle? && !Tombstoned(w, id)
    then Some(At(w, p, ReadRecord(id, if id in w.records then Some(w.records[id]) else None)))
    else None
  }

  /** The binding the directory of a registered session was seen under. */
  function SeenBinding(seen: Option<Record>, bound: Option<Binding>): Option<Binding> {
    if bound.Some? then bound else if seen.Some? then seen.value.binding else None
  }

  function Target(seen: Option<Record>, bound: Option<Binding>): Option<Name> {
    if SeenBinding(seen, bound).Some? then Some(SeenBinding(seen, bound).value.path)
    else if seen.Some? then Some(seen.value.name)
    else None
  }

  function DoReadRegisteredBinding(w: World, p: Pid): Option<World> {
    match StageOf(w, p)
    case ReadRecord(id, seen) =>
      var bound := if id in w.bindings then Some(w.bindings[id]) else None;
      var b := SeenBinding(seen, bound);
      if Target(seen, bound).Some? && (b.Some? ==> Current(w, b.value))
      then Some(At(w, p, Seeking(Target(seen, bound).value, Registered(id, seen, bound))))
      else None
    case _ => None
  }

  function DoSeekPath(w: World, p: Pid, name: Name, id: Id): Option<World> {
    if StageOf(w, p).Idle? then Some(At(w, p, Seeking(name, ByPath(id)))) else None
  }

  function DoSeekDeletion(w: World, p: Pid, name: Name, id: Id): Option<World> {
    if StageOf(w, p).Idle? && (id in w.records ==> w.records[id].name == name)
    then Some(At(w, p, Seeking(name, Deletion(id, if id in w.records then Some(w.records[id]) else None))))
    else None
  }

  /** `id` is the one record of this directory name that is not active. */
  ghost predicate OnlyRecoverable(w: World, name: Name, id: Id) {
    && id in w.records && w.records[id].name == name && w.records[id].phase != Active
    && forall j | j in w.records && w.records[j].name == name && w.records[j].phase != Active :: j == id
  }

  ghost function DoSeekRecovery(w: World, p: Pid, name: Name, id: Id): Option<World> {
    if StageOf(w, p).Idle? && name in w.dirs && OnlyRecoverable(w, name, id)
    then Some(At(w, p, Seeking(name, Recovery(id, w.records[id]))))
    else None
  }

  // ----- taking the locks ------------------------------------------------------------

  function DoLockPath(w: World, p: Pid): Option<World> {
    match StageOf(w, p)
    case Seeking(name, goal) =>
      if name in w.dirs && name !in w.pathOwner
      then Some(At(w.(pathOwner := w.pathOwner[name := p]), p, PathLocked(name, w.dirs[name].inode, goal)))
      else None
    case _ => None
  }

  predicate Resuming(goal: Goal) {
    goal.Registered? || goal.ByPath?
  }

  ghost predicate NoOtherBound(w: World, name: Name, id: Id) {
    forall j | j in w.bindings && j != id :: w.bindings[j].path != name
  }

  ghost predicate NoOtherRecorded(w: World, name: Name, id: Id) {
    forall j | j in w.records && j != id ::
      w.records[j].name != name && (w.records[j].binding.Some? ==> w.records[j].binding.value.path != name)
  }

  ghost function DoCheckBindings(w: World, p: Pid): Option<World> {
    match StageOf(w, p)
    case PathLocked(name, inode, goal) =>
      if Resuming(goal) && NoOtherBound(w, name, goal.id) then Some(At(w, p, OthersUnbound(name, inode, goal)))
          else None
    case _ => None
  }

  ghost function DoCheckRecords(w: World, p: Pid): Option<World> {
    match StageOf(w, p)
    case OthersUnbound(name, inode, goal) =>
      if NoOtherRecorded(w, name, goal.id) then Some(At(w, p, OthersUnrecorded(name, inode, goal))) else None
    case _ => None
  }

  function DoCheckOwnRecord(w: World, p: Pid): Option<World> {
    match StageOf(w, p)
    case OthersUnrecorded(name, inode, goal) =>
      var id := goal.id;
      if !Tombstoned(w, id) &&
         (id in w.records ==> w.records[id].name == name &&
                              (w.records[id].binding.Some? ==> w.records[id].binding.value.path == name))
      then Some(At(w, p, Clear(name, inode, goal)))
      else None
    case _ => None
  }

  function DoLockIdentity(w: World, p: Pid): Option<World> {
    match StageOf(w, p)
    case PathLocked(name, inode, goal) =>
      if !Resuming(goal) && goal.id !in w.idOwner
      then Some(At(w.(idOwner := w.idOwner[goal.id := p]), p, BothLocked(name, inode, goal)))
      else None
    case Clear(name, inode, goal) =>
      if goal.id !in w.idOwner
      then Some(At(w.(idOwner := w.idOwner[goal.id := p]), p, BothLocked(name, inode, goal)))
      else None
    case _ => None
  }

  function DoBindIdentity(w: World, p: Pid): Option<World> {
    match StageOf(w, p)
    case BothLocked(name, inode, goal) =>
      var b := Binding(name, inode);
      var bindings := LoadOrCreateBinding(w.bindings, goal.id, b);
      if Current(w, b) && bindings.Some?
      then Some(At(w.(bindings := bindings.value), p, Bound(Lease(goal.id, name, b), goal)))
      else None
    case _ => None
  }

  /** What each operation checks, once it has the lease, against what it had read
      before it held the locks, and what it goes on to do. */
  function Settled(w: World, lease: Lease, goal: Goal): Option<Stage> {
    match goal
    case Registered(_, seen, bound) =>
      var b := SeenBinding(seen, bound);
      if b.Some? && b.value != lease.binding then None
      else if seen.Some? && seen.value.phase == Creating && lease.name in w.dirs && !Readable(w.dirs[lease.name])
      then Some(ForDeletion(lease))
      else Some(Committing(lease))
    case ByPath(_) => Some(Resumed(lease))
    case Deletion(_, seen) =>
      if seen.Some? && seen.value.binding.Some? && seen.value.binding.value != lease.binding then None
      else Some(ForDeletion(lease))
    case Recovery(_, found) =>
      if found.binding.Some? && found.binding.value != lease.binding then None
      else Some(ForDeletion(lease))
  }

  /** Recovery writes the record it had read, with the binding it now holds, when that record had none. */
  predicate WritesFound(goal: Goal) {
    goal.Recovery? && goal.found.binding.None?
  }

  function DoSettle(w: World, p: Pid): Option<World> {
    match StageOf(w, p)
    case Bound(lease, goal) =>
      var next := Settled(w, lease, goal);
      if next.None? then None
      else if WritesFound(goal)
      then Some(At(Saving(w, lease.id, goal.found.(binding := Some(lease.binding))), p, next.value))
      else Some(At(w, p, next.value))
    case _ => None
  }

  // ----- under a lease ------------------------------------------------------------------

  /** A lease on an existing session that may still be used or deleted. */
  function Held(stage: Stage): Option<Lease> {
    match stage
    case Created(lease) => Some(lease)
    case Committing(lease) => Some(lease)
    case Resumed(lease) => Some(lease)
    case ForDeletion(lease) => Some(lease)
    case _ => None
  }

  /** What committing a creation makes of the record, if it may be committed. */
  function CommittedRecord(r: Record, lease: Lease): Option<Record> {
    if !ValidRecord(r) || !Matches(r, lease) || Tombstone(r) then None
    else if r.phase == Creating then Some(r.(binding := Some(lease.binding), phase := Active))
    else Some(r)
  }

  predicate FirstStateSaved(w: World, lease: Lease) {
    && Current(w, lease.binding)
    && lease.name in w.dirs
    && StateIn(w.dirs[lease.name]) == Some(Saved(lease.id, Some(lease.binding)))
  }

  function DoCommit(w: World, p: Pid): Option<World> {
    var stage := StageOf(w, p);
    if !(stage.Created? || stage.Committing? || stage.Resumed?) then None
    else
      var lease := stage.lease;
      var r := CommittedRecord(RecordOf(w, lease, Creating), lease);
      var next := if stage.Created? then stage else Resumed(lease);
      if !FirstStateSaved(w, lease) || r.None? then None
      else if RecordOf(w, lease, Creating).phase == Creating then Some(At(Saving(w, lease.id, r.value), p, next))
      else Some(At(w, p, next))
  }

  /** What beginning a deletion makes of the record. */
  function TombstoneRecord(r: Record, lease: Lease): Option<Record> {
    if ValidRecord(r) && Matches(r, lease) then Some(r.(binding := Some(lease.binding), phase := Deleting)) else None
  }

  function Marking(w: World, p: Pid, next: Lease -> Stage): Option<World> {
    var lease := Held(StageOf(w, p));
    if lease.None? || !Current(w, lease.value.binding) then None
    else
      var r := TombstoneRecord(RecordOf(w, lease.value, Active), lease.value);
      if r.None? then None else Some(At(Saving(w, lease.value.id, r.value), p, next(lease.value)))
  }

  function DoBeginDeletion(w: World, p: Pid): Option<World> {
    Marking(w, p, lease => ForDeletion(lease))
  }

  function DoMarkDeleting(w: World, p: Pid): Option<World> {
    Marking(w, p, lease => Removing(lease, Marked))
  }

  function DoRemoveScope(w: World, p: Pid): Option<World> {
    match StageOf(w, p)
    case Removing(lease, progress) =>
      if progress == Marked && lease.name in w.dirs
      then Some(At(WithDirectory(w, lease.name, w.dirs[lease.name].(stored := None)), p, Removing(lease, ScopeGone)))
      else None
    case _ => None
  }

  function DoRemoveEntry(w: World, p: Pid, entry: string): Option<World> {
    match StageOf(w, p)
    case Removing(lease, progress) =>
      if progress == ScopeGone && lease.name in w.dirs && entry in w.dirs[lease.name].others
      then Some(At(WithDirectory(w, lease.name, w.dirs[lease.name].(others := w.dirs[lease.name].others - {entry})), p,
                   Removing(lease, ScopeGone)))
      else None
    case _ => None
  }

  function DoRemoveLegacy(w: World, p: Pid): Option<World> {
    match StageOf(w, p)
    case Removing(lease, progress) =>
      if progress == ScopeGone && lease.name in w.dirs && w.dirs[lease.name].others == {}
      then Some(At(WithDirectory(w, lease.name, w.dirs[lease.name].(legacy := None)), p, Removing(lease, LegacyGone)))
      else None
    case _ => None
  }

  function DoRemoveDirectory(w: World, p: Pid): Option<World> {
    match StageOf(w, p)
    case Removing(lease, progress) =>
      if progress == LegacyGone && lease.name in w.dirs && w.dirs[lease.name].others == {} &&
          w.dirs[lease.name].legacy.None?
      then Some(At(w.(dirs := w.dirs - {lease.name}), p, Removing(lease, DirectoryGone)))
      else None
    case _ => None
  }

  function DoSaveDeleted(w: World, p: Pid): Option<World> {
    match StageOf(w, p)
    case Removing(lease, progress) =>
      if progress == DirectoryGone
      then Some(At(Saving(w, lease.id, Record(lease.name, Some(lease.binding), Deleted)), p, Removing(lease, Finished)))
      else None
    case _ => None
  }

  predicate Writing(stage: Stage) {
    stage.Created? || stage.Resumed?
  }

  function DoWriteState(w: World, p: Pid, state: Saved): Option<World> {
    var stage := StageOf(w, p);
    if Writing(stage) && stage.lease.name in w.dirs
    then Some(WithDirectory(w, stage.lease.name, w.dirs[stage.lease.name].(stored := Some(state))))
    else None
  }

  function DoAddEntry(w: World, p: Pid, entry: string): Option<World> {
    var stage := StageOf(w, p);
    if Writing(stage) && stage.lease.name in w.dirs
    then Some(WithDirectory(w, stage.lease.name,
        w.dirs[stage.lease.name].(others := w.dirs[stage.lease.name].others + {entry})))
    else None
  }

  /** An error return, a finished operation or a crash. */
  function DoStop(w: World, p: Pid): Option<World> {
    Some(At(Released(w, p), p, Idle))
  }

  // ----- runs ---------------------------------------------------------------------------

  ghost function Apply(w: World, p: Pid, a: Action): Option<World> {
    match a
    case LockNewIdentity(id) => DoLockNewIdentity(w, p, id)
    case SaveCreating(name) => DoSaveCreating(w, p, name)
    case MakeDirectory => DoMakeDirectory(w, p)
    case LockNewPath => DoLockNewPath(w, p)
    case BindNew => DoBindNew(w, p)
    case SaveCreated => DoSaveCreated(w, p)
    case ReadRegisteredRecord(id) => DoReadRegisteredRecord(w, p, id)
    case ReadRegisteredBinding => DoReadRegisteredBinding(w, p)
    case SeekPath(name, id) => DoSeekPath(w, p, name, id)
    case SeekDeletion(name, id) => DoSeekDeletion(w, p, name, id)
    case SeekRecovery(name, id) => DoSeekRecovery(w, p, name, id)
    case LockPath => DoLockPath(w, p)
    case CheckBindings => DoCheckBindings(w, p)
    case CheckRecords => DoCheckRecords(w, p)
    case CheckOwnRecord => DoCheckOwnRecord(w, p)
    case LockIdentity => DoLockIdentity(w, p)
    case BindIdentity => DoBindIdentity(w, p)
    case Settle => DoSettle(w, p)
    case Commit => DoCommit(w, p)
    case BeginDeletion => DoBeginDeletion(w, p)
    case MarkDeleting => DoMarkDeleting(w, p)
    case RemoveScope => DoRemoveScope(w, p)
    case RemoveEntry(entry) => DoRemoveEntry(w, p, entry)
    case RemoveLegacy => DoRemoveLegacy(w, p)
    case RemoveDirectory => DoRemoveDirectory(w, p)
    case SaveDeleted => DoSaveDeleted(w, p)
    case WriteState(state) => DoWriteState(w, p, state)
    case AddEntry(entry) => DoAddEntry(w, p, entry)
    case Stop => DoStop(w, p)
  }

  datatype Step = Step(pid: Pid, action: Action)

  /** The world after the steps, if each of them could be taken. */
  ghost function After(w: World, steps: seq<Step>): Option<World>
    decreases |steps|
  {
    if steps == [] then Some(w)
    else
      var next := Apply(w, steps[0].pid, steps[0].action);
      if next.None? then None else After(next.value, steps[1..])
  }

  /** Nothing is registered yet and nobody is at work; directories from before may exist. */
  ghost predicate Initial(w: World) {
    && w.records == map[] && w.bindings == map[] && w.pathOwner == map[] && w.idOwner == map[] && w.stages == map[]
    && w.dirs.Keys <= w.used
  }
}
