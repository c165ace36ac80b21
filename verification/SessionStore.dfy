/** The session store: what its methods do to the durable records, the identity
    bindings and the directories while the caller holds the locks of a lease. */
module SessionStore {
  import opened Text
  import opened SessionMachine
  import opened SessionDeletion
  import opened SessionLife

  /** The operations of a removal that can fail once the session is marked. */
  datatype Operation = ClearScope | RemoveOne(entry: string) | RemoveState | RemoveEmptied | RecordDeleted

  /** Not begun; stopped on the way; or done, with the record of it on file or only a warning. */
  datatype Outcome = Refused | Failed(operation: Operation) | Removed(recorded: bool)

  predicate MarkedIn(records: map<Id, Record>, marked: map<Id, Record>, lease: Lease) {
    marked == records[lease.id := Record(lease.name, Some(lease.binding), Deleting)]
  }

  /** Part of a directory, in which the state file has gone only after every other entry. */
  predicate LeftOf(before: Directory, left: Directory) {
    && left.inode == before.inode && left.others <= before.others
    && (left.stored == before.stored || left.stored.None?)
    && (left.legacy == before.legacy || (left.legacy.None? && left.others == {}))
  }

  class SessionStore {
    var records: map<Id, Record>
    var bindings: map<Id, Binding>
    var dirs: map<Name, Directory>

    constructor (dirs: map<Name, Directory>)
      ensures records == map[] && bindings == map[] && this.dirs == dirs
    {
      records, bindings, this.dirs := map[], map[], dirs;
    }

    /** What is on disk, as the machine sees it. */
    function Disk(): World
      reads this
    {
      World(records, bindings, dirs, map[], map[], map[], 0, {})
    }

    /** The binding of a locked directory is put on file the first time and must be the same ever after. */
    method BindIdentityWithLock(id: Id, name: Name, inode: nat) returns (lease: Option<Lease>)
      modifies this`bindings
      ensures lease.Some? <==>
                old(Current(Disk(), Binding(name, inode))) &&
                (id in old(bindings) ==> old(bindings)[id] == Binding(name, inode))
      ensures lease.Some? ==>
                lease.value == Lease(id, name, Binding(name, inode)) &&
                bindings == old(bindings)[id := Binding(name, inode)]
      ensures lease.None? ==> bindings == old(bindings)
    {
      var candidate := Binding(name, inode);
      if !Current(Disk(), candidate) {
        return None;
      }
      if id in bindings {
        if bindings[id] != candidate {
          return None;
        }
        assert bindings[id := candidate] == bindings;
      } else {
        bindings := bindings[id := candidate];
      }
      return Some(Lease(id, name, candidate));
    }

    /** Creating becomes active once the directory that was bound holds the state of this very
        session; a tombstone, another directory or another state is refused. */
    method CommitLockedSessionCreation(lease: Lease) returns (ok: bool)
      modifies this`records
      ensures lease.binding.path == lease.name ==>
                (ok <==>
                 && lease.name in old(dirs) && old(dirs)[lease.name].inode == lease.binding.inode
                 && Holds(old(dirs)[lease.name], Saved(lease.id, Some(lease.binding)))
                 && (lease.id in old(records) ==> Live(old(records)[lease.id], lease.name, lease.binding)))
      ensures lease.binding.path == lease.name ==>
                records == if ok then Activated(old(records), lease.id, lease.name, lease.binding) else old(records)
      ensures var r := CommittedRecord(RecordOf(old(Disk()), lease, Creating), lease);
              && ok == (FirstStateSaved(old(Disk()), lease) && r.Some?)
              && records == if ok && r.value.phase != RecordOf(old(Disk()), lease, Creating).phase
                 then old(records)[lease.id := r.value] else old(records)
    {
      if !FirstStateSaved(Disk(), lease) {
        return false;
      }
      var lifecycle := RecordOf(Disk(), lease, Creating);
      if !ValidRecord(lifecycle) || !Matches(lifecycle, lease) {
        return false;
      }
      match lifecycle.phase {
        case Creating =>
          lifecycle := lifecycle.(binding := Some(lease.binding), phase := Active);
          records := records[lease.id := lifecycle];
          return true;
        case Active => return true;
        case Deleting => return false;
        case Deleted => return false;
      }
    }

    /** The session is marked for deletion while its directory is the one that was bound and its
        record, if it has one, is for that directory. */
    method BeginLockedSessionDeletion(lease: Lease) returns (ok: bool)
      modifies this`records
      ensures lease.binding.path == lease.name ==>
                (ok <==>
                 && lease.name in old(dirs) && old(dirs)[lease.name].inode == lease.binding.inode
                 && (lease.id in old(records) ==> ForDirectory(old(records)[lease.id], lease.name, lease.binding)))
      ensures lease.binding.path == lease.name ==>
                records == if ok then old(records)[lease.id := Record(lease.name, Some(lease.binding), Deleting)]
                           else old(records)
      ensures var r := TombstoneRecord(RecordOf(old(Disk()), lease, Active), lease);
              && ok == (Current(old(Disk()), lease.binding) && r.Some?)
              && records == if ok then old(records)[lease.id := r.value] else old(records)
    {
      if !Current(Disk(), lease.binding) {
        return false;
      }
      var lifecycle := RecordOf(Disk(), lease, Active);
      if !ValidRecord(lifecycle) || !Matches(lifecycle, lease) {
        return false;
      }
      lifecycle := lifecycle.(binding := Some(lease.binding), phase := Deleting);
      records := records[lease.id := lifecycle];
      return true;
    }

    /** Marks the session, then removes what its directory holds, the state file last. Any
        operation on the file system may fail: the session stays marked, what is left is part
        of what was there, and a state file is there as long as anything else is. */
    method RemoveLockedSession(lease: Lease, works: Operation -> bool) returns (outcome: Outcome)
      requires lease.binding.path == lease.name
      modifies this
      ensures bindings == old(bindings)
      ensures outcome.Refused? <==>
              !(lease.name in old(dirs) && old(dirs)[lease.name].inode == lease.binding.inode &&
                (lease.id in old(records) ==> ForDirectory(old(records)[lease.id], lease.name, lease.binding)))
      ensures outcome.Refused? ==> records == old(records) && dirs == old(dirs)
      ensures outcome == Removed(true) ==> RemovedFrom(old(Disk()), Disk(), lease)
      ensures outcome == Removed(false) ==> MarkedIn(old(records), records, lease) && dirs == old(dirs) - {lease.name}
      ensures outcome.Failed? ==>
              && !works(outcome.operation) && MarkedIn(old(records), records, lease)
              && lease.name in old(dirs) && lease.name in dirs && dirs == old(dirs)[lease.name := dirs[lease.name]]
              && LeftOf(old(dirs)[lease.name], dirs[lease.name])
    {
      var marked := BeginLockedSessionDeletion(lease);
      if !marked {
        return Refused;
      }
      var name := lease.name;
      if !works(ClearScope) {
        assert dirs == old(dirs)[name := dirs[name]];
        return Failed(ClearScope);
      }
      dirs := dirs[name := dirs[name].(stored := None)];
      var entries := dirs[name].others;
      while entries != {}
        invariant MarkedIn(old(records), records, lease) && bindings == old(bindings)
        invariant name in dirs && dirs == old(dirs)[name := dirs[name]] && dirs[name].others == entries
        invariant LeftOf(old(dirs)[name], dirs[name]) && dirs[name].legacy == old(dirs)[name].legacy
        decreases |entries|
      {
        var entry :| entry in entries;
        if !works(RemoveOne(entry)) {
          return Failed(RemoveOne(entry));
        }
        dirs := dirs[name := dirs[name].(others := dirs[name].others - {entry})];
        entries := entries - {entry};
      }
      if !works(RemoveState) {
        return Failed(RemoveState);
      }
      dirs := dirs[name := dirs[name].(legacy := None)];
      if !works(RemoveEmptied) {
        return Failed(RemoveEmptied);
      }
      assert dirs[name].others == {};
      dirs := dirs - {name};
      assert dirs == old(dirs) - {name};
      if !works(RecordDeleted) {
        return Removed(false);
      }
      records := records[lease.id := Record(name, Some(lease.binding), Deleted)];
      return Removed(true);
    }
  }
}
