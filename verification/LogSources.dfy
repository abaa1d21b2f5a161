/**
  The registry of log sources: an in-memory map and the file behind it, changed
  by concurrent calls under one lock, with the memory rolled back when the
  write fails.
 */
module LogSources {
  import opened Text

  type Sources = map<string, string>

  datatype Call = Register(name: string, path: string) | Unregister(name: string)

  /** A call that holds the persist lock: its task, and the entry it replaced. */
  datatype Holder = Holder(task: nat, call: Call, previous: Option<string>)

  /** How far an atomic write gets before it fails, if it does. */
  datatype Write = DirectoryFails | TempFails | RenameFails | Written

  datatype Result = Ok(existed: bool) | Err

  datatype Event = Lock(task: nat, call: Call) | Finish(task: nat, write: Write)

  function Applied(s: Sources, c: Call): Sources {
    match c
    case Register(name, path) => s[name := path]
    case Unregister(name) => s - {name}
  }

  /** After a register the name maps to the path given, after an unregister it is
      absent; every other name keeps what it had. */
  ghost predicate Took(before: Sources, after: Sources, c: Call) {
    && (c.Register? ==> c.name in after && after[c.name] == c.path)
    && (c.Unregister? ==> c.name !in after)
    && (forall n | n != c.name :: (n in after <==> n in before) && (n in before ==> after[n] == before[n]))
  }

  /** A finished call: what it answered, and the sources when it took the lock
      and when it let go. */
  datatype Finished = Finished(call: Call, result: Result, before: Sources, after: Sources)

  class Registry {
    var sources: Sources
    var disk: Sources
    var temp: Option<Sources>
    var lock: Option<Holder>
    ghost var finished: seq<Finished>
    ghost var atLock: Sources    // the sources when the lock was last taken

    /** With the lock free, memory is what is on disk; with it held, memory is
        the disk with the holder's change, which the holder can undo. */
    ghost predicate Valid()
      reads this
    {
      && (lock.None? ==> sources == disk)
      && (lock.Some? ==>
        && disk == atLock && sources == Applied(atLock, lock.value.call)
        && lock.value.previous == (if lock.value.call.name in atLock then Some(atLock[lock.value.call.name]) else None))
      && (forall i | 0 <= i < |finished| :: FinishedOk(finished[i]))
    }

    /** Success applies the call; an error changes nothing. */
    static ghost predicate FinishedOk(f: Finished) {
      && (f.result.Ok? ==> Took(f.before, f.after, f.call))
      && (f.result.Err? ==> f.after == f.before)
      && (f.result.Ok? ==> (f.result.existed <==> f.call.name in f.before))
    }

    constructor (disk: Sources)
      ensures Valid() && lock.None? && this.disk == disk && finished == []
    {
      sources, this.disk, temp, lock, finished := disk, disk, None, None, [];
      atLock := disk;
    }

    /** The first half of a call: take the lock and change the memory. While the
        lock is held by another task the call waits. */
    method TakeAndChange(task: nat, call: Call)
      requires Valid()
      modifies this
      ensures Valid() && disk == old(disk) && finished == old(finished)
      ensures old(lock).Some? ==> lock == old(lock) && sources == old(sources)
      ensures old(lock).None? ==> lock.Some? && lock.value.task == task && sources == Applied(old(sources), call)
    {
      if lock.Some? {
        return;
      }
      atLock := sources;
      var previous := if call.name in sources then Some(sources[call.name]) else None;
      sources := Applied(sources, call);
      lock := Some(Holder(task, call, previous));
    }

    /** `write_atomic_raw`: a temporary file, then a rename. */
    method Save(write: Write) returns (ok: bool)
      modifies `temp, `disk
      ensures ok <==> write.Written?
      ensures disk == if ok then sources else old(disk)
    {
      ok := false;
      if write.DirectoryFails? || write.TempFails? {
        return;
      }
      temp := Some(sources);
      if write.RenameFails? {
        return;
      }
      disk, temp := temp.value, None;
      ok := true;
    }

    /** The second half: persist, roll back if that failed, release the lock. */
    method SaveAndRelease(task: nat, write: Write) returns (result: Option<Result>)
      requires Valid()
      modifies this
      ensures Valid()
      ensures result.Some? <==> old(lock).Some? && old(lock).value.task == task
      ensures result.None? ==>
        sources == old(sources) && disk == old(disk) && lock == old(lock) && finished == old(finished)
      ensures result.Some? && result.value.Ok? ==> Took(old(disk), sources, old(lock).value.call)
      ensures result.Some? && result.value.Err? ==> sources == old(disk)
      ensures result.Some? ==> (lock.None? && sources == disk && (result.value.Err? <==> !write.Written?)
        && finished == old(finished) + [Finished(old(lock).value.call, result.value, old(disk), disk)])
    {
      if lock.None? || lock.value.task != task {
        return None;
      }
      var h := lock.value;
      var name := h.call.name;
      var ok := Save(write);
      if !ok {
        if h.previous.Some? {
          sources := sources[name := h.previous.value];
        } else {
          sources := sources - {name};
        }
        assert sources == atLock;
      }
      var r := if ok then Ok(h.previous.Some?) else Err;
      finished := finished + [Finished(h.call, r, atLock, sources)];
      result := Some(r);
      lock := None;
    }

    /** Every interleaving of any number of calls, with any writes failing: once
        the lock is free the memory equals the disk, a call that reported an
        error changed neither, and one that succeeded is applied. */
    method Serve(events: seq<Event>)
      requires Valid()
      modifies this
      ensures Valid()
      ensures lock.None? ==> sources == disk
    {
      for i := 0 to |events|
        invariant Valid()
      {
        match events[i]
        case Lock(task, call) => TakeAndChange(task, call);
        case Finish(task, write) => var _ := SaveAndRelease(task, write);
      }
    }
  }
}
