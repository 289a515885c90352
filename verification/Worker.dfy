/** Exclusive session ownership (crates/store/src/worker.rs) and the session row columns it guards. */
module Workers {
  import opened Wrappers

  datatype Status = Idle | Running | Completed | Failed

  /** The `status`, `pid` and `worker_generation` columns. */
  datatype Row = Row(status: Status, pid: Option<nat>, generation: Option<nat>)

  datatype WorkerError = AlreadyRunning | AlreadyStarted | NotStarted | StaleGeneration | NoSession | StoreFailed | LockFailed

  /** The row after `start_worker`. */
  function Claimed(pid: nat, generation: nat): Row {
    Row(Running, Some(pid), Some(generation))
  }

  /** The row after `finish_worker`: only the current generation's owner may end it. */
  function Ended(row: Row, generation: nat, status: Status): Row {
    if row.generation == Some(generation) then Row(status, None, None) else row
  }

  /** The session row, if the session exists, and the supply of generation tokens, with a disk that may
      refuse. */
  class WorkerStore {
    var row: Row
    const known: bool
    var generations: nat
    var healthy: bool

    constructor (known: bool)
      ensures row == Row(Idle, None, None) && generations == 0 && healthy && this.known == known
    {
      this.known := known;
      row, generations, healthy := Row(Idle, None, None), 0, true;
    }

    method StartWorker(pid: nat) returns (r: Result<nat, WorkerError>)
      modifies this
      ensures healthy == old(healthy) && generations == old(generations) + 1
      ensures if old(healthy) && known then r == Ok(old(generations)) && row == Claimed(pid, old(generations))
              else r == Err(if old(healthy) then NoSession else StoreFailed) && row == old(row)
    {
      var generation := generations;
      generations := generations + 1;
      if !healthy {
        return Err(StoreFailed);
      }
      if !known {
        return Err(NoSession);
      }
      row := Row(Running, Some(pid), Some(generation));
      r := Ok(generation);
    }

    method FinishWorker(generation: nat, status: Status) returns (r: Result<bool, WorkerError>)
      modifies this`row
      ensures if old(healthy)
              then r == Ok(known && old(row).generation == Some(generation))
                   && row == (if known then Ended(old(row), generation, status) else old(row))
              else r == Err(StoreFailed) && row == old(row)
    {
      if !healthy {
        return Err(StoreFailed);
      }
      if known && row.generation == Some(generation) {
        row := Row(status, None, None);
        r := Ok(true);
      } else {
        r := Ok(false);
      }
    }
  }

  /** The OS lock: at most one holder, released by the OS when its holder exits. */
  class LockFile {
    var holder: Option<nat>

    constructor ()
      ensures holder == None
    {
      holder := None;
    }

    method TryLock(pid: nat) returns (got: bool)
      modifies this
      ensures got == old(holder).None?
      ensures holder == if got then Some(pid) else old(holder)
    {
      got := holder.None?;
      if got {
        holder := Some(pid);
      }
    }

    method Unlock()
      modifies this
      ensures holder == None
    {
      holder := None;
    }
  }

  class SessionWorker {
    const lock: LockFile
    const store: WorkerStore
    const pid: nat
    var generation: Option<nat>

    constructor (lock: LockFile, store: WorkerStore, pid: nat)
      ensures this.lock == lock && this.store == store && this.pid == pid && generation == None
    {
      this.lock, this.store, this.pid, generation := lock, store, pid, None;
    }

    /** `opens` and `writes` say whether the lock file can be opened and the pid written into it. */
    static method Acquire(lock: LockFile, store: WorkerStore, pid: nat, opens: bool, writes: bool)
      returns (r: Result<SessionWorker, WorkerError>)
      modifies lock
      ensures r.Ok? == (old(lock.holder).None? && opens && writes)
      ensures lock.holder == if r.Ok? then Some(pid) else old(lock.holder)
      ensures match r
        case Ok(w) => fresh(w) && w.lock == lock && w.store == store && w.pid == pid && w.generation == None
        case Err(e) => e == if opens && old(lock.holder).Some? then AlreadyRunning else LockFailed
    {
      if !opens {
        return Err(LockFailed);
      }
      var got := lock.TryLock(pid);
      if !got {
        return Err(AlreadyRunning);
      }
      if !writes {
        lock.Unlock();
        return Err(LockFailed);
      }
      var w := new SessionWorker(lock, store, pid);
      r := Ok(w);
    }

    method Start() returns (r: Result<(), WorkerError>)
      modifies this, store
      ensures old(generation).Some? ==>
        r == Err(AlreadyStarted) && generation == old(generation) && store.row == old(store.row)
      ensures old(generation).None? && r.Ok? ==>
        generation == Some(old(store.generations)) && store.row == Claimed(pid, old(store.generations))
      ensures old(generation).None? && r.Err? ==>
        && r == Err(if old(store.healthy) then NoSession else StoreFailed)
        && generation == None && store.row == old(store.row)
      ensures r.Ok? <==> old(generation).None? && old(store.healthy) && store.known
    {
      if generation.Some? {
        return Err(AlreadyStarted);
      }
      var g := store.StartWorker(pid);
      match g
      case Ok(token) =>
        generation := Some(token);
        r := Ok(());
      case Err(e) =>
        r := Err(e);
    }

    /** A stale token changes nothing and is reported; the row's own token ends it and is spent. */
    method Finish(status: Status) returns (r: Result<(), WorkerError>)
      modifies this, store`row
      ensures old(generation).None? ==> r == Err(NotStarted) && store.row == old(store.row) && generation == None
      ensures old(generation).Some? && old(store.healthy) ==>
        && store.row == (if store.known then Ended(old(store.row), old(generation).value, status) else old(store.row))
        && if store.known && old(store.row).generation == old(generation) then r == Ok(()) && generation == None
           else r == Err(StaleGeneration) && generation == old(generation) && store.row == old(store.row)
      ensures old(generation).Some? && !old(store.healthy) ==>
        r == Err(StoreFailed) && store.row == old(store.row) && generation == old(generation)
    {
      if generation.None? {
        return Err(NotStarted);
      }
      var done := store.FinishWorker(generation.value, status);
      match done
      case Err(e) =>
        r := Err(e);
      case Ok(current) =>
        if !current {
          return Err(StaleGeneration);
        }
        generation := None;
        r := Ok(());
    }

    /** A worker dropped before it finished records `failed`, if the store lets it, then unlocks. */
    method Drop()
      modifies this, store`row, lock
      ensures generation == None && lock.holder == None
      ensures store.row == if old(generation).Some? && old(store.healthy) && store.known
                           then Ended(old(store.row), old(generation).value, Failed) else old(store.row)
    {
      if generation.Some? {
        var token := generation.value;
        generation := None;
        var _ := store.FinishWorker(token, Failed);
      }
      lock.Unlock();
    }
  }
}
