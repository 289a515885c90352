/** Any number of processes on one session. Each must hold the session lock to act; a process may
    crash at any instant, and the OS then releases its lock and leaves the rows as they are. */
module Systems {
  import opened Wrappers
  import opened Llm
  import opened Ids
  import opened Sessions
  import opened Recoveries
  import opened Protocols
  import opened Plays
  import opened Invariants
  import opened Safety
  import opened CrashSafety
  import opened Guarantees
  import W = Workers

  /** Where a lock holder stands (crates/harness/src/pen.rs `run_child`, and the CLI's run path). */
  datatype Work =
    | Acquired
    | Started
    | Recovering(plan: seq<Write>)
    | Active(phase: Phase, memory: seq<Message>, base: nat)
    | Stopped

  datatype Owner = Owner(work: Work, generation: Option<nat>)

  datatype Sys = Sys(lock: Option<nat>, owners: map<nat, Owner>, row: W.Row, generations: nat,
                     s: Session, ghost ran: set<(Id, string)>)

  datatype Act =
    | Acquire(p: nat)
    | StartWorker(p: nat)
    | BeginRecovery(p: nat)
    | RecoveryWrite(p: nat)
    | Prepared(p: nat)
    | Run(p: nat, e: Event)
    | Stop(p: nat)
    | FinishWorker(p: nat, status: W.Status)
    | Drop(p: nat, recorded: bool)
    | Unlock(p: nat)
    | Crash(p: nat)

  const INIT := Sys(None, map[], W.Row(W.Idle, None, None), 0, EMPTY, {})

  ghost function ConfigOf(y: Sys, w: Work): Config
    requires w.Active?
  {
    Config(y.s, w.phase, w.memory, w.base, y.ran)
  }

  /** A run that is dropped can only be at a point where it awaits, or be over. */
  predicate MayStop(w: Work) {
    match w
    case Acquired => false
    case Active(phase, _, _) => phase.Ready? || phase.Calling? || phase.Executing?
    case _ => true
  }

  ghost function Do(y: Sys, a: Act): Option<Sys> {
    match a
    case Acquire(p) =>
      if p in y.owners then None
      else if y.lock.Some? then Some(y)
      else Some(y.(lock := Some(p), owners := y.owners[p := Owner(Acquired, None)]))
    case StartWorker(p) =>
      if p in y.owners && y.owners[p].work.Acquired?
      then Some(y.(owners := y.owners[p := Owner(Started, Some(y.generations))],
                   row := W.Claimed(p, y.generations), generations := y.generations + 1))
      else None
    case BeginRecovery(p) =>
      if p in y.owners && y.owners[p].work.Started?
      then Some(SetWork(y, p, Recovering(Plan(y.s)))) else None
    case RecoveryWrite(p) =>
      if p in y.owners && y.owners[p].work.Recovering? && y.owners[p].work.plan != [] then
        var plan := y.owners[p].work.plan;
        Some(SetWork(y, p, Recovering(plan[1..])).(s := Commit(y.s, plan[0])))
      else None
    case Prepared(p) =>
      if p in y.owners && y.owners[p].work == Recovering([])
      then Some(SetWork(y, p, Active(Ready, Transcript(y.s), |Transcript(y.s)|))) else None
    case Run(p, e) =>
      if p in y.owners && y.owners[p].work.Active? && Enabled(ConfigOf(y, y.owners[p].work), e) then
        var d := Next(ConfigOf(y, y.owners[p].work), e);
        Some(SetWork(y, p, Active(d.phase, d.memory, d.base)).(s := d.s, ran := d.ran))
      else None
    case Stop(p) =>
      if p in y.owners && MayStop(y.owners[p].work) then Some(SetWork(y, p, Stopped)) else None
    case FinishWorker(p, status) =>
      if p in y.owners && y.owners[p].work.Stopped? && y.owners[p].generation.Some?
         && (status.Completed? || status.Failed?) then
        var token := y.owners[p].generation.value;
        if y.row.generation == Some(token)
        then Some(y.(owners := y.owners[p := Owner(Stopped, None)], row := W.Ended(y.row, token, status)))
        else Some(y)
      else None
    case Drop(p, recorded) =>
      if p in y.owners && (y.owners[p].work.Stopped? || y.owners[p].work.Acquired?) && y.owners[p].generation.Some? then
        var token := y.owners[p].generation.value;
        Some(y.(owners := y.owners[p := Owner(Stopped, None)],
                row := if recorded then W.Ended(y.row, token, W.Failed) else y.row))
      else None
    case Unlock(p) =>
      if p in y.owners && (y.owners[p].work.Stopped? || y.owners[p].work.Acquired?) && y.owners[p].generation.None?
      then Some(y.(lock := None, owners := y.owners - {p})) else None
    case Crash(p) =>
      if p in y.owners then Some(y.(lock := None, owners := y.owners - {p})) else None
  }

  function SetWork(y: Sys, p: nat, w: Work): Sys
    requires p in y.owners
  {
    y.(owners := y.owners[p := y.owners[p].(work := w)])
  }

  // ---------------------------------------------------------------- invariant

  /** The lock has at most one holder, and only a holder acts. */
  ghost predicate Exclusive(y: Sys) {
    match y.lock
    case None => y.owners == map[]
    case Some(p) => y.owners.Keys == {p}
  }

  /** A row is running exactly while it carries a generation and a pid; a started holder's generation
      is the row's. */
  ghost predicate RowOk(y: Sys) {
    && (y.row.status.Running? <==> y.row.generation.Some?)
    && (y.row.pid.Some? <==> y.row.generation.Some?)
    && (y.row.generation.Some? ==> y.row.generation.value < y.generations)
    && (forall p :: p in y.owners && y.owners[p].generation.Some? ==>
          y.row == W.Claimed(p, y.owners[p].generation.value))
    && (forall p :: p in y.owners ==>
          match y.owners[p].work
          case Acquired => y.owners[p].generation.None?
          case Stopped => true
          case _ => y.owners[p].generation.Some?)
  }

  ghost predicate WorkOk(y: Sys, w: Work) {
    match w
    case Recovering(plan) => exists from: nat :: Resuming(y.s, plan, from, y.ran)
    case Active(_, _, _) => Inv(ConfigOf(y, w))
    case _ => true
  }

  ghost predicate SysInv(y: Sys) {
    && Exclusive(y)
    && RowOk(y)
    && (exists from: nat :: Durable(y.s, from, y.ran))
    && (forall p :: p in y.owners ==> WorkOk(y, y.owners[p].work))
  }

  lemma InitInv()
    ensures SysInv(INIT)
  {
    EmptyChain();
    assert Durable(EMPTY, 0, {});
  }

  lemma SessionActKeeps(y: Sys, a: Act)
    requires SysInv(y) && Do(y, a).Some?
    requires a.BeginRecovery? || a.RecoveryWrite? || a.Prepared? || a.Run? || a.Stop?
    ensures SysInv(Do(y, a).value)
  {
    hide Durable, Inv, Plan, Enabled, Next;
    var z := Do(y, a).value;
    var w := y.owners[a.p].work;
    var from: nat :| Durable(y.s, from, y.ran);
    assert z.owners.Keys == y.owners.Keys;
    match a
    case BeginRecovery(p) =>
      assert Resuming(y.s, Plan(y.s), from, y.ran);
    case RecoveryWrite(p) =>
      var at: nat :| Resuming(y.s, w.plan, at, y.ran);
      var next := RecoveryStep(y.s, w.plan, at, y.ran);
      assert Durable(z.s, next, z.ran);
    case Prepared(p) =>
      var at: nat :| Resuming(y.s, [], at, y.ran);
      PreparedIsReady(y, at);
    case Run(p, e) =>
      EventKeeps(ConfigOf(y, w), e);
      InvIsDurable(Next(ConfigOf(y, w), e));
    case Stop(p) =>
  }

  lemma InvIsDurable(c: Config)
    requires Inv(c)
    ensures Durable(c.s, From(c), c.ran)
  {}

  /** When recovery has nothing left to write the session is idle and its transcript is the path. */
  lemma PreparedIsReady(y: Sys, at: nat)
    requires Resuming(y.s, [], at, y.ran)
    ensures Inv(Config(y.s, Ready, Transcript(y.s), |Transcript(y.s)|, y.ran))
  {
    if !NoneOpen(y.s.records) {
      OpenChoice(y.s);
      var run: nat :| OnlyOpen(y.s.records, run);
      PlanNotEmpty(y.s, run);
    }
    NothingPending(y.s, at);
    assert Transcript(y.s) + [] == Transcript(y.s);
  }

  lemma PlanNotEmpty(s: Session, run: nat)
    requires OnlyOpen(s.records, run)
    ensures Plan(s) != []
  {
    ReduceMeaning(s);
  }

  lemma WorkerActKeeps(y: Sys, a: Act)
    requires SysInv(y) && Do(y, a).Some?
    requires a.Acquire? || a.StartWorker? || a.FinishWorker? || a.Drop? || a.Unlock? || a.Crash?
    ensures SysInv(Do(y, a).value)
  {
    hide Durable, Inv, Plan, Enabled, Next, Resuming;
    var z := Do(y, a).value;
    assert z.s == y.s && z.ran == y.ran;
    forall p | p in z.owners
      ensures WorkOk(z, z.owners[p].work)
    {
      if p in y.owners {
        assert WorkOk(y, y.owners[p].work);
      }
    }
    if a.Unlock? || a.Crash? {
      assert z.owners == map[];
    }
  }

  /** Every act of every process keeps the system invariant. */
  lemma ActKeeps(y: Sys, a: Act)
    requires SysInv(y) && Do(y, a).Some?
    ensures SysInv(Do(y, a).value)
  {
    hide SysInv, Do;
    if a.Acquire? || a.StartWorker? || a.FinishWorker? || a.Drop? || a.Unlock? || a.Crash? {
      WorkerActKeeps(y, a);
    } else {
      SessionActKeeps(y, a);
    }
  }

  // ---------------------------------------------------------------- every interleaving

  ghost predicate Reachable(y: Sys) {
    exists acts: seq<Act> :: Play(Do, INIT, acts) == Some(y)
  }

  lemma ReachableInv(y: Sys)
    requires Reachable(y)
    ensures SysInv(y)
  {
    hide SysInv, Do;
    var acts: seq<Act> :| Play(Do, INIT, acts) == Some(y);
    InitInv();
    forall z: Sys, a: Act {:trigger Do(z, a)} | SysInv(z) && Do(z, a).Some?
      ensures SysInv(Do(z, a).value)
    {
      ActKeeps(z, a);
    }
    PlayInvariant(Do, INIT, acts, SysInv);
  }

  ghost predicate OneFinishEach(rs: seq<Record>) {
    forall i, j | 0 <= i < |rs| && 0 <= j < |rs| && rs[i].run == rs[j].run ::
      rs[i].payload.OperationFinished? && rs[j].payload.OperationFinished? ==> i == j
  }

  /** Over every interleaving of any number of processes that acquire, recover, run, cancel and crash:
      at most one run is open, so the reducer never reports corruption; and each run has at most one
      finish record. */
  lemma SingleOpenRun(y: Sys)
    requires Reachable(y)
    ensures Reduce(y.s).Ok?
    ensures AtMostOneOpen(y.s.records)
    ensures OneFinishEach(y.s.records)
  {
    ReachableInv(y);
    var from: nat :| Durable(y.s, from, y.ran);
    NeverCorrupt(y.s, from, y.ran);
    var rs := y.s.records;
    forall i, j | 0 <= i < |rs| && 0 <= j < |rs| && rs[i].payload.OperationFinished?
                  && rs[j].payload.OperationFinished? && rs[i].run == rs[j].run
      ensures i == j
    {
      assert Named(rs[i]) && Named(rs[j]);
    }
  }

  /** No act of any process rewrites or removes a row: records and entries only grow. With at most one
      finish record a run, its first outcome never changes. */
  lemma RowsOnlyGrow(y: Sys, a: Act)
    requires SysInv(y) && Do(y, a).Some?
    ensures y.s.records <= Do(y, a).value.s.records && y.s.entries <= Do(y, a).value.s.entries
    ensures y.ran <= Do(y, a).value.ran
  {
    hide SysInv;
    if a.Run? {
      RunGrows(ConfigOf(y, y.owners[a.p].work), a.e);
    }
  }

  lemma RunGrows(c: Config, e: Event)
    requires Enabled(c, e)
    ensures c.s.records <= Next(c, e).s.records && c.s.entries <= Next(c, e).s.entries
    ensures c.ran <= Next(c, e).ran
  {
    if Writes(c, e) != [] {
      One(c.s, Writes(c, e)[0]);
    }
  }

  lemma {:induction false} HistoryOnlyGrows(y: Sys, acts: seq<Act>)
    requires SysInv(y) && Play(Do, y, acts).Some?
    ensures y.s.records <= Play(Do, y, acts).value.s.records
    ensures y.s.entries <= Play(Do, y, acts).value.s.entries
    ensures y.ran <= Play(Do, y, acts).value.ran
    decreases |acts|
  {
    hide SysInv, Do;
    if acts != [] {
      ActKeeps(y, acts[0]);
      RowsOnlyGrow(y, acts[0]);
      HistoryOnlyGrows(Do(y, acts[0]).value, acts[1..]);
    }
  }

  /** Whatever happened before - runs, cancellations, crashes of runs and of recoveries - every tool
      that ever began has, after the next recovery, its result in a fully answered batch. */
  lemma EveryEffectAnswered(y: Sys, results: Id, use: string)
    requires Reachable(y) && (results, use) in y.ran
    ensures FullyAnswered(Recovered(y.s).entries, results, use)
  {
    ReachableInv(y);
    var from: nat :| Durable(y.s, from, y.ran);
    NoEffectUnanswered(y.s, from, y.ran, results, use);
  }

  /** Ownership: one holder at most; a started holder's generation is the row's, with status running,
      so its own finish is never stale; and a terminal row carries no pid and no generation. */
  lemma Ownership(y: Sys, p: nat)
    requires Reachable(y) && p in y.owners
    ensures y.lock == Some(p) && forall q :: q in y.owners ==> q == p
    ensures y.owners[p].generation.Some? ==>
      y.row == W.Row(W.Running, Some(p), y.owners[p].generation)
    ensures !y.row.status.Running? ==> y.row.pid == None && y.row.generation == None
    ensures forall status :: Do(y, FinishWorker(p, status)).Some? ==>
      Do(y, FinishWorker(p, status)).value.row == W.Row(status, None, None)
  {
    ReachableInv(y);
  }

  /** Where a dropped run stops: inside the provider call, among the tools of a batch, or when it is over; and
      nowhere between two writes. A worker that is not started yet has nothing to stop. */
  lemma StopsExactly(y: Sys, p: nat)
    requires p in y.owners
    ensures Do(y, Stop(p)).Some? <==>
      var work := y.owners[p].work;
      !work.Acquired? && (work.Active? ==> work.phase.Calling? || work.phase.Executing? || work.phase.Ready?)
    ensures Do(y, Stop(p)).Some? ==> Do(y, Stop(p)).value.s == y.s && Do(y, Stop(p)).value.owners[p].work == Stopped
  {
  }

  /** A run that is cancelled or times out stops where it awaits. Whatever happened before, in whichever
      processes, the recovery that follows pairs every call of that run with exactly one result. */
  lemma CancelledRunPairs(y: Sys, p: nat)
    requires Reachable(y) && p in y.owners && y.owners[p].work.Active? && Do(y, Stop(p)).Some?
    ensures Do(y, Stop(p)).value.s == y.s
    ensures PairedFrom(Transcript(Recovered(y.s)), y.owners[p].work.base)
  {
    hide Inv, PairedFrom, Reachable, Recovered;
    ReachableInv(y);
    assert WorkOk(y, y.owners[p].work);
    PairedAfterCrash(ConfigOf(y, y.owners[p].work));
  }

  /** A process that crashes leaves the session to the next owner: the lock is free, so acquiring
      succeeds, whatever the row still says. */
  lemma CrashFreesTheSession(y: Sys, p: nat, q: nat)
    requires Reachable(y) && p in y.owners
    ensures var z := Do(y, Crash(p)).value;
      z.s == y.s && z.row == y.row && Do(z, Acquire(q)).Some? && q in Do(z, Acquire(q)).value.owners
  {
    ReachableInv(y);
    assert (y.owners - {p}).Keys == {};
  }
}
