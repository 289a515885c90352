/** What a process that owns a session can do, as it goes through `run_child` or a run from the command
    line: recover, open a run, get a reply, complete it, leave (crates/harness/src/pen.rs `run_child`). */
module SystemRuns {
  import opened Wrappers
  import opened Llm
  import opened Ids
  import opened Sessions
  import opened Recoveries
  import opened Protocols
  import opened Plays
  import opened Invariants
  import opened Safety
  import opened Systems
  import S = Stores
  import E = Endings
  import T = Traces
  import W = Workers

  // ---------------------------------------------------------------- ids nobody has seen

  function Top(a: nat, b: nat): nat {
    if a < b then b else a
  }

  function AboveEntries(es: seq<Entry>): (n: nat)
    ensures forall i :: 0 <= i < |es| ==> Base(es[i].id) < n
  {
    if es == [] then 0 else Top(AboveEntries(es[..|es| - 1]), Base(es[|es| - 1].id) + 1)
  }

  function AboveRecord(r: Record): (n: nat)
    ensures Base(r.id) < n && r.run < n && (r.payload.ToolStarted? ==> Base(r.payload.resultsEntry) < n)
  {
    Top(Base(r.id) + 1, Top(r.run + 1, if r.payload.ToolStarted? then Base(r.payload.resultsEntry) + 1 else 0))
  }

  function AboveRecords(rs: seq<Record>): (n: nat)
    ensures forall i :: 0 <= i < |rs| ==> AboveRecord(rs[i]) <= n
  {
    if rs == [] then 0 else Top(AboveRecords(rs[..|rs| - 1]), AboveRecord(rs[|rs| - 1]))
  }

  /** There are always ids no row mentions. */
  lemma Supply(s: Session) returns (n: nat)
    ensures S.SupplyOk(s, n)
  {
    hide AboveEntries, AboveRecords, AboveRecord;
    n := Top(AboveEntries(s.entries), AboveRecords(s.records));
    forall m: nat | n <= m
      ensures Unseen(s, m)
    {
      assert forall i :: 0 <= i < |s.records| ==> AboveRecord(s.records[i]) <= m;
    }
  }

  // ---------------------------------------------------------------- one run up to its reply

  /** From an idle state: a prompt, one request, and the reply, whose call ids are distinct. */
  lemma Answering(c: Config, user: Message, ask: Message) returns (start: Event, es: seq<Event>, d: Config)
    requires Inv(c) && c.phase.Ready? && user.role.User? && ask.role.Assistant? && NoRepeats(Uses(ask))
    ensures start.Start? && forall i :: 0 <= i < |es| ==> es[i].Mark? || es[i].Prompt? || es[i].Step? || es[i].Reply?
    ensures Play(Advance, c, [start] + es) == Some(d) && d.phase.Replied? && d.phase.ask == ask
    ensures BegunSince(c.s, d.s)
  {
    hide Durable, PairedFrom, Reduce, Commit, Advance, Enabled, CommitAll, UsesIn;
    E.Idle(c.s);
    var run := Supply(c.s);
    assert Unseen(c.s, run);
    var first := PutRecord(Uuid(run), run, OperationStarted(c.s.leaf));
    S.SupplyKept(c.s, first, run + 1) by { SupplyMore(c.s, run); }
    var s1 := Commit(c.s, first);
    S.SupplyKept(s1, SetMarker(run), run + 1);
    var s2 := Commit(s1, SetMarker(run));
    assert Unseen(s2, run + 1);
    var c1 := T.CanStart(c, run, user, run + 1);
    S.SupplyKept(s2, PutEntry(Uuid(run + 1), user), run + 2) by { SupplyMore(s2, run + 1); }
    var c2 := T.CanStep(c1);
    S.SupplyKept(c1.s, PutRecord(StepId(run, 1), run, StepAttempt(1)), run + 2);
    assert Unseen(c2.s, run + 2);
    start := Start(run, user);
    es := [Mark, Prompt(run + 1), Step, Reply(run + 2, ask)];
    T.FollowsConcat(c, [start, Mark, Prompt(run + 1)], c1, T.Log(c, [start, Mark, Prompt(run + 1)]),
                    [Step], c2, T.Log(c1, [Step]));
    StillBegun(c.s, c.s, first);
    StillBegun(c.s, s1, SetMarker(run));
    StillBegun(c.s, s2, PutEntry(Uuid(run + 1), user));
    StillBegun(c.s, c1.s, PutRecord(StepId(run, 1), run, StepAttempt(1)));
    NewRunIsFresh(c.s, c2.s, run, Uses(ask));
    d := T.CanReply(c2, run + 2, ask);
    StillBegun(c.s, c2.s, PutEntry(Uuid(run + 2), ask));
    PlayConcat(Advance, c, [start, Mark, Prompt(run + 1)] + [Step], c2, [Reply(run + 2, ask)]);
    assert [start] + es == [start, Mark, Prompt(run + 1)] + [Step] + [Reply(run + 2, ask)];
  }

  lemma NewRunIsFresh(s: Session, t: Session, run: nat, ids: seq<string>)
    requires Unseen(s, run) && NoRepeats(ids) && BegunSince(s, t)
    ensures FreshUses(t.records, run, ids)
  {
    forall i | 0 <= i < |ids|
      ensures !HasRecord(t.records, ToolId(run, ids[i]))
    {
      forall k | 0 <= k < |t.records|
        ensures t.records[k].id != ToolId(run, ids[i])
      {
        if k < |s.records| {
          assert t.records[k] == s.records[k];
        }
      }
    }
  }

  /** No run ended and no intent was recorded between the two. */
  predicate BegunSince(s: Session, t: Session) {
    && s.records <= t.records
    && forall i :: |s.records| <= i < |t.records| ==>
         !t.records[i].payload.OperationFinished? && !t.records[i].id.ToolId?
  }

  lemma StillBegun(s: Session, t: Session, w: Write)
    requires BegunSince(s, t) && (w.PutRecord? ==> !w.payload.OperationFinished? && !w.id.ToolId?)
    ensures BegunSince(s, Commit(t, w))
  {
  }

  lemma SupplyMore(s: Session, n: nat)
    requires S.SupplyOk(s, n)
    ensures S.SupplyOk(s, n + 1)
  {
    hide Unseen;
  }

  // ---------------------------------------------------------------- the same as acts

  /** Process `p` owns the session at point `w`, under a generation of its own. */
  ghost predicate Owns(y: Sys, p: nat, w: Work) {
    p in y.owners && y.owners[p].work == w && y.owners[p].generation.Some?
  }

  function Acts(p: nat, es: seq<Event>): (acts: seq<Act>)
    ensures |acts| == |es| && forall i :: 0 <= i < |acts| ==> acts[i] == Run(p, es[i])
  {
    if es == [] then [] else [Run(p, es[0])] + Acts(p, es[1..])
  }

  function Moved(y: Sys, p: nat, d: Config): Sys
    requires p in y.owners
  {
    SetWork(y, p, Active(d.phase, d.memory, d.base)).(s := d.s, ran := d.ran)
  }

  /** A run of the protocol is a run of the process that owns the session. */
  lemma {:induction false} RunsAsActs(y: Sys, p: nat, es: seq<Event>, d: Config)
    requires p in y.owners && y.owners[p].work.Active?
    requires Play(Advance, ConfigOf(y, y.owners[p].work), es) == Some(d)
    ensures Play(Do, y, Acts(p, es)) == Some(Moved(y, p, d))
    decreases |es|
  {
    hide Enabled, Next;
    if es == [] {
      assert Moved(y, p, d).owners == y.owners;
    } else {
      var c := Next(ConfigOf(y, y.owners[p].work), es[0]);
      var z := Moved(y, p, c);
      assert Do(y, Run(p, es[0])) == Some(z);
      RunsAsActs(z, p, es[1..], d);
      assert Moved(z, p, d) == Moved(y, p, d);
    }
  }

  function Writings(p: nat, n: nat): (acts: seq<Act>)
    ensures |acts| == n && forall i :: 0 <= i < n ==> acts[i] == RecoveryWrite(p)
  {
    if n == 0 then [] else [RecoveryWrite(p)] + Writings(p, n - 1)
  }

  lemma {:induction false} RecoversAsActs(y: Sys, p: nat, plan: seq<Write>)
    requires p in y.owners && y.owners[p].work == Recovering(plan)
    ensures Play(Do, y, Writings(p, |plan|)) == Some(SetWork(y, p, Recovering([])).(s := CommitAll(y.s, plan)))
    decreases |plan|
  {
    hide Commit;
    if plan == [] {
      assert SetWork(y, p, Recovering([])).owners == y.owners;
    } else {
      var z := SetWork(y, p, Recovering(plan[1..])).(s := Commit(y.s, plan[0]));
      assert Do(y, RecoveryWrite(p)) == Some(z);
      RecoversAsActs(z, p, plan[1..]);
      assert SetWork(z, p, Recovering([])).owners == SetWork(y, p, Recovering([])).owners;
      assert Writings(p, |plan|) == [RecoveryWrite(p)] + Writings(p, |plan| - 1);
      assert Writings(p, |plan|)[1..] == Writings(p, |plan[1..]|);
    }
  }

  /** An act of `p` that neither takes nor leaves the session nor starts a run. */
  predicate Steady(a: Act, p: nat) {
    && a.p == p && !a.Acquire? && !a.Crash? && !a.Unlock? && !(a.Run? && a.e.Start?)
  }

  predicate AllSteady(acts: seq<Act>, p: nat) {
    forall i :: 0 <= i < |acts| ==> Steady(acts[i], p)
  }

  /** The worker is started and the session recovered: the owner stands ready to send. */
  lemma Preparing(y: Sys, p: nat) returns (acts: seq<Act>, z: Sys)
    requires p in y.owners && y.owners[p].work.Acquired?
    ensures AllSteady(acts, p) && Play(Do, y, acts) == Some(z)
    ensures z.s == Recovered(y.s) && z.lock == y.lock && z.owners.Keys == y.owners.Keys
    ensures Owns(z, p, Active(Ready, Transcript(z.s), |Transcript(z.s)|))
  {
    hide Plan, CommitAll, Transcript;
    var y1 := Do(y, StartWorker(p)).value;
    var plan := Plan(y1.s);
    var y2 := Do(y1, BeginRecovery(p)).value;
    RecoversAsActs(y2, p, plan);
    var y3 := SetWork(y2, p, Recovering([])).(s := CommitAll(y2.s, plan));
    z := Do(y3, Prepared(p)).value;
    PlayOne(Do, y, StartWorker(p));
    PlayOne(Do, y1, BeginRecovery(p));
    PlayOne(Do, y3, Prepared(p));
    var a, b, c, d := [StartWorker(p)], [BeginRecovery(p)], Writings(p, |plan|), [Prepared(p)];
    PlayConcat(Do, y, a, y1, b);
    PlayConcat(Do, y, a + b, y2, c);
    PlayConcat(Do, y, a + b + c, y3, d);
    acts := a + b + c + d;
  }

  /** A run is started, and its first reply, which asks for nothing, is on disk. */
  lemma Asking(y: Sys, p: nat, memory: seq<Message>, user: Message, ask: Message)
    returns (start: Event, acts: seq<Act>, z: Sys)
    requires SysInv(y) && Owns(y, p, Active(Ready, memory, |memory|))
    requires user.role.User? && ask.role.Assistant? && Uses(ask) == []
    ensures start.Start? && AllSteady(acts, p) && Play(Do, y, [Run(p, start)] + acts) == Some(z)
    ensures z.lock == y.lock && z.owners.Keys == y.owners.Keys && p in z.owners && z.owners[p].work.Active?
    ensures z.owners[p].work.phase.Replied? && z.owners[p].work.phase.ask == ask && z.owners[p].generation.Some?
    ensures BegunSince(y.s, z.s)
  {
    hide Inv, Durable, Advance, UsesIn, Enabled;
    assert WorkOk(y, y.owners[p].work);
    var es, d;
    start, es, d := Answering(ConfigOf(y, y.owners[p].work), user, ask);
    RunsAsActs(y, p, [start] + es, d);
    acts := Acts(p, es);
    assert ([start] + es)[1..] == es;
    assert Acts(p, [start] + es) == [Run(p, start)] + acts;
    z := Moved(y, p, d);
  }

  // A run that is over: the agent is dropped and the worker finished.
  lemma Finishing(y: Sys, p: nat) returns (z: Sys)
    requires SysInv(y) && p in y.owners && y.owners[p].work.Active? && y.owners[p].work.phase.Ready?
    requires y.owners[p].generation.Some?
    ensures Play(Do, y, [Stop(p), FinishWorker(p, W.Completed)]) == Some(z)
    ensures z.s == y.s && p in z.owners && z.owners[p].work.Stopped? && z.owners[p].generation.None?
  {
    hide Inv, Durable;
    var y2 := Do(y, Stop(p)).value;
    z := Do(y2, FinishWorker(p, W.Completed)).value;
    PlayOne(Do, y, Stop(p));
    PlayOne(Do, y2, FinishWorker(p, W.Completed));
    PlayConcat(Do, y, [Stop(p)], y2, [FinishWorker(p, W.Completed)]);
    assert [Stop(p)] + [FinishWorker(p, W.Completed)] == [Stop(p), FinishWorker(p, W.Completed)];
  }

  /** The run completes, its marker and metadata follow, and the process leaves. */
  lemma Completing(y: Sys, p: nat) returns (acts: seq<Act>, z: Sys)
    requires SysInv(y) && p in y.owners && y.owners[p].work.Active? && y.owners[p].generation.Some?
    requires y.owners[p].work.phase.Replied? && Uses(y.owners[p].work.phase.ask) == []
    ensures AllSteady(acts, p) && Play(Do, y, [Run(p, Event.Finish(Completed))] + acts) == Some(z)
    ensures p in z.owners && z.owners[p].work.Stopped? && z.owners[p].generation.None?
  {
    hide SysInv, Advance, Play, UsesIn, Do;
    var c := ConfigOf(y, y.owners[p].work);
    assert Enabled(c, Event.Finish(Completed));
    var d := T.CanFinish(c, Completed);
    var es := [Event.Finish(Completed), Unmark, Meta];
    RunsAsActs(y, p, es, d);
    AllKept(y, Acts(p, es));
    z := Finishing(Moved(y, p, d), p);
    var leave := [Stop(p), FinishWorker(p, W.Completed)];
    PlayConcat(Do, y, Acts(p, es), Moved(y, p, d), leave);
    acts := [Run(p, Unmark), Run(p, Meta)] + leave;
    assert [Run(p, Event.Finish(Completed))] + acts == Acts(p, es) + leave;
  }

  lemma AllKept(y: Sys, acts: seq<Act>)
    requires SysInv(y) && Play(Do, y, acts).Some?
    ensures SysInv(Play(Do, y, acts).value)
  {
    hide SysInv, Do;
    forall z: Sys, a: Act {:trigger Do(z, a)} | SysInv(z) && Do(z, a).Some?
      ensures SysInv(Do(z, a).value)
    {
      ActKeeps(z, a);
    }
    PlayInvariant(Do, y, acts, SysInv);
  }
}
