/** Deeds that lead somewhere: the inputs on which a replay does not return the completed run's answer,
    and what a child needs to be able to answer at all (crates/harness/src/pen.rs, crates/store/src/lib.rs
    `create_child_session`). */
module PenRuns {
  import opened Wrappers
  import opened Llm
  import opened Sessions
  import opened Recoveries
  import opened Plays
  import opened Systems
  import opened SystemRuns
  import opened Pens
  import P = Protocols
  import Inv = Invariants
  import C = CrashSafety

  // ---------------------------------------------------------------- acts as deeds

  function PenDeeds(id: string, acts: seq<Systems.Act>): (deeds: seq<Deed>)
    ensures |deeds| == |acts| && forall i :: 0 <= i < |acts| ==> deeds[i] == PenAct(id, acts[i])
  {
    if acts == [] then [] else [PenAct(id, acts[0])] + PenDeeds(id, acts[1..])
  }

  function OtherDeeds(id: string, acts: seq<Systems.Act>): (deeds: seq<Deed>)
    ensures |deeds| == |acts| && forall i :: 0 <= i < |acts| ==> deeds[i] == OtherAct(id, acts[i])
  {
    if acts == [] then [] else [OtherAct(id, acts[0])] + OtherDeeds(id, acts[1..])
  }

  lemma SameChild(f: Family, id: string, c: Child, d: Child)
    requires id in f.children
    ensures WithChild(WithChild(f, id, c), id, d) == WithChild(f, id, d)
    ensures WithChild(f, id, f.children[id]) == f
  {
    Overwritten(f, id, c, d);
    assert WithChild(f, id, f.children[id]).children == f.children;
  }

  /** What a job's process can do, the pen can do. */
  lemma {:induction false} PenPlays(idOf: string -> string, f: Family, id: string, acts: seq<Systems.Act>, z: Sys)
    requires id in f.children && f.children[id].lane && f.children[id].job.Some?
    requires AllSteady(acts, f.children[id].job.value.p) && Play(Do, f.children[id].y, acts) == Some(z)
    ensures Play(AloneOf(idOf), f, PenDeeds(id, acts)) == Some(WithChild(f, id, f.children[id].(y := z)))
    decreases |acts|
  {
    hide Do, NeedsLane;
    var c := f.children[id];
    SameChild(f, id, c, c.(y := z));
    if acts == [] {
      assert c.(y := z) == c;
    } else {
      assert Steady(acts[0], c.job.value.p);
      var y1 := Do(c.y, acts[0]).value;
      var f1 := WithChild(f, id, c.(y := y1));
      SameChild(f, id, c.(y := y1), c.(y := z));
      assert AloneStep(idOf, f, PenAct(id, acts[0])) == Some(f1);
      PenPlays(idOf, f1, id, acts[1..], z);
      assert PenDeeds(id, acts)[1..] == PenDeeds(id, acts[1..]);
      assert f1.children[id].(y := z) == c.(y := z);
    }
  }

  /** And what any process can do on a child the pen does not run. */
  lemma {:induction false} OtherPlays(idOf: string -> string, f: Family, id: string, acts: seq<Systems.Act>, z: Sys)
    requires id in f.children && f.children[id].lane && f.children[id].job.None?
    requires Play(Do, f.children[id].y, acts) == Some(z)
    ensures Play(StepOf(idOf), f, OtherDeeds(id, acts)) == Some(WithChild(f, id, f.children[id].(y := z)))
    decreases |acts|
  {
    hide Do, NeedsLane;
    var c := f.children[id];
    SameChild(f, id, c, c.(y := z));
    if acts == [] {
      assert c.(y := z) == c;
    } else {
      var y1 := Do(c.y, acts[0]).value;
      var f1 := WithChild(f, id, c.(y := y1));
      SameChild(f, id, c.(y := y1), c.(y := z));
      assert Step(idOf, f, OtherAct(id, acts[0])) == Some(f1);
      OtherPlays(idOf, f1, id, acts[1..], z);
      assert OtherDeeds(id, acts)[1..] == OtherDeeds(id, acts[1..]);
      assert f1.children[id].(y := z) == c.(y := z);
    }
  }

  // ---------------------------------------------------------------- one run of a job

  /** The pen's job is about to begin: it has just acquired the session. */
  ghost predicate Entered(c: Child, p: nat) {
    && c.lane && c.job.Some? && c.job.value.p == p && !c.job.value.sent
    && p in c.y.owners && c.y.owners[p].work.Acquired?
  }

  /** The job has sent, and its reply is on disk. */
  ghost predicate Answered(c: Child, p: nat, ask: Message) {
    && c.lane && c.job.Some? && c.job.value.p == p && c.job.value.sent
    && p in c.y.owners && c.y.owners[p].work.Active? && c.y.owners[p].generation.Some?
    && c.y.owners[p].work.phase.Replied? && c.y.owners[p].work.phase.ask == ask
  }

  predicate Plain(user: Message, ask: Message) {
    user.role.User? && ask.role.Assistant? && Uses(ask) == []
  }

  lemma OutcomeKept(s: Session, t: Session)
    requires BegunSince(s, t)
    ensures LastOutcome(t.records) == LastOutcome(s.records)
  {
    assert t.records == s.records + t.records[|s.records|..];
    LastOutcomeConcat(s.records, t.records[|s.records|..]);
    NoFinishNoOutcome(t.records[|s.records|..]);
  }

  lemma {:induction false} NoFinishNoOutcome(rs: seq<Record>)
    requires forall i :: 0 <= i < |rs| ==> !rs[i].payload.OperationFinished?
    ensures LastOutcome(rs) == None
  {
    if rs != [] {
      NoFinishNoOutcome(rs[..|rs| - 1]);
    }
  }

  lemma {:induction false} NotCompletedThrough(s: Session, ws: seq<Write>)
    requires forall w :: w in ws && w.PutRecord? ==> w.payload != OperationFinished(Completed)
    requires LastOutcome(s.records) != Some(Completed)
    ensures LastOutcome(CommitAll(s, ws).records) != Some(Completed)
    decreases |ws|
  {
    hide LastOutcome, Commit;
    if ws != [] {
      assert ws[0] in ws;
      CommitOutcome(s, ws[0]);
      NotCompletedThrough(Commit(s, ws[0]), ws[1..]);
    }
  }

  lemma RecoveredOutcome(s: Session)
    requires LastOutcome(s.records) != Some(Completed)
    ensures LastOutcome(Recovered(s).records) != Some(Completed)
  {
    hide LastOutcome, Plan, CommitAll;
    PlanAborts(s);
    NotCompletedThrough(s, Plan(s));
  }

  /** A job that begins can start its run and get a reply. */
  lemma JobAnswers(idOf: string -> string, f: Family, id: string, p: nat, user: Message, ask: Message)
    returns (prepare: seq<Deed>, start: Deed, rest: seq<Deed>, c: Child)
    requires FamilyInv(f) && id in f.children && Entered(f.children[id], p) && Plain(user, ask)
    ensures Play(AloneOf(idOf), f, prepare + [start] + rest) == Some(WithChild(f, id, c))
    ensures Answered(c, p, ask) && c.flying == f.children[id].flying && c.waiting == f.children[id].waiting
    ensures c.job == Some(f.children[id].job.value.(sent := true))
    ensures Asks(start, id) && Play(AloneOf(idOf), f, prepare + [start]).Some?
    ensures forall d :: d in prepare + [start] + rest ==> d.PenAct?
    ensures LastOutcome(f.children[id].y.s.records) != Some(Completed) ==> LastOutcome(c.y.s.records) != Some(Completed)
  {
    hide LastOutcome, Recovered, Play, Do, NeedsLane, FamilyInv, Step, SysInv, UsesIn;
    var c0 := f.children[id];
    ChildSys(f, id);
    var acts, y1 := Preparing(c0.y, p);
    PenPlays(idOf, f, id, acts, y1);
    AllKept(c0.y, acts);
    var e, more, y2 := Asking(y1, p, Transcript(y1.s), user, ask);
    if LastOutcome(c0.y.s.records) != Some(Completed) {
      RecoveredOutcome(c0.y.s);
      OutcomeKept(y1.s, y2.s);
    }
    prepare, start, rest := PenDeeds(id, acts), PenAct(id, Run(p, e)), PenDeeds(id, more);
    var f1 := WithChild(f, id, c0.(y := y1));
    var y := FirstAct(y1, Run(p, e), more, y2);
    var c2 := c0.job.value.(sent := true);
    StartDeed(idOf, f1, id, p, e, y);
    var f2 := WithChild(f, id, c0.(y := y, job := Some(c2)));
    SameChild(f, id, c0.(y := y1), c0.(y := y, job := Some(c2)));
    PlayOne(AloneOf(idOf), f1, start);
    PlayConcat(AloneOf(idOf), f, prepare, f1, [start]);
    PenPlays(idOf, f2, id, more, y2);
    PlayConcat(AloneOf(idOf), f, prepare + [start], f2, rest);
    c := c0.(y := y2, job := Some(c2));
    SameChild(f, id, c0.(y := y, job := Some(c2)), c);
  }

  lemma ChildSys(f: Family, id: string)
    requires FamilyInv(f) && id in f.children
    ensures SysInv(f.children[id].y)
  {
    hide SysInv;
    assert ChildOk(f.children[id]);
  }

  lemma FirstAct(y: Sys, a: Systems.Act, more: seq<Systems.Act>, z: Sys) returns (x: Sys)
    requires Play(Do, y, [a] + more) == Some(z)
    ensures Do(y, a) == Some(x) && Play(Do, x, more) == Some(z)
  {
    hide Do;
    x := Do(y, a).value;
    assert ([a] + more)[1..] == more;
  }

  lemma StartDeed(idOf: string -> string, f: Family, id: string, p: nat, e: P.Event, y: Sys)
    requires id in f.children && f.children[id].job.Some? && f.children[id].job.value.p == p
    requires e.Start? && !f.children[id].job.value.sent && Do(f.children[id].y, Run(p, e)) == Some(y)
    ensures var job := Some(f.children[id].job.value.(sent := true));
      AloneStep(idOf, f, PenAct(id, Run(p, e))) == Some(WithChild(f, id, f.children[id].(y := y, job := job)))
  {
    hide Do;
  }

  lemma {:induction false} RestsThrough(y: Sys, acts: seq<Systems.Act>, p: nat, answer: string)
    requires SysInv(y) && Rests(y, answer) && AllSteady(acts, p) && Play(Do, y, acts).Some?
    ensures Rests(Play(Do, y, acts).value, answer)
    decreases |acts|
  {
    hide SysInv, Do, NoneOpen, LastOutcome, LastAnswer;
    if acts != [] {
      assert Steady(acts[0], p);
      ActKeeps(y, acts[0]);
      QuietActKeeps(y, acts[0]);
      RestsThrough(Do(y, acts[0]).value, acts[1..], p, answer);
    }
  }

  /** A job whose reply asks for nothing can complete its run and leave. */
  lemma JobCompletes(idOf: string -> string, f: Family, id: string, p: nat, ask: Message)
    returns (after: seq<Deed>, c: Child)
    requires FamilyInv(f) && id in f.children && Answered(f.children[id], p, ask) && Uses(ask) == []
    ensures var done := PenAct(id, Run(p, P.Finish(Completed)));
      && Completes(f, id, p, ask) && AloneStep(idOf, f, done).Some?
      && Play(AloneOf(idOf), AloneStep(idOf, f, done).value, after) == Some(WithChild(f, id, c))
    ensures c.job.None? && c.lane && c.y.owners == map[] && Rests(c.y, TextOf(ask))
    ensures c.flying == f.children[id].flying && c.waiting == f.children[id].waiting
    ensures forall d :: d in after ==> d.PenAct?
  {
    hide Do, NeedsLane, FamilyInv, Step, SysInv, UsesIn, Rests, TextOf, Play;
    var c0 := f.children[id];
    ChildSys(f, id);
    var acts, y2 := Completing(c0.y, p);
    var y1 := FirstAct(c0.y, Run(p, P.Finish(Completed)), acts, y2);
    CompletedChild(c0.y, p);
    ActKeeps(c0.y, Run(p, P.Finish(Completed)));
    RestsThrough(y1, acts, p, TextOf(ask));
    AllKept(y1, acts);
    var f1 := WithChild(f, id, c0.(y := y1));
    FinishDeed(idOf, f, id, p, y1);
    PenPlays(idOf, f1, id, acts, y2);
    var f2 := WithChild(f, id, c0.(y := y2));
    SameChild(f, id, c0.(y := y1), c0.(y := y2));
    c := LeaveDeed(idOf, f2, id, p, TextOf(ask));
    PlayOne(AloneOf(idOf), f2, PenAct(id, Unlock(p)));
    PlayConcat(AloneOf(idOf), f1, PenDeeds(id, acts), f2, [PenAct(id, Unlock(p))]);
    after := PenDeeds(id, acts) + [PenAct(id, Unlock(p))];
    SameChild(f, id, c0.(y := y2), c);
  }

  lemma FinishDeed(idOf: string -> string, f: Family, id: string, p: nat, y: Sys)
    requires id in f.children && f.children[id].job.Some? && f.children[id].job.value.p == p
    requires Do(f.children[id].y, Run(p, P.Finish(Completed))) == Some(y)
    ensures AloneStep(idOf, f, PenAct(id, Run(p, P.Finish(Completed)))) == Some(WithChild(f, id, f.children[id].(y := y)))
  {
    hide Do;
  }

  lemma LeaveDeed(idOf: string -> string, f: Family, id: string, p: nat, answer: string) returns (c: Child)
    requires id in f.children && f.children[id].job.Some? && f.children[id].job.value.p == p
    requires var y := f.children[id].y;
      SysInv(y) && Rests(y, answer) && p in y.owners && y.owners[p].work.Stopped? && y.owners[p].generation.None?
    ensures AloneStep(idOf, f, PenAct(id, Unlock(p))) == Some(WithChild(f, id, c))
    ensures c == f.children[id].(y := c.y, job := None) && c.y.owners == map[] && Rests(c.y, answer)
  {
    hide Inv.Durable, Inv.Inv, NoneOpen, LastOutcome, LastAnswer, C.Resuming;
    c := f.children[id].(y := Do(f.children[id].y, Unlock(p)).value, job := None);
    assert c.y.owners == map[];
  }

  /** Nobody owns the child and nothing of the pen is after it. */
  ghost predicate Free(c: Child) {
    c.lane && c.y.owners == map[] && !c.waiting && !c.flying && c.job.None?
  }

  lemma EnterFree(c: Child, p: nat)
    requires Free(c) && SysInv(c.y)
    ensures var d := Enter(c, p, false);
      Entered(d, p) && d == c.(y := d.y, job := Some(Job(p, false, false))) && d.y.s == c.y.s && !d.flying && !d.waiting
  {
    hide Inv.Durable, Inv.Inv, C.Resuming;
  }

  /** A spawn that finds its child free, or none, can run it to a reply. */
  lemma SpawnAnswers(idOf: string -> string, f: Family, call: string, p: nat, user: Message, ask: Message)
    returns (deeds: seq<Deed>, c: Child)
    requires FamilyInv(f) && Plain(user, ask) && ReplyTo(f, idOf(call)) == Runs
    requires idOf(call) in f.children ==> Free(f.children[idOf(call)])
    ensures Play(AloneOf(idOf), f, deeds) == Some(WithChild(f, idOf(call), c)) && FamilyInv(WithChild(f, idOf(call), c))
    ensures Answered(c, p, ask) && !c.flying && !c.waiting && c.job == Some(Job(p, true, false))
    ensures LastOutcome(c.y.s.records) != Some(Completed)
    ensures PenOnly(deeds)
  {
    hide FamilyInv, Step, UsesIn, Play, LastOutcome, Answered, Alone, Asks, Plain, WithChild, ReplyTo;
    var id := idOf(call);
    var spawn := Spawn(call, false, p);
    var c0 := SpawnEnters(idOf, f, call, p);
    var g := WithChild(f, id, c0);
    assert id in g.children && g.children[id] == c0 by { assert g == WithChild(f, id, c0); InFamily(f, id, c0); }
    var a, start, b;
    a, start, b, c := JobAnswers(idOf, g, id, p, user, ask);
    Overwritten(f, id, c0, c);
    PlayOne(AloneOf(idOf), f, spawn);
    PlayConcat(AloneOf(idOf), f, [spawn], g, a + [start] + b);
    deeds := [spawn] + (a + [start] + b);
    AlonePlays(idOf, f, deeds);
    AllStepsKeep(idOf, f, deeds);
  }

  lemma InFamily(f: Family, id: string, c: Child)
    ensures id in WithChild(f, id, c).children && WithChild(f, id, c).children[id] == c
  {
  }

  lemma SpawnEnters(idOf: string -> string, f: Family, call: string, p: nat) returns (c: Child)
    requires FamilyInv(f) && ReplyTo(f, idOf(call)) == Runs
    requires idOf(call) in f.children ==> Free(f.children[idOf(call)])
    ensures AloneStep(idOf, f, Spawn(call, false, p)) == Some(WithChild(f, idOf(call), c))
    ensures FamilyInv(WithChild(f, idOf(call), c)) && LastOutcome(c.y.s.records) != Some(Completed)
    ensures Entered(c, p) && !c.flying && !c.waiting && c.job == Some(Job(p, false, false))
  {
    hide FamilyInv, Step, SysInv, Entered, Free, Enter, LastOutcome, LastAnswer, Transcript;
    var id := idOf(call);
    var c0 := if id in f.children then f.children[id] else NewChild(true);
    NewFree();
    if id in f.children {
      ChildSys(f, id);
    }
    EnterFree(c0, p);
    c := Enter(c0, p, false);
    SpawnDeed(idOf, f, call, p, c0);
    StepKeeps(idOf, f, Spawn(call, false, p));
  }

  lemma NewFree()
    ensures Free(NewChild(true)) && SysInv(NewChild(true).y) && LastOutcome(NewChild(true).y.s.records) == None
  {
    InitInv();
  }

  lemma Overwritten(f: Family, id: string, c: Child, d: Child)
    ensures WithChild(WithChild(f, id, c), id, d) == WithChild(f, id, d)
  {
    assert WithChild(WithChild(f, id, c), id, d).children == WithChild(f, id, d).children;
  }

  lemma SpawnDeed(idOf: string -> string, f: Family, call: string, p: nat, c: Child)
    requires ReplyTo(f, idOf(call)) == Runs
    requires c == if idOf(call) in f.children then f.children[idOf(call)] else NewChild(true)
    ensures AloneStep(idOf, f, Spawn(call, false, p)) == Some(WithChild(f, idOf(call), Enter(c, p, false)))
  {
    hide Enter, LastOutcome, LastAnswer, Transcript;
  }

  // ---------------------------------------------------------------- which children can answer at all

  /** `create_child_session` inserts the session row and the lane row in two transactions. A child whose
      spawn died in between is found and reused by every later spawn and never repaired: it holds a place
      in the budget, has no transcript, and no run of it ever completes. */
  lemma HalfCreatedChildIsStuck(idOf: string -> string, f: Family, call: string, deeds: seq<Deed>)
    requires FamilyInv(f) && Step(idOf, f, Cut(call)).Some?
    requires Play(StepOf(idOf), Step(idOf, f, Cut(call)).value, deeds).Some?
    ensures var g := Play(StepOf(idOf), Step(idOf, f, Cut(call)).value, deeds).value;
      && idOf(call) in g.children && Transcript(g.children[idOf(call)].y.s) == []
      && (g.children[idOf(call)].flying || ReplyTo(g, idOf(call)) == Runs)
  {
    hide FamilyInv;
    var id := idOf(call);
    var cut := Step(idOf, f, Cut(call)).value;
    StepKeeps(idOf, f, Cut(call));
    assert id in cut.children && !cut.children[id].lane;
    hide Step;
    Laneless(idOf, cut, id, deeds);
  }

  lemma Laneless(idOf: string -> string, f: Family, id: string, deeds: seq<Deed>)
    requires FamilyInv(f) && id in f.children && !f.children[id].lane && Play(StepOf(idOf), f, deeds).Some?
    ensures var g := Play(StepOf(idOf), f, deeds).value;
      && id in g.children && Transcript(g.children[id].y.s) == []
      && (g.children[id].flying || ReplyTo(g, id) == Runs)
  {
    hide Step, SysInv, LastOutcome, LastAnswer;
    OneChildPerCall(idOf, f, deeds);
    AllStepsKeep(idOf, f, deeds);
    var g := Play(StepOf(idOf), f, deeds).value;
    assert Grew(f.children[id], g.children[id]) && ChildOk(g.children[id]);
  }

  /** The lock's holder outside the pen is gone too. */
  lemma Freed(idOf: string -> string, f: Family, id: string) returns (deeds: seq<Deed>, g: Family)
    requires FamilyInv(f) && id in f.children && f.children[id].lane
    ensures Play(StepOf(idOf), f, deeds) == Some(g) && FamilyInv(g) && id in g.children && Free(g.children[id])
  {
    hide FamilyInv, SysInv;
    var f1 := Orphans(f);
    Orphaned(f);
    ChildSys(f1, id);
    PlayOne(StepOf(idOf), f, ParentDies);
    if f1.children[id].y.owners == map[] {
      deeds, g := [ParentDies], f1;
    } else {
      var q :| q in f1.children[id].y.owners;
      Evicted(f1.children[id].y, q);
      PlayOne(StepOf(idOf), f1, OtherAct(id, Crash(q)));
      PlayConcat(StepOf(idOf), f, [ParentDies], f1, [OtherAct(id, Crash(q))]);
      StepKeeps(idOf, f1, OtherAct(id, Crash(q)));
      deeds, g := [ParentDies] + [OtherAct(id, Crash(q))], Step(idOf, f1, OtherAct(id, Crash(q))).value;
    }
  }

  lemma Evicted(y: Sys, q: nat)
    requires SysInv(y) && q in y.owners
    ensures Do(y, Crash(q)).Some? && Do(y, Crash(q)).value.owners == map[]
  {
    hide Inv.Durable, Inv.Inv, C.Resuming;
    assert Do(y, Crash(q)).value.owners == map[];
  }

  /** A child can ever answer a replay, whatever happened so far and whoever runs, exactly when its lane
      row was inserted. */
  lemma AnswersExactlyWithLane(idOf: string -> string, f: Family, call: string)
    requires FamilyInv(f) && idOf(call) in f.children
    ensures f.children[idOf(call)].lane
       <==> exists deeds: seq<Deed> :: Play(StepOf(idOf), f, deeds).Some?
              && ReplyTo(Play(StepOf(idOf), f, deeds).value, idOf(call)).Reattached?
  {
    hide FamilyInv, Step, Play;
    var id := idOf(call);
    if f.children[id].lane {
      var deeds, h := Revived(idOf, f, call);
      assert Play(StepOf(idOf), f, deeds).Some? && ReplyTo(Play(StepOf(idOf), f, deeds).value, id).Reattached?;
    } else {
      forall deeds: seq<Deed> | Play(StepOf(idOf), f, deeds).Some?
        ensures !ReplyTo(Play(StepOf(idOf), f, deeds).value, id).Reattached?
      {
        Laneless(idOf, f, id, deeds);
      }
    }
  }

  lemma Revived(idOf: string -> string, f: Family, call: string) returns (deeds: seq<Deed>, h: Family)
    requires FamilyInv(f) && idOf(call) in f.children && f.children[idOf(call)].lane
    ensures Play(StepOf(idOf), f, deeds) == Some(h) && ReplyTo(h, idOf(call)).Reattached?
  {
    hide FamilyInv, Step, Play, LastOutcome, LastAnswer, Transcript, Answered, Plain, Completes, TextOf;
    var id := idOf(call);
    var freed, g := Freed(idOf, f, id);
    if ReplyTo(g, id) != Runs {
      return freed, g;
    }
    var user, ask := Message(User, []), Message(Assistant, []);
    PlainPair();
    var run, c := SpawnAnswers(idOf, g, call, 0, user, ask);
    h := Delivered(idOf, WithChild(g, id, c), id, 0, ask);
    var after :| Play(StepOf(idOf), WithChild(g, id, c), after) == Some(h);
    AlonePlays(idOf, g, run);
    PlayConcat(StepOf(idOf), f, freed, g, run);
    PlayConcat(StepOf(idOf), f, freed + run, WithChild(g, id, c), after);
    deeds := freed + run + after;
  }

  lemma PlainPair()
    ensures Plain(Message(User, []), Message(Assistant, [])) && Uses(Message(Assistant, [])) == []
  {
  }

  lemma Delivered(idOf: string -> string, f: Family, id: string, p: nat, ask: Message) returns (h: Family)
    requires FamilyInv(f) && id in f.children && Answered(f.children[id], p, ask) && Uses(ask) == []
    requires !f.children[id].flying
    ensures exists deeds: seq<Deed> :: Play(StepOf(idOf), f, deeds) == Some(h)
    ensures ReplyTo(h, id) == Reattached(TextOf(ask))
  {
    hide FamilyInv, Step, Play, Answered, TextOf, Rests;
    var deeds, c := Finished(idOf, f, id, p, ask);
    h := WithChild(f, id, c);
    RestedReply(idOf, h, id, TextOf(ask));
  }

  /** A background task that waits for a child nobody owns launches, and gets a reply. */
  lemma LaunchAnswers(idOf: string -> string, f: Family, id: string, p: nat, user: Message, ask: Message)
    returns (deeds: seq<Deed>, c: Child)
    requires FamilyInv(f) && id in f.children && Plain(user, ask)
    requires var c := f.children[id]; c.lane && c.waiting && c.job.None? && c.y.owners == map[]
    ensures Play(StepOf(idOf), f, deeds) == Some(WithChild(f, id, c)) && FamilyInv(WithChild(f, id, c))
    ensures Answered(c, p, ask) && c.flying == f.children[id].flying && !c.waiting
    ensures PenOnly(deeds)
    ensures exists d :: d in deeds && Asks(d, id)
  {
    hide FamilyInv, Step, Play, Answered, UsesIn, Do, Asks, LastOutcome, Enter, Alone;
    ChildSys(f, id);
    EnterWaiting(f.children[id], p);
    EnterFlies(f.children[id], p);
    var launch, e := Launch(id, p), Enter(f.children[id], p, true);
    var g := WithChild(f, id, e);
    LaunchDeed(idOf, f, id, p);
    StepKeeps(idOf, f, launch);
    var a, start, b;
    a, start, b, c := JobAnswers(idOf, g, id, p, user, ask);
    Overwritten(f, id, e, c);
    AlonePlays(idOf, g, a + [start] + b);
    AllStepsKeep(idOf, g, a + [start] + b);
    PlayOne(StepOf(idOf), f, launch);
    PlayConcat(StepOf(idOf), f, [launch], g, a + [start] + b);
    deeds := [launch] + (a + [start] + b);
    assert start in deeds;
  }

  /** A background spawn gets there too: its task launches, runs the child to a reply and completes it, and
      once the child has left the registry a replay returns the reply. Until then it answers that the child
      is running. */
  lemma BackgroundAnswers(idOf: string -> string, max: nat, call: string, user: Message, ask: Message)
    returns (deeds: seq<Deed>, f: Family, g: Family)
    requires max > 0 && Plain(user, ask)
    ensures Play(StepOf(idOf), Family(max, map[]), deeds) == Some(f) && PenOnly(deeds)
    ensures ReplyTo(f, idOf(call)) == AlreadyRunning
    ensures Step(idOf, f, Settled(idOf(call))) == Some(g) && ReplyTo(g, idOf(call)) == Reattached(TextOf(ask))
  {
    hide FamilyInv, Step, Play, LastOutcome, LastAnswer, Transcript, Answered, Completes, TextOf, UsesIn, Rests, SysInv, Do,
      Asks, Enter, Alone, PenOnly;
    var id, f0, spawn := idOf(call), Family(max, map[]), Spawn(call, true, 0);
    NoChildren(max);
    var f1 := WithChild(f0, id, NewChild(true).(waiting := true, flying := true));
    WaitingDeed(idOf, max, call);
    StepKeeps(idOf, f0, spawn);
    PlayOne(StepOf(idOf), f0, spawn);
    var run, c := LaunchAnswers(idOf, f1, id, 0, user, ask);
    PlainAsks(user, ask);
    var finish, d := Finished(idOf, WithChild(f1, id, c), id, 0, ask);
    f := WithChild(WithChild(f1, id, c), id, d);
    PlayConcat(StepOf(idOf), f0, [spawn], f1, run);
    PlayConcat(StepOf(idOf), f0, [spawn] + run, WithChild(f1, id, c), finish);
    deeds := [spawn] + run + finish;
    OnePenOnly(spawn);
    BothPenOnly([spawn], run);
    BothPenOnly([spawn] + run, finish);
    g := SettledDeed(idOf, f, id, TextOf(ask));
    RestedReply(idOf, f, id, TextOf(ask));
    RestedReply(idOf, g, id, TextOf(ask));
  }

  lemma OnePenOnly(d: Deed)
    requires !d.OtherAct?
    ensures PenOnly([d])
  {
  }

  lemma Finished(idOf: string -> string, f: Family, id: string, p: nat, ask: Message) returns (deeds: seq<Deed>, d: Child)
    requires FamilyInv(f) && id in f.children && Answered(f.children[id], p, ask) && Uses(ask) == []
    ensures Play(StepOf(idOf), f, deeds) == Some(WithChild(f, id, d)) && PenOnly(deeds)
    ensures d.job.None? && Rests(d.y, TextOf(ask)) && d.flying == f.children[id].flying && d.waiting == f.children[id].waiting
  {
    hide FamilyInv, Step, Play, Answered, Completes, TextOf, Rests, Alone;
    var done := PenAct(id, Run(p, P.Finish(Completed)));
    var after;
    after, d := JobCompletes(idOf, f, id, p, ask);
    AlonePlays(idOf, AloneStep(idOf, f, done).value, after);
    PlayOne(StepOf(idOf), f, done);
    PlayConcat(StepOf(idOf), f, [done], AloneStep(idOf, f, done).value, after);
    deeds := [done] + after;
  }

  lemma PlainAsks(user: Message, ask: Message)
    requires Plain(user, ask)
    ensures Uses(ask) == []
  {
  }

  lemma EnterFlies(c: Child, p: nat)
    ensures Enter(c, p, true).flying == c.flying && !Enter(c, p, true).waiting
  {
    hide Do;
  }

  lemma WaitingDeed(idOf: string -> string, max: nat, call: string)
    requires max > 0
    ensures Step(idOf, Family(max, map[]), Spawn(call, true, 0))
         == Some(WithChild(Family(max, map[]), idOf(call), NewChild(true).(waiting := true, flying := true)))
  {
  }

  lemma SettledDeed(idOf: string -> string, f: Family, id: string, answer: string) returns (g: Family)
    requires id in f.children && f.children[id].job.None? && !f.children[id].waiting && Rests(f.children[id].y, answer)
    ensures Step(idOf, f, Settled(id)) == Some(g) && id in g.children && !g.children[id].flying
    ensures Rests(g.children[id].y, answer)
  {
    hide Rests;
    g := WithChild(f, id, f.children[id].(flying := false));
  }

  // ---------------------------------------------------------------- where replays stop returning the answer

  /** Somebody outside the pen opens a run on a completed child and gets a reply: the outcome on record is
      still the completed run's, and the reply becomes the child's answer. From a new family, for any two
      replies: the child completed with `first`, and a replay answers `ask`. */
  lemma OpenRunAnswers(idOf: string -> string, max: nat, call: string, user: Message, first: Message, ask: Message)
    returns (before: seq<Deed>, f: Family, g: Family, deeds: seq<Deed>, h: Family)
    requires max > 0 && Plain(user, first) && Plain(user, ask)
    ensures Play(StepOf(idOf), Family(max, map[]), before) == Some(f) && Completes(f, idOf(call), 0, first)
    ensures Step(idOf, f, PenAct(idOf(call), Run(0, P.Finish(Completed)))) == Some(g)
    ensures Play(StepOf(idOf), g, deeds) == Some(h)
    ensures ReplyTo(h, idOf(call)) == Reattached(TextOf(ask))
  {
    hide FamilyInv, Step, Play, LastOutcome, LastAnswer, Transcript, Answered, Completes, TextOf, UsesIn, Rests, SysInv, Do;
    var id, f0 := idOf(call), Family(max, map[]);
    NoChildren(max);
    var c, after;
    before, c := SpawnAnswers(idOf, f0, call, 0, user, first);
    AlonePlays(idOf, f0, before);
    f := WithChild(f0, id, c);
    after, c := JobCompletes(idOf, f, id, 0, first);
    var done := PenAct(id, Run(0, P.Finish(Completed)));
    g := AloneStep(idOf, f, done).value;
    StepKeeps(idOf, f, done);
    AlonePlays(idOf, g, after);
    AllStepsKeep(idOf, g, after);
    var g1 := WithChild(f, id, c);
    ChildSys(g1, id);
    var acts, z := OtherAnswers(c.y, 1, user, ask, TextOf(first));
    OtherPlays(idOf, g1, id, acts, z);
    PlayConcat(StepOf(idOf), g, after, g1, OtherDeeds(id, acts));
    deeds := after + OtherDeeds(id, acts);
    h := WithChild(g1, id, c.(y := z));
  }

  /** On a session at rest, another process acquires, recovers nothing, opens a run and gets `ask`. */
  lemma OtherAnswers(y: Sys, q: nat, user: Message, ask: Message, answer: string) returns (acts: seq<Systems.Act>, z: Sys)
    requires SysInv(y) && y.owners == map[] && Rests(y, answer) && Plain(user, ask)
    ensures Play(Do, y, acts) == Some(z)
    ensures LastOutcome(z.s.records) == Some(Completed) && LastAnswer(Transcript(z.s)) == TextOf(ask)
  {
    hide SysInv, Do, LastOutcome, LastAnswer, Transcript, TextOf, UsesIn, Play, NoneOpen;
    var y1 := Taken(y, q);
    ActKeeps(y, Acquire(q));
    var prepare, y2 := Preparing(y1, q);
    C.NoneOpenPlan(y1.s);
    AllKept(y1, prepare);
    var start, more;
    start, more, z := Asking(y2, q, Transcript(y2.s), user, ask);
    AllKept(y2, [Run(q, start)] + more);
    RepliedAnswer(z, q);
    OutcomeKept(y2.s, z.s);
    PlayOne(Do, y, Acquire(q));
    PlayConcat(Do, y, [Acquire(q)], y1, prepare);
    PlayConcat(Do, y, [Acquire(q)] + prepare, y2, [Run(q, start)] + more);
    acts := [Acquire(q)] + prepare + ([Run(q, start)] + more);
  }

  lemma Taken(y: Sys, q: nat) returns (z: Sys)
    requires SysInv(y) && y.owners == map[]
    ensures Do(y, Acquire(q)) == Some(z) && z.s == y.s && q in z.owners && z.owners[q].work.Acquired?
  {
    hide Inv.Durable, Inv.Inv, C.Resuming;
    z := Do(y, Acquire(q)).value;
  }

  lemma RepliedAnswer(z: Sys, q: nat)
    requires SysInv(z) && q in z.owners && z.owners[q].work.Active? && z.owners[q].work.phase.Replied?
    ensures LastAnswer(Transcript(z.s)) == TextOf(z.owners[q].work.phase.ask)
  {
    hide LastAnswer, TextOf, Inv.Durable;
    var w := z.owners[q].work;
    assert WorkOk(z, w);
    var c := ConfigOf(z, w);
    assert Transcript(c.s) == c.memory + [w.phase.ask];
    LastAnswerSnoc(c.memory, w.phase.ask);
  }

  /** Two calls of one id in one reply, one in the foreground and one in the background: both find a child
      that has not completed, and the background task launches once the foreground run has. The pen alone,
      and the completed child is run, and its provider asked, a second time. */
  lemma RepeatedSpawnRunsAgain(idOf: string -> string, max: nat, call: string, user: Message, ask: Message)
    returns (before: seq<Deed>, f: Family, g: Family, after: seq<Deed>)
    requires max > 0 && Plain(user, ask)
    ensures Play(StepOf(idOf), Family(max, map[]), before) == Some(f) && Completes(f, idOf(call), 0, ask)
    ensures Step(idOf, f, PenAct(idOf(call), Run(0, P.Finish(Completed)))) == Some(g)
    ensures Play(StepOf(idOf), g, after).Some?
    ensures PenOnly(before) && PenOnly(after)
    ensures exists d :: d in after && Asks(d, idOf(call))
  {
    hide FamilyInv, Step, Play, LastAnswer, Transcript, Answered, Completes, TextOf, UsesIn, Rests, SysInv, Do, Asks;
    var id, f0 := idOf(call), Family(max, map[]);
    NoChildren(max);
    var one, c := SpawnAnswers(idOf, f0, call, 0, user, ask);
    AlonePlays(idOf, f0, one);
    var f1 := WithChild(f0, id, c);
    var again := Spawn(call, true, 1);
    f := WithChild(f1, id, c.(waiting := true, flying := true));
    SecondSpawn(idOf, f1, call, ask);
    StepKeeps(idOf, f1, again);
    PlayOne(StepOf(idOf), f1, again);
    PlayConcat(StepOf(idOf), f0, one, f1, [again]);
    before := one + [again];
    SecondAnswered(c, ask);
    var finish, rested := JobCompletes(idOf, f, id, 0, ask);
    var done := PenAct(id, Run(0, P.Finish(Completed)));
    g := AloneStep(idOf, f, done).value;
    StepKeeps(idOf, f, done);
    AlonePlays(idOf, g, finish);
    AllStepsKeep(idOf, g, finish);
    var g1 := WithChild(f, id, rested);
    var more, last := LaunchAnswers(idOf, g1, id, 1, user, ask);
    PlayConcat(StepOf(idOf), g, finish, g1, more);
    after := finish + more;
  }

  lemma SecondSpawn(idOf: string -> string, f: Family, call: string, ask: Message)
    requires FamilyInv(f) && idOf(call) in f.children && Answered(f.children[idOf(call)], 0, ask)
    requires !f.children[idOf(call)].flying && LastOutcome(f.children[idOf(call)].y.s.records) != Some(Completed)
    ensures Step(idOf, f, Spawn(call, true, 1))
         == Some(WithChild(f, idOf(call), f.children[idOf(call)].(waiting := true, flying := true)))
  {
    hide SysInv, LastOutcome, LastAnswer, Transcript, Enter;
  }

  lemma SecondAnswered(c: Child, ask: Message)
    requires Answered(c, 0, ask)
    ensures Answered(c.(waiting := true, flying := true), 0, ask)
  {
  }

  lemma EnterWaiting(c: Child, p: nat)
    requires c.lane && c.job.None? && c.y.owners == map[] && SysInv(c.y)
    ensures Entered(Enter(c, p, true), p)
  {
    hide Inv.Durable, Inv.Inv, C.Resuming;
  }

  lemma LaunchDeed(idOf: string -> string, f: Family, id: string, p: nat)
    requires id in f.children && f.children[id].waiting
    ensures Step(idOf, f, Launch(id, p)) == Some(WithChild(f, id, Enter(f.children[id], p, true)))
  {
    hide Enter;
  }

  ghost predicate AllJobs(f: Family) {
    forall id :: id in f.children ==> JobOk(f.children[id])
  }

  lemma WithJob(f: Family, id: string, c: Child)
    requires AllJobs(f) && JobOk(c)
    ensures AllJobs(WithChild(f, id, c))
  {
    hide JobOk;
  }

  lemma EnterJob(c: Child, p: nat, background: bool)
    requires JobOk(c)
    ensures JobOk(Enter(c, p, background))
  {
  }

  lemma OrphanJobs(f: Family)
    ensures AllJobs(Orphans(f))
  {
    hide Do;
  }

  lemma StopJob(c: Child, p: nat)
    requires JobOk(c) && p in c.y.owners
    ensures JobOk(c.(y := SetWork(c.y, p, Stopped)))
  {
  }

  lemma StepJobs(idOf: string -> string, f: Family, d: Deed)
    requires AllJobs(f) && Step(idOf, f, d).Some? && !d.OtherAct?
    ensures AllJobs(Step(idOf, f, d).value)
  {
    hide AllJobs, Do, Enter, NeedsLane, Orphans, WithChild, LastOutcome, LastAnswer, Transcript, ReplyTo, JobOk, PenMay;
    ChildJob(f, d);
    match d
    case Spawn(call, background, p) =>
      var id := idOf(call);
      var c := if id in f.children then f.children[id] else NewChild(true);
      NewJob();
      SpawnJob(f, id);
      EnterJob(c, p, false);
      WithJob(f, id, Enter(c, p, false));
      SameJob(c, c.(waiting := true, flying := true));
      WithJob(f, id, c.(waiting := true, flying := true));
    case Cut(call) =>
      OrphanJobs(f);
      NewJob();
      WithJob(Orphans(f), idOf(call), NewChild(false));
    case Launch(id, p) =>
      EnterJob(f.children[id], p, true);
      WithJob(f, id, Enter(f.children[id], p, true));
    case PenAct(id, a) => PenActJobs(idOf, f, id, a);
    case NoLane(id, p) =>
      StopJob(f.children[id], p);
      WithJob(f, id, f.children[id].(y := SetWork(f.children[id].y, p, Stopped)));
    case Settled(id) =>
      SameJob(f.children[id], f.children[id].(flying := false));
      WithJob(f, id, f.children[id].(flying := false));
    case ParentDies => OrphanJobs(f);
  }

  lemma NewJob()
    ensures JobOk(NewChild(true)) && JobOk(NewChild(false))
  {
  }

  lemma SameJob(c: Child, d: Child)
    requires JobOk(c) && c.job == d.job && c.y == d.y
    ensures JobOk(d)
  {
  }

  lemma SpawnJob(f: Family, id: string)
    requires AllJobs(f)
    ensures id in f.children ==> JobOk(f.children[id])
  {
    hide JobOk;
  }

  lemma ChildJob(f: Family, d: Deed)
    requires AllJobs(f)
    ensures (d.Launch? || d.PenAct? || d.NoLane? || d.Settled?) && d.id in f.children ==> JobOk(f.children[d.id])
  {
    hide JobOk;
  }

  lemma PenActJobs(idOf: string -> string, f: Family, id: string, a: Systems.Act)
    requires AllJobs(f) && Step(idOf, f, PenAct(id, a)).Some?
    ensures AllJobs(Step(idOf, f, PenAct(id, a)).value)
  {
    hide Do, NeedsLane, JobOk, WithChild;
    var c := f.children[id];
    PenActJob(c, a);
    WithJob(f, id, c.(y := Do(c.y, a).value, job := NextJob(c.job.value, a)));
  }

  lemma {:induction false} JobsAlways(idOf: string -> string, f: Family, deeds: seq<Deed>)
    requires AllJobs(f) && Play(StepOf(idOf), f, deeds).Some? && PenOnly(deeds)
    ensures AllJobs(Play(StepOf(idOf), f, deeds).value)
    decreases |deeds|
  {
    hide AllJobs, Step;
    if deeds != [] {
      StepJobs(idOf, f, deeds[0]);
      JobsAlways(idOf, Step(idOf, f, deeds[0]).value, deeds[1..]);
    }
  }

  /** A child with a run that completes stands as `JobCompletes` wants it. */
  lemma CompletesAnswered(idOf: string -> string, f: Family, id: string, p: nat, ask: Message)
    requires FamilyInv(f) && Completes(f, id, p, ask) && JobOk(f.children[id])
    requires Step(idOf, f, PenAct(id, Run(p, P.Finish(Completed)))).Some?
    ensures Answered(f.children[id], p, ask) && Uses(ask) == []
  {
    hide SysInv, LastOutcome, UsesIn;
    var c := f.children[id];
    ChildSys(f, id);
    assert c.lane by {
      assert ChildOk(c);
      if !c.lane {
        RepliedHasEntries(c.y, p);
      }
    }
    Generation(c.y, p);
  }

  lemma RepliedHasEntries(y: Sys, p: nat)
    requires SysInv(y) && p in y.owners && y.owners[p].work.Active? && y.owners[p].work.phase.Replied?
    ensures y.s.entries != []
  {
    hide Inv.Durable;
    assert WorkOk(y, y.owners[p].work);
    var c := ConfigOf(y, y.owners[p].work);
    assert |Transcript(y.s)| == |c.memory| + 1;
  }

  lemma Generation(y: Sys, p: nat)
    requires SysInv(y) && p in y.owners && y.owners[p].work.Active?
    ensures y.owners[p].generation.Some?
  {
    hide Inv.Durable, Inv.Inv, C.Resuming;
  }

  /** When the pen itself, with no process from outside, runs a completed child again and asks its
      provider: exactly when a background task of the child was still waiting as its run completed. That
      takes two spawns of one call at a time (`RepeatedSpawnRunsAgain`). */
  lemma RunAgainExactly(idOf: string -> string, max: nat, before: seq<Deed>, f: Family, id: string, p: nat, ask: Message,
                        g: Family)
    requires Play(StepOf(idOf), Family(max, map[]), before) == Some(f) && PenOnly(before) && Completes(f, id, p, ask)
    requires Step(idOf, f, PenAct(id, Run(p, P.Finish(Completed)))) == Some(g)
    ensures f.children[id].waiting
       <==> exists after: seq<Deed> :: Play(StepOf(idOf), g, after).Some? && PenOnly(after)
                                       && exists d :: d in after && Asks(d, id)
  {
    hide FamilyInv, Step, Play, Answered, Completes, TextOf, UsesIn, Rests, SysInv, Asks, PenOnly, AllJobs, JobOk, Rested;
    var f0 := Family(max, map[]);
    NoChildren(max);
    AllStepsKeep(idOf, f0, before);
    NoJobs(max);
    JobsAlways(idOf, f0, before);
    assert id in f.children && JobOk(f.children[id]) by { ThisJob(f, id, p, ask); }
    var done := PenAct(id, Run(p, P.Finish(Completed)));
    StepKeeps(idOf, f, done);
    if f.children[id].waiting {
      CompletesAnswered(idOf, f, id, p, ask);
      var finish, rested := JobCompletes(idOf, f, id, p, ask);
      AlonePlays(idOf, g, finish);
      AllStepsKeep(idOf, g, finish);
      var g1 := WithChild(f, id, rested);
      PlainPair();
      var more, last := LaunchAnswers(idOf, g1, id, 1, Message(User, []), Message(Assistant, []));
      PlayConcat(StepOf(idOf), g, finish, g1, more);
      BothPenOnly(finish, more);
      var d :| d in more && Asks(d, id);
      assert d in finish + more;
    } else {
      CompletedRests(idOf, f, id, p, ask, done);
      forall after: seq<Deed> | Play(StepOf(idOf), g, after).Some? && PenOnly(after)
        ensures forall d :: d in after ==> !Asks(d, id)
      {
        RestedLasts(idOf, g, after, id, TextOf(ask));
      }
    }
  }

  lemma NoJobs(max: nat)
    ensures AllJobs(Family(max, map[]))
  {
  }

  lemma ThisJob(f: Family, id: string, p: nat, ask: Message)
    requires AllJobs(f) && Completes(f, id, p, ask)
    ensures id in f.children && JobOk(f.children[id])
  {
    hide JobOk;
  }

  lemma BothPenOnly(a: seq<Deed>, b: seq<Deed>)
    requires PenOnly(a) && PenOnly(b)
    ensures PenOnly(a + b)
  {
  }
}
