/** Delegation (crates/harness/src/pen.rs): one parent's child sessions, spawned, replayed and crashed in
    any order. Each child is a session of its own that any number of processes may own in turn. */
module Pens {
  import opened Wrappers
  import opened Llm
  import opened Ids
  import opened Sessions
  import opened Recoveries
  import opened Plays
  import opened Systems
  import P = Protocols
  import Inv = Invariants
  import C = CrashSafety
  import opened Safety

  /** One `run_child` of this pen: the owner it acts as, and whether its one `send` was made. */
  datatype Job = Job(p: nat, sent: bool, background: bool)

  /** A child session. `lane` says whether its lane row was inserted, `waiting` whether a background task
      of this pen has yet to acquire it, `flying` whether the registry names it, `job` which of the pen's
      runs owns it. */
  datatype Child = Child(lane: bool, y: Sys, waiting: bool, flying: bool, job: Option<Job>)

  /** The sessions with this parent, by session id. */
  datatype Family = Family(max: nat, children: map<string, Child>)

  datatype Reply =
    | AlreadyRunning
    | Exhausted(used: nat)
    | Reattached(answer: string)
    | Runs

  /** `last_run_outcome`: of the latest finish record. */
  function LastOutcome(rs: seq<Record>): Option<Outcome> {
    if rs == [] then None
    else if rs[|rs| - 1].payload.OperationFinished? then Some(rs[|rs| - 1].payload.outcome)
    else LastOutcome(rs[..|rs| - 1])
  }

  /** The text of the last assistant message. */
  function LastAnswer(ms: seq<Message>): string {
    if ms == [] then ""
    else if ms[|ms| - 1].role.Assistant? then TextOf(ms[|ms| - 1])
    else LastAnswer(ms[..|ms| - 1])
  }

  /** What a spawn answers, from what it finds: is the child in flight here, has it a session row, how
      many children are there, and what its rows say. */
  function Decide(flying: bool, known: bool, used: nat, max: nat, s: Session): Reply {
    if flying then AlreadyRunning
    else if !known then (if used >= max then Exhausted(used) else Runs)
    else if LastOutcome(s.records) == Some(Completed) then Reattached(LastAnswer(Transcript(s)))
    else Runs
  }

  ghost function ReplyTo(f: Family, id: string): Reply {
    var known := id in f.children;
    Decide(known && f.children[id].flying, known, |f.children|, f.max, if known then f.children[id].y.s else EMPTY)
  }

  /** `PenAct` is an act of the pen's own job, `OtherAct` one of a process outside, such as a session
      resumed by hand. */
  datatype Deed =
    | Spawn(call: string, background: bool, p: nat)
    | Cut(call: string)
    | Launch(id: string, p: nat)
    | PenAct(id: string, a: Systems.Act)
    | OtherAct(id: string, a: Systems.Act)
    | NoLane(id: string, p: nat)
    | Settled(id: string)
    | ParentDies

  function NewChild(lane: bool): Child {
    Child(lane, INIT, false, false, None)
  }

  ghost function WithChild(f: Family, id: string, c: Child): Family {
    f.(children := f.children[id := c])
  }

  /** An act that would insert an entry, which needs the lane row. */
  ghost predicate NeedsLane(y: Sys, a: Systems.Act) {
    || (a.Run? && (a.e.Prompt? || a.e.Reply? || a.e.Results?))
    || (a.RecoveryWrite? && a.p in y.owners && y.owners[a.p].work.Recovering? && y.owners[a.p].work.plan != []
        && y.owners[a.p].work.plan[0].PutEntry?)
  }

  predicate Starts(a: Systems.Act) {
    a.Run? && a.e.Start?
  }

  /** A job acts for its own process, after acquiring and until it unlocks, and sends once. */
  ghost predicate PenMay(c: Child, a: Systems.Act) {
    && c.job.Some? && a.p == c.job.value.p
    && !a.Acquire? && !a.Crash? && !(Starts(a) && c.job.value.sent)
    && (c.lane || !NeedsLane(c.y, a))
  }

  ghost predicate OtherMay(c: Child, a: Systems.Act) {
    && (c.job.Some? ==> a.p != c.job.value.p)
    && (c.lane || !NeedsLane(c.y, a))
  }

  function NextJob(job: Job, a: Systems.Act): Option<Job> {
    if a.Unlock? then None else if Starts(a) then Some(job.(sent := true)) else Some(job)
  }

  /** `run_child` begins: it acquires the session, or fails because someone holds it. */
  ghost function Enter(c: Child, p: nat, background: bool): Child {
    match Do(c.y, Acquire(p))
    case None => c.(waiting := false)
    case Some(z) =>
      if p in z.owners then c.(y := z, waiting := false, job := Some(Job(p, false, background)))
      else c.(waiting := false)
  }

  /** What the death of the pen's process leaves of a child. */
  ghost function Orphan(c: Child): Child {
    var crashed := if c.job.Some? then Do(c.y, Crash(c.job.value.p)) else None;
    Child(c.lane, if crashed.Some? then crashed.value else c.y, false, false, None)
  }

  ghost function Orphans(f: Family): Family {
    f.(children := map id | id in f.children :: Orphan(f.children[id]))
  }

  ghost function AfterAct(f: Family, id: string, a: Systems.Act, job: Option<Job>): Option<Family>
    requires id in f.children
  {
    match Do(f.children[id].y, a)
    case None => None
    case Some(z) => Some(WithChild(f, id, f.children[id].(y := z, job := job)))
  }

  /** One deed. A foreground spawn runs its child at once; a background one leaves a task that launches
      later, and `Settled` takes the child out of the registry when its run is over. `Cut` is a spawn
      that dies between its two inserts: a session row without its lane row. A prompt for a child without
      a lane row is refused, and its run is left open (`NoLane`). */
  ghost function Step(idOf: string -> string, f: Family, d: Deed): Option<Family> {
    match d
    case Spawn(call, background, p) =>
      var id := idOf(call);
      if ReplyTo(f, id) != Runs then Some(f)
      else
        var c := if id in f.children then f.children[id] else NewChild(true);
        Some(WithChild(f, id, if background then c.(waiting := true, flying := true) else Enter(c, p, false)))
    case Cut(call) =>
      var id := idOf(call);
      if id in f.children || ReplyTo(f, id) != Runs then None
      else Some(WithChild(Orphans(f), id, NewChild(false)))
    case Launch(id, p) =>
      if id in f.children && f.children[id].waiting then Some(WithChild(f, id, Enter(f.children[id], p, true)))
      else None
    case PenAct(id, a) =>
      if id in f.children && PenMay(f.children[id], a) then AfterAct(f, id, a, NextJob(f.children[id].job.value, a))
      else None
    case OtherAct(id, a) =>
      if id in f.children && OtherMay(f.children[id], a) then AfterAct(f, id, a, f.children[id].job) else None
    case NoLane(id, p) =>
      if id in f.children && !f.children[id].lane && p in f.children[id].y.owners
         && f.children[id].y.owners[p].work.Active? && f.children[id].y.owners[p].work.phase.Opened?
      then Some(WithChild(f, id, f.children[id].(y := SetWork(f.children[id].y, p, Stopped))))
      else None
    case Settled(id) =>
      if id in f.children && !f.children[id].waiting && f.children[id].job.None?
      then Some(WithChild(f, id, f.children[id].(flying := false)))
      else None
    case ParentDies => Some(Orphans(f))
  }

  ghost function StepOf(idOf: string -> string): (Family, Deed) -> Option<Family> {
    (f, d) => Step(idOf, f, d)
  }

  // ---------------------------------------------------------------- budget and identity

  ghost predicate ChildOk(c: Child) {
    SysInv(c.y) && (!c.lane ==> c.y.s.entries == [] && LastOutcome(c.y.s.records) != Some(Completed))
  }

  ghost predicate FamilyInv(f: Family) {
    |f.children| <= f.max && forall id :: id in f.children ==> ChildOk(f.children[id])
  }

  /** History only grows, and a missing lane row stays missing. */
  predicate Grew(c: Child, d: Child) {
    c.y.s.entries <= d.y.s.entries && c.y.s.records <= d.y.s.records && c.lane == d.lane
  }

  /** What a deed may make of a child. */
  ghost predicate Evolves(c: Child, d: Child) {
    ChildOk(c) ==> ChildOk(d) && Grew(c, d)
  }

  lemma FreshChild(lane: bool)
    ensures ChildOk(NewChild(lane))
  {
    InitInv();
  }

  lemma {:induction false} LastOutcomeSnoc(rs: seq<Record>, r: Record)
    ensures LastOutcome(rs + [r]) == if r.payload.OperationFinished? then Some(r.payload.outcome) else LastOutcome(rs)
  {
    assert (rs + [r])[..|rs|] == rs;
  }

  lemma {:induction false} LastAnswerSnoc(ms: seq<Message>, m: Message)
    ensures LastAnswer(ms + [m]) == if m.role.Assistant? then TextOf(m) else LastAnswer(ms)
  {
    assert (ms + [m])[..|ms|] == ms;
  }

  /** The only record recovery writes is the finish of an aborted run. */
  lemma PlanAborts(s: Session)
    ensures forall w :: w in Plan(s) && w.PutRecord? ==> w.payload == OperationFinished(Aborted)
  {
    if Reduce(s).Ok? && Reduce(s).value.Some? {
      FillIsEntries(Batches(Reduce(s).value.value.records), s);
    }
  }

  // A child without a lane gets no entry, and so no completed run.
  lemma LanelessKeeps(y: Sys, a: Systems.Act)
    requires SysInv(y) && Do(y, a).Some? && !NeedsLane(y, a)
    requires y.s.entries == [] && LastOutcome(y.s.records) != Some(Completed)
    ensures Do(y, a).value.s.entries == [] && LastOutcome(Do(y, a).value.s.records) != Some(Completed)
  {
    var z := Do(y, a).value;
    if a.RecoveryWrite? {
      hide Inv.Durable, Plan;
      var w := y.owners[a.p].work;
      assert WorkOk(y, w);
      PlanAborts(y.s);
      var from: nat :| C.Resuming(y.s, w.plan, from, y.ran);
      assert w.plan[0].PutRecord? ==> w.plan[0].payload == OperationFinished(Aborted);
      CommitOutcome(y.s, w.plan[0]);
    } else if a.Run? {
      var w := y.owners[a.p].work;
      assert WorkOk(y, w);
      LanelessRun(ConfigOf(y, w), a.e);
    }
  }

  lemma CommitOutcome(s: Session, w: Write)
    requires w.PutRecord? ==> w.payload != OperationFinished(Completed)
    requires LastOutcome(s.records) != Some(Completed)
    ensures LastOutcome(Commit(s, w).records) != Some(Completed)
    ensures !w.PutEntry? ==> Commit(s, w).entries == s.entries
  {
    if w.PutRecord? && !HasRecord(s.records, w.id) {
      LastOutcomeSnoc(s.records, Record(w.id, w.run, s.nextSeq, w.payload));
    }
  }

  lemma LanelessRun(c: P.Config, e: P.Event)
    requires Inv.Inv(c) && P.Enabled(c, e) && !(e.Prompt? || e.Reply? || e.Results?)
    requires c.s.entries == [] && LastOutcome(c.s.records) != Some(Completed)
    ensures var t := P.Next(c, e).s;
      t.entries == [] && LastOutcome(t.records) != Some(Completed)
  {
    hide Inv.Durable, Inv.PhaseOk, LastOutcome;
    assert |c.memory + Inv.Gap(c.phase)| == 0;
    var ws := P.Writes(c, e);
    if ws != [] {
      assert ws == [ws[0]];
      One(c.s, ws[0]);
      CommitOutcome(c.s, ws[0]);
    }
  }

  lemma SameRowsEvolve(c: Child, d: Child)
    requires c.y == d.y && c.lane == d.lane
    ensures Evolves(c, d)
  {
    hide SysInv, LastOutcome;
  }

  lemma ActEvolves(c: Child, a: Systems.Act, job: Option<Job>)
    requires Do(c.y, a).Some? && (c.lane || !NeedsLane(c.y, a))
    ensures Evolves(c, c.(y := Do(c.y, a).value, job := job))
  {
    hide SysInv, Do, NeedsLane, LastOutcome;
    if ChildOk(c) {
      ActKeeps(c.y, a);
      RowsOnlyGrow(c.y, a);
      if !c.lane {
        LanelessKeeps(c.y, a);
      }
    }
  }

  lemma EnterEvolves(c: Child, p: nat, background: bool)
    ensures Evolves(c, Enter(c, p, background))
  {
    hide Do, Evolves;
    SameRowsEvolve(c, c.(waiting := false));
    if Do(c.y, Acquire(p)).Some? {
      ActEvolves(c, Acquire(p), Some(Job(p, false, background)));
      WaitingEvolves(c, c.(y := Do(c.y, Acquire(p)).value, job := Some(Job(p, false, background))));
    }
  }

  lemma WaitingEvolves(c: Child, d: Child)
    requires Evolves(c, d)
    ensures Evolves(c, d.(waiting := false)) && Evolves(c, d.(waiting := false, flying := false))
  {
    hide SysInv, LastOutcome;
  }

  lemma OrphanEvolves(c: Child)
    ensures Evolves(c, Orphan(c))
  {
    hide Do, Evolves;
    SameRowsEvolve(c, Child(c.lane, c.y, false, false, None));
    if c.job.Some? && Do(c.y, Crash(c.job.value.p)).Some? {
      ActEvolves(c, Crash(c.job.value.p), None);
      WaitingEvolves(c, c.(y := Do(c.y, Crash(c.job.value.p)).value, job := None));
    }
  }

  lemma NoLaneEvolves(c: Child, p: nat)
    requires p in c.y.owners && c.y.owners[p].work.Active?
    ensures Evolves(c, c.(y := SetWork(c.y, p, Stopped)))
  {
    hide Inv.Durable, Inv.Inv, C.Resuming, LastOutcome;
  }

  /** No child is ever removed, and none loses history. */
  ghost predicate AllGrew(f: Family, g: Family) {
    f.children.Keys <= g.children.Keys && forall id :: id in f.children ==> Grew(f.children[id], g.children[id])
  }

  /** The ids the spawned calls name. */
  function Named(idOf: string -> string, deeds: seq<Deed>): set<string> {
    set d | d in deeds && (d.Spawn? || d.Cut?) :: idOf(d.call)
  }

  lemma Replaced(f: Family, id: string, c: Child)
    requires FamilyInv(f) && id in f.children && Evolves(f.children[id], c)
    ensures FamilyInv(WithChild(f, id, c)) && AllGrew(f, WithChild(f, id, c))
    ensures WithChild(f, id, c).children.Keys == f.children.Keys
  {
    hide ChildOk;
    assert WithChild(f, id, c).children.Keys == f.children.Keys;
  }

  lemma Added(f: Family, id: string, c: Child)
    requires FamilyInv(f) && id !in f.children && |f.children| < f.max && ChildOk(c)
    ensures FamilyInv(WithChild(f, id, c)) && AllGrew(f, WithChild(f, id, c))
    ensures WithChild(f, id, c).children.Keys == f.children.Keys + {id}
  {
    hide ChildOk;
    assert WithChild(f, id, c).children.Keys == f.children.Keys + {id};
  }

  lemma Orphaned(f: Family)
    requires FamilyInv(f)
    ensures FamilyInv(Orphans(f)) && AllGrew(f, Orphans(f)) && Orphans(f).children.Keys == f.children.Keys
  {
    hide ChildOk, Orphan, Grew;
    assert Orphans(f).children.Keys == f.children.Keys;
    forall id | id in f.children
      ensures ChildOk(Orphan(f.children[id])) && Grew(f.children[id], Orphan(f.children[id]))
    {
      OrphanEvolves(f.children[id]);
    }
  }

  lemma GrewTwice(f: Family, g: Family, h: Family)
    requires AllGrew(f, g) && AllGrew(g, h)
    ensures AllGrew(f, h)
  {
    forall id | id in f.children
      ensures id in h.children && Grew(f.children[id], h.children[id])
    {
      assert Grew(f.children[id], g.children[id]) && Grew(g.children[id], h.children[id]);
    }
  }

  lemma GrewSame(f: Family)
    ensures AllGrew(f, f)
  {
  }

  lemma SpawnKeeps(idOf: string -> string, f: Family, d: Deed)
    requires FamilyInv(f) && d.Spawn?
    ensures var g := Step(idOf, f, d).value;
      FamilyInv(g) && AllGrew(f, g) && g.children.Keys <= f.children.Keys + {idOf(d.call)}
  {
    hide FamilyInv, ChildOk, Enter, LastOutcome, LastAnswer, Evolves, AllGrew;
    var id := idOf(d.call);
    GrewSame(f);
    if ReplyTo(f, id) == Runs {
      var c := if id in f.children then f.children[id] else NewChild(true);
      EnterEvolves(c, d.p, false);
      SameRowsEvolve(c, c.(waiting := true, flying := true));
      var e := if d.background then c.(waiting := true, flying := true) else Enter(c, d.p, false);
      if id in f.children {
        Replaced(f, id, e);
      } else {
        FreshChild(true);
        assert ChildOk(e) by { assert Evolves(c, e); EvolvedOk(c, e); }
        Added(f, id, e);
      }
    }
  }

  lemma EvolvedOk(c: Child, d: Child)
    requires Evolves(c, d) && ChildOk(c)
    ensures ChildOk(d) && Grew(c, d)
  {
    hide ChildOk;
  }

  /** Every deed keeps the budget and every child, and adds at most the child its call names. */
  lemma StepKeeps(idOf: string -> string, f: Family, d: Deed)
    requires FamilyInv(f) && Step(idOf, f, d).Some?
    ensures var g := Step(idOf, f, d).value;
      FamilyInv(g) && AllGrew(f, g) && g.max == f.max && g.children.Keys <= f.children.Keys + Named(idOf, [d])
  {
    hide FamilyInv, ChildOk, Do, Enter, NeedsLane, LastOutcome, LastAnswer, Evolves, AllGrew, Orphans, SysInv;
    assert d in [d];
    match d
    case Spawn(_, _, _) => SpawnKeeps(idOf, f, d);
    case Cut(call) =>
      CutKeeps(f, idOf(call));
    case Launch(id, p) =>
      EnterEvolves(f.children[id], p, true);
      Replaced(f, id, Enter(f.children[id], p, true));
    case PenAct(id, a) =>
      ActEvolves(f.children[id], a, NextJob(f.children[id].job.value, a));
      Replaced(f, id, f.children[id].(y := Do(f.children[id].y, a).value, job := NextJob(f.children[id].job.value, a)));
    case OtherAct(id, a) =>
      ActEvolves(f.children[id], a, f.children[id].job);
      Replaced(f, id, f.children[id].(y := Do(f.children[id].y, a).value));
    case NoLane(id, p) =>
      NoLaneEvolves(f.children[id], p);
      Replaced(f, id, f.children[id].(y := SetWork(f.children[id].y, p, Stopped)));
    case Settled(id) =>
      SameRowsEvolve(f.children[id], f.children[id].(flying := false));
      Replaced(f, id, f.children[id].(flying := false));
    case ParentDies => Orphaned(f); OrphansMax(f);
  }

  lemma OrphansMax(f: Family)
    ensures Orphans(f).max == f.max
  {
  }

  lemma CutKeeps(f: Family, id: string)
    requires FamilyInv(f) && id !in f.children && ReplyTo(f, id) == Runs
    ensures var g := WithChild(Orphans(f), id, NewChild(false));
      FamilyInv(g) && AllGrew(f, g) && g.max == f.max && g.children.Keys == f.children.Keys + {id}
  {
    hide ChildOk, Orphan, Grew;
    Orphaned(f);
    FreshChild(false);
    Added(Orphans(f), id, NewChild(false));
    GrewTwice(f, Orphans(f), WithChild(Orphans(f), id, NewChild(false)));
  }

  lemma AllStepsKeep(idOf: string -> string, f: Family, deeds: seq<Deed>)
    requires FamilyInv(f) && Play(StepOf(idOf), f, deeds).Some?
    ensures FamilyInv(Play(StepOf(idOf), f, deeds).value)
  {
    hide FamilyInv, Step, AllGrew;
    forall g: Family, d: Deed {:trigger StepOf(idOf)(g, d)} | FamilyInv(g) && StepOf(idOf)(g, d).Some?
      ensures FamilyInv(StepOf(idOf)(g, d).value)
    {
      StepKeeps(idOf, g, d);
    }
    PlayInvariant(StepOf(idOf), f, deeds, FamilyInv);
  }

  lemma NoChildren(max: nat)
    ensures FamilyInv(Family(max, map[]))
  {
  }

  /** The budget is durable: whatever is spawned, replayed, killed and restarted, in whatever order, a
      parent never has more children than its budget. */
  lemma BudgetHolds(idOf: string -> string, max: nat, deeds: seq<Deed>)
    requires Play(StepOf(idOf), Family(max, map[]), deeds).Some?
    ensures |Play(StepOf(idOf), Family(max, map[]), deeds).value.children| <= max
    ensures Play(StepOf(idOf), Family(max, map[]), deeds).value.max == max
  {
    hide Step, ChildOk;
    NoChildren(max);
    AllStepsKeep(idOf, Family(max, map[]), deeds);
    OneChildPerCall(idOf, Family(max, map[]), deeds);
  }

  /** At most one child per call, however often the call is replayed: the children are among the ids the
      calls name. None disappears and none loses history. */
  lemma {:induction false} OneChildPerCall(idOf: string -> string, f: Family, deeds: seq<Deed>)
    requires FamilyInv(f) && Play(StepOf(idOf), f, deeds).Some?
    ensures var g := Play(StepOf(idOf), f, deeds).value;
      AllGrew(f, g) && g.max == f.max && g.children.Keys <= f.children.Keys + Named(idOf, deeds)
    decreases |deeds|
  {
    if deeds != [] {
      hide Step, FamilyInv, AllGrew;
      var g := Step(idOf, f, deeds[0]).value;
      StepKeeps(idOf, f, deeds[0]);
      OneChildPerCall(idOf, g, deeds[1..]);
      NamedFirst(idOf, deeds);
      GrewTwice(f, g, Play(StepOf(idOf), g, deeds[1..]).value);
    } else {
      GrewSame(f);
    }
  }

  lemma NamedFirst(idOf: string -> string, deeds: seq<Deed>)
    requires deeds != []
    ensures Named(idOf, [deeds[0]]) <= Named(idOf, deeds) && Named(idOf, deeds[1..]) <= Named(idOf, deeds)
  {
    assert deeds[0] in deeds;
    forall d | d in deeds[1..]
      ensures d in deeds
    {
    }
  }

  // ---------------------------------------------------------------- what a spawn answers

  /** The last finish record among `rs` is at `i`. */
  predicate FinishedLastAt(rs: seq<Record>, i: nat) {
    i < |rs| && rs[i].payload.OperationFinished? && forall k :: i < k < |rs| ==> !rs[k].payload.OperationFinished?
  }

  /** The last assistant message among `ms` is at `i`. */
  predicate SpokenLastAt(ms: seq<Message>, i: nat) {
    i < |ms| && ms[i].role.Assistant? && forall k :: i < k < |ms| ==> !ms[k].role.Assistant?
  }

  lemma {:induction false} LastOutcomeMeaning(rs: seq<Record>)
    ensures forall i: nat :: FinishedLastAt(rs, i) ==> LastOutcome(rs) == Some(rs[i].payload.outcome)
    ensures LastOutcome(rs).Some? ==> exists i: nat :: FinishedLastAt(rs, i)
  {
    if rs != [] {
      var init := rs[..|rs| - 1];
      LastOutcomeMeaning(init);
      if rs[|rs| - 1].payload.OperationFinished? {
        assert FinishedLastAt(rs, |rs| - 1);
      } else {
        if j: nat :| FinishedLastAt(init, j) {
          assert FinishedLastAt(rs, j);
        }
        forall i: nat | FinishedLastAt(rs, i)
          ensures FinishedLastAt(init, i)
        {
        }
      }
    }
  }

  lemma {:induction false} LastAnswerMeaning(ms: seq<Message>)
    ensures forall i: nat :: SpokenLastAt(ms, i) ==> LastAnswer(ms) == TextOf(ms[i])
    ensures (forall i :: 0 <= i < |ms| ==> !ms[i].role.Assistant?) ==> LastAnswer(ms) == ""
  {
    if ms != [] {
      var init := ms[..|ms| - 1];
      LastAnswerMeaning(init);
      if !ms[|ms| - 1].role.Assistant? {
        forall i: nat | SpokenLastAt(ms, i)
          ensures SpokenLastAt(init, i)
        {
        }
      }
    }
  }

  /** The last run that ended, ended as completed. */
  ghost predicate EndedCompleted(rs: seq<Record>) {
    exists i: nat :: FinishedLastAt(rs, i) && rs[i].payload.outcome.Completed?
  }

  lemma CompletedMeaning(rs: seq<Record>)
    ensures LastOutcome(rs) == Some(Completed) <==> EndedCompleted(rs)
  {
    LastOutcomeMeaning(rs);
    if LastOutcome(rs) == Some(Completed) {
      var i: nat :| FinishedLastAt(rs, i);
    }
  }

  /** What a spawn answers, case by case: that the child runs here already; that the budget is used up, and
      how much of it; the text of the last assistant message of a child whose last run completed; or else
      that the child will run. */
  lemma RepliesExactly(f: Family, id: string)
    ensures var r, known := ReplyTo(f, id), id in f.children;
      && (r == AlreadyRunning <==> known && f.children[id].flying)
      && (forall n :: r == Exhausted(n) <==> !known && |f.children| >= f.max && n == |f.children|)
      && (r.Reattached? <==> known && !f.children[id].flying && EndedCompleted(f.children[id].y.s.records))
      && (r == Runs <==> if known then !f.children[id].flying && !EndedCompleted(f.children[id].y.s.records)
                         else |f.children| < f.max)
      && (r.Reattached? ==> forall i: nat :: SpokenLastAt(Transcript(f.children[id].y.s), i) ==>
            r.answer == TextOf(Transcript(f.children[id].y.s)[i]))
  {
    hide LastOutcome, LastAnswer, EndedCompleted, Transcript, TextOf;
    if id in f.children {
      CompletedMeaning(f.children[id].y.s.records);
      LastAnswerMeaning(Transcript(f.children[id].y.s));
    }
  }

  /** A child just spawned: its rows are those of a new session, and it waits for its background task, or
      the pen's job has acquired it. */
  ghost predicate JustSpawned(c: Child, background: bool, p: nat) {
    && c.lane && c.y.s.entries == [] && c.y.s.records == []
    && c.flying == background && c.waiting == background
    && (background ==> c.y.owners == map[] && c.job.None?)
    && (!background ==> c.y.lock == Some(p) && c.y.owners == map[p := Owner(Acquired, None)] && c.job == Some(Job(p, false, false)))
  }

  /** The budget is exact: a spawn of a new child makes it if and only if there are fewer children than the
      budget; otherwise nothing changes and the answer is how many there are. */
  lemma SpawnExactly(idOf: string -> string, f: Family, call: string, background: bool, p: nat)
    requires idOf(call) !in f.children
    ensures var id, g := idOf(call), Step(idOf, f, Spawn(call, background, p));
      && g.Some? && g.value.max == f.max
      && (if |f.children| < f.max
          then g.value.children.Keys == f.children.Keys + {id} && JustSpawned(g.value.children[id], background, p)
               && forall other :: other in f.children ==> g.value.children[other] == f.children[other]
          else g.value == f && ReplyTo(f, id) == Exhausted(|f.children|))
  {
    hide LastOutcome, LastAnswer;
    RepliesExactly(f, idOf(call));
    EnterNew(p);
  }

  lemma EnterNew(p: nat)
    ensures JustSpawned(Enter(NewChild(true), p, false), false, p)
    ensures JustSpawned(NewChild(true).(waiting := true, flying := true), true, p)
  {
  }

  function Spawns(calls: seq<string>): (deeds: seq<Deed>)
    ensures |deeds| == |calls| && forall i :: 0 <= i < |calls| ==> deeds[i] == Spawn(calls[i], true, 0)
  {
    if calls == [] then [] else Spawns(calls[..|calls| - 1]) + [Spawn(calls[|calls| - 1], true, 0)]
  }

  /** The ids a list of calls names. */
  function IdsOf(idOf: string -> string, calls: seq<string>): set<string> {
    set i | 0 <= i < |calls| :: idOf(calls[i])
  }

  /** Every number of children up to the budget is reached, by as many calls that name different ids. */
  lemma {:induction false} BudgetReached(idOf: string -> string, max: nat, calls: seq<string>)
    requires |calls| <= max && forall i, j :: 0 <= i < j < |calls| ==> idOf(calls[i]) != idOf(calls[j])
    ensures var g := Play(StepOf(idOf), Family(max, map[]), Spawns(calls));
      && g.Some? && g.value.max == max && |g.value.children| == |calls|
      && g.value.children.Keys == IdsOf(idOf, calls)
  {
    hide Step, JustSpawned, IdsOf, Spawns;
    if calls == [] {
      NothingSpawned(idOf, max);
    } else {
      var init, last := calls[..|calls| - 1], calls[|calls| - 1];
      BudgetReached(idOf, max, init);
      IdsSnoc(idOf, calls);
      var f := Play(StepOf(idOf), Family(max, map[]), Spawns(init)).value;
      OneMore(idOf, f, last);
      PlayOne(StepOf(idOf), f, Spawn(last, true, 0));
      PlayConcat(StepOf(idOf), Family(max, map[]), Spawns(init), f, [Spawn(last, true, 0)]);
    }
  }

  lemma NothingSpawned(idOf: string -> string, max: nat)
    ensures Play(StepOf(idOf), Family(max, map[]), Spawns([])) == Some(Family(max, map[])) && IdsOf(idOf, []) == {}
  {
  }

  lemma IdsSnoc(idOf: string -> string, calls: seq<string>)
    requires calls != []
    ensures var init, last := calls[..|calls| - 1], calls[|calls| - 1];
      && IdsOf(idOf, calls) == IdsOf(idOf, init) + {idOf(last)}
      && Spawns(calls) == Spawns(init) + [Spawn(last, true, 0)]
      && ((forall i :: 0 <= i < |init| ==> idOf(calls[i]) != idOf(last)) ==> idOf(last) !in IdsOf(idOf, init))
  {
    var init, last := calls[..|calls| - 1], calls[|calls| - 1];
    assert calls == init + [last];
    forall id
      ensures id in IdsOf(idOf, calls) <==> id in IdsOf(idOf, init) + {idOf(last)}
    {
      if id in IdsOf(idOf, init) {
        var i :| 0 <= i < |init| && idOf(init[i]) == id;
        assert calls[i] == init[i];
      }
      if id == idOf(last) {
        assert calls[|init|] == last;
      }
    }
  }

  lemma OneMore(idOf: string -> string, f: Family, call: string)
    requires idOf(call) !in f.children && |f.children| < f.max
    ensures var g := Step(idOf, f, Spawn(call, true, 0));
      && g.Some? && g.value.max == f.max && |g.value.children| == |f.children| + 1
      && g.value.children.Keys == f.children.Keys + {idOf(call)}
  {
    hide Step, JustSpawned;
    SpawnExactly(idOf, f, call, true, 0);
    var g := Step(idOf, f, Spawn(call, true, 0)).value;
    assert |g.children| == |g.children.Keys| && |f.children| == |f.children.Keys|;
  }

  /** While the pen runs a child nobody else does anything to it: another process may try to acquire it, which
      changes nothing, and that is all. */
  lemma LockKeepsOthersOut(idOf: string -> string, f: Family, id: string, a: Systems.Act)
    requires FamilyInv(f) && id in f.children && f.children[id].job.Some?
    requires f.children[id].job.value.p in f.children[id].y.owners
    ensures Step(idOf, f, OtherAct(id, a)).Some? <==> a.Acquire? && a.p != f.children[id].job.value.p
    ensures Step(idOf, f, OtherAct(id, a)).Some? ==> Step(idOf, f, OtherAct(id, a)) == Some(f)
  {
    hide LastOutcome, SysInv, Do;
    assert ChildOk(f.children[id]);
    HeldByOne(f.children[id].y, f.children[id].job.value.p, a);
    assert f.children[id := f.children[id]] == f.children;
  }

  lemma HeldByOne(y: Sys, p: nat, a: Systems.Act)
    requires SysInv(y) && p in y.owners
    ensures a.p != p ==> (Do(y, a).Some? <==> a.Acquire?) && (a.Acquire? ==> Do(y, a) == Some(y))
  {
    hide Inv.Durable, Inv.Inv, C.Resuming, RowOk, P.Enabled, P.Next;
  }

  /** When the pen's process dies its registry and its tasks are gone, and so is its hold on every child it
      ran; no row changes, and no child that someone else holds is touched. */
  lemma ParentDeathFrees(idOf: string -> string, f: Family, id: string)
    requires FamilyInv(f) && id in f.children && (f.children[id].job.Some? ==> f.children[id].job.value.p in f.children[id].y.owners)
    ensures var g := Step(idOf, f, ParentDies);
      && g.Some? && g.value.children.Keys == f.children.Keys && g.value.max == f.max
      && var c, d := f.children[id], g.value.children[id];
         && !d.flying && !d.waiting && d.job.None? && d.lane == c.lane && d.y.s == c.y.s && d.y.row == c.y.row
         && (c.job.Some? ==> d.y.owners == map[] && d.y.lock.None?)
         && (c.job.None? ==> d.y == c.y)
  {
    hide SysInv, Orphan, LastOutcome;
    assert ChildOk(f.children[id]);
    OrphanFrees(f.children[id]);
  }

  lemma OrphanFrees(c: Child)
    requires SysInv(c.y) && (c.job.Some? ==> c.job.value.p in c.y.owners)
    ensures var d := Orphan(c);
      && !d.flying && !d.waiting && d.job.None? && d.lane == c.lane && d.y.s == c.y.s && d.y.row == c.y.row
      && (c.job.Some? ==> d.y.owners == map[] && d.y.lock.None?)
      && (c.job.None? ==> d.y == c.y)
  {
    hide Inv.Durable, Inv.Inv, C.Resuming, RowOk;
    if c.job.Some? {
      assert Orphan(c).y.owners == map[];
    }
  }

  /** A prompt for a child without a lane row is refused: the process that opened the run stops, and the run
      stays open. */
  lemma LanelessPromptRefused(idOf: string -> string, f: Family, id: string, p: nat, prompt: nat)
    requires id in f.children && !f.children[id].lane && p in f.children[id].y.owners
    requires f.children[id].y.owners[p].work.Active? && f.children[id].y.owners[p].work.phase.Opened?
    ensures Step(idOf, f, PenAct(id, Run(p, P.Prompt(prompt)))).None?
    ensures Step(idOf, f, OtherAct(id, Run(p, P.Prompt(prompt)))).None?
    ensures var g := Step(idOf, f, NoLane(id, p));
      && g.Some? && id in g.value.children && p in g.value.children[id].y.owners
      && g.value.children[id].y.s == f.children[id].y.s
      && g.value.children[id].y.owners[p].work == Stopped
      && g.value.children[id].y.owners[p].generation == f.children[id].y.owners[p].generation
  {
  }

  // ---------------------------------------------------------------- replay under one owner

  /** The child is idle after a completed run whose answer stands at the end of its path. */
  ghost predicate Rests(y: Sys, answer: string) {
    && NoneOpen(y.s.records) && LastOutcome(y.s.records) == Some(Completed)
    && LastAnswer(Transcript(y.s)) == answer
  }

  /** While no run is open, only the start of another run changes the rows. */
  lemma QuietActKeeps(y: Sys, a: Systems.Act)
    requires SysInv(y) && NoneOpen(y.s.records) && Do(y, a).Some? && !(a.Run? && a.e.Start?)
    ensures Do(y, a).value.s.entries == y.s.entries && Do(y, a).value.s.records == y.s.records
  {
    if a.RecoveryWrite? {
      hide Inv.Durable, Plan, NoneOpen;
      var w := y.owners[a.p].work;
      assert WorkOk(y, w);
      var from: nat :| C.Resuming(y.s, w.plan, from, y.ran);
      C.NoneOpenPlan(y.s);
    } else if a.Run? {
      var w := y.owners[a.p].work;
      assert WorkOk(y, w);
      QuietRun(ConfigOf(y, w), a.e);
    }
  }

  lemma QuietRun(c: P.Config, e: P.Event)
    requires Inv.Inv(c) && NoneOpen(c.s.records) && P.Enabled(c, e) && !e.Start?
    ensures P.Next(c, e).s.entries == c.s.entries && P.Next(c, e).s.records == c.s.records
  {
    hide Inv.Durable;
    assert c.phase.Ready? || c.phase.Finished? || c.phase.Unmarked?;
    var ws := P.Writes(c, e);
    if ws != [] {
      assert ws == [ws[0]];
      One(c.s, ws[0]);
    }
  }

  /** The run completes with the reply `ask`: the child rests on its text. */
  lemma CompletionRests(c: P.Config)
    requires Inv.Inv(c) && c.phase.Replied? && P.Enabled(c, P.Finish(Completed))
    ensures var t := P.Next(c, P.Finish(Completed)).s;
      && NoneOpen(t.records) && LastOutcome(t.records) == Some(Completed)
      && LastAnswer(Transcript(t)) == TextOf(c.phase.ask)
  {
    hide Inv.Durable;
    var d := P.Next(c, P.Finish(Completed));
    EventKeeps(c, P.Finish(Completed));
    var w := PutRecord(FinishId(c.phase.run), c.phase.run, OperationFinished(Completed));
    assert P.Writes(c, P.Finish(Completed)) == [w];
    One(c.s, w);
    assert d.s == Commit(c.s, w);
    var i :| 0 <= i < |c.s.records| && OpenAt(c.s.records, i);
    assert d.s.records != c.s.records;
    LastOutcomeSnoc(c.s.records, d.s.records[|c.s.records|]);
    assert Transcript(d.s) == Transcript(c.s) == c.memory + [c.phase.ask];
    LastAnswerSnoc(c.memory, c.phase.ask);
  }

  /** The pen alone: no process from outside, and no background spawn of a call whose foreground run is
      still going on, which takes two calls of one id in one reply. */
  ghost predicate Alone(idOf: string -> string, f: Family, d: Deed) {
    && !d.OtherAct?
    && (d.Spawn? && d.background && idOf(d.call) in f.children ==>
          f.children[idOf(d.call)].job.Some? ==> f.children[idOf(d.call)].job.value.background)
  }

  ghost function AloneStep(idOf: string -> string, f: Family, d: Deed): Option<Family> {
    if Alone(idOf, f, d) then Step(idOf, f, d) else None
  }

  ghost function AloneOf(idOf: string -> string): (Family, Deed) -> Option<Family> {
    (f, d) => AloneStep(idOf, f, d)
  }

  /** No process from outside takes part. */
  predicate PenOnly(deeds: seq<Deed>) {
    forall i :: 0 <= i < |deeds| ==> !deeds[i].OtherAct?
  }

  lemma {:induction false} AlonePlays(idOf: string -> string, f: Family, deeds: seq<Deed>)
    requires Play(AloneOf(idOf), f, deeds).Some?
    ensures Play(StepOf(idOf), f, deeds) == Play(AloneOf(idOf), f, deeds) && PenOnly(deeds)
    decreases |deeds|
  {
    hide Step;
    if deeds != [] {
      AlonePlays(idOf, AloneStep(idOf, f, deeds[0]).value, deeds[1..]);
    }
  }

  predicate Background(job: Option<Job>) {
    job.Some? && job.value.background
  }

  predicate Unsent(c: Child) {
    c.waiting || (c.job.Some? && !c.job.value.sent)
  }

  predicate AtRest(y: Sys, p: nat) {
    p in y.owners && y.owners[p].work.Active? ==> y.owners[p].work.phase.Ready?
  }

  /** A job holds its session, and stands at rest until it sends. */
  ghost predicate JobOk(c: Child) {
    c.job.Some? ==> c.job.value.p in c.y.owners && (c.job.value.sent || AtRest(c.y, c.job.value.p))
  }

  /** A background run is in the registry from its spawn to its end; and whoever has yet to send does so
      on a child whose last run did not complete. */
  ghost predicate AloneOk(c: Child) {
    && JobOk(c)
    && (c.waiting || Background(c.job) ==> c.flying)
    && (c.waiting ==> c.job.None?)
    && (Unsent(c) ==> LastOutcome(c.y.s.records) != Some(Completed))
  }

  /** A run at rest that does not start leaves no completed outcome. */
  lemma RestingKeeps(y: Sys, a: Systems.Act)
    requires SysInv(y) && Do(y, a).Some? && !Starts(a) && AtRest(y, a.p)
    requires LastOutcome(y.s.records) != Some(Completed)
    ensures LastOutcome(Do(y, a).value.s.records) != Some(Completed)
  {
    if a.RecoveryWrite? {
      RecoveryNotCompleted(y, a);
    } else if a.Run? {
      hide LastOutcome, SysInv, P.Enabled, P.Next;
      ReadyStarts(ConfigOf(y, y.owners[a.p].work), a.e);
    } else {
      hide LastOutcome, SysInv, P.Enabled, P.Next;
      assert Do(y, a).value.s.records == y.s.records;
    }
  }

  lemma ReadyStarts(c: P.Config, e: P.Event)
    requires c.phase.Ready? && P.Enabled(c, e)
    ensures e.Start?
  {
  }

  lemma RecoveryNotCompleted(y: Sys, a: Systems.Act)
    requires SysInv(y) && Do(y, a).Some? && a.RecoveryWrite?
    requires LastOutcome(y.s.records) != Some(Completed)
    ensures LastOutcome(Do(y, a).value.s.records) != Some(Completed)
  {
    hide Inv.Durable, Plan, LastOutcome;
    var w := y.owners[a.p].work;
    assert WorkOk(y, w);
    PlanAborts(y.s);
    var from: nat :| C.Resuming(y.s, w.plan, from, y.ran);
    assert w.plan[0].PutRecord? ==> w.plan[0].payload == OperationFinished(Aborted);
    CommitOutcome(y.s, w.plan[0]);
  }

  lemma StaysAtRest(y: Sys, a: Systems.Act)
    requires Do(y, a).Some? && !Starts(a) && AtRest(y, a.p)
    ensures AtRest(Do(y, a).value, a.p)
  {
  }

  ghost predicate AllAlone(f: Family) {
    forall id :: id in f.children ==> AloneOk(f.children[id])
  }

  lemma PenActAlone(c: Child, a: Systems.Act)
    requires ChildOk(c) && AloneOk(c) && PenMay(c, a) && Do(c.y, a).Some?
    ensures AloneOk(c.(y := Do(c.y, a).value, job := NextJob(c.job.value, a)))
  {
    hide SysInv, Do, LastOutcome, NeedsLane;
    PenActJob(c, a);
    if !Starts(a) && !c.job.value.sent {
      RestingKeeps(c.y, a);
    }
  }

  lemma PenActJob(c: Child, a: Systems.Act)
    requires JobOk(c) && PenMay(c, a) && Do(c.y, a).Some?
    ensures JobOk(c.(y := Do(c.y, a).value, job := NextJob(c.job.value, a)))
  {
    hide Do, NeedsLane;
    if !a.Unlock? {
      OwnerStays(c.y, a);
    }
    if !Starts(a) && !c.job.value.sent {
      StaysAtRest(c.y, a);
    }
  }

  lemma OwnerStays(y: Sys, a: Systems.Act)
    requires Do(y, a).Some? && !a.Unlock? && !a.Crash? && a.p in y.owners
    ensures a.p in Do(y, a).value.owners
  {
  }

  lemma EnterAlone(c: Child, p: nat, background: bool)
    requires AloneOk(c) && c.job.None? && LastOutcome(c.y.s.records) != Some(Completed) && (background ==> c.flying)
    ensures AloneOk(Enter(c, p, background))
  {
    hide LastOutcome;
  }

  lemma OrphanAlone(c: Child)
    ensures AloneOk(Orphan(c))
  {
    hide LastOutcome;
  }

  lemma NoLaneAlone(c: Child, p: nat)
    requires AloneOk(c) && p in c.y.owners
    ensures AloneOk(c.(y := SetWork(c.y, p, Stopped)))
  {
    hide LastOutcome;
  }

  lemma SpawnAlone(idOf: string -> string, f: Family, d: Deed)
    requires FamilyInv(f) && AllAlone(f) && d.Spawn? && Alone(idOf, f, d)
    ensures AllAlone(Step(idOf, f, d).value)
  {
    hide LastOutcome, LastAnswer, Enter, Transcript, AloneOk, ChildOk;
    var id := idOf(d.call);
    if ReplyTo(f, id) == Runs {
      var c := if id in f.children then f.children[id] else NewChild(true);
      if id !in f.children {
        NewAlone();
        FreshChild(true);
        NothingFinished();
      }
      RunsAlone(c, d.background, d.p);
    }
  }

  lemma RunsAlone(c: Child, background: bool, p: nat)
    requires ChildOk(c) && AloneOk(c) && !c.flying && LastOutcome(c.y.s.records) != Some(Completed)
    requires background && c.job.Some? ==> c.job.value.background
    ensures AloneOk(if background then c.(waiting := true, flying := true) else Enter(c, p, false))
  {
    hide LastOutcome, Enter, ChildOk;
    if !background {
      if c.job.None? {
        EnterAlone(c, p, false);
      } else {
        HeldAlone(c, p);
      }
    }
  }

  lemma NothingFinished()
    ensures LastOutcome(INIT.s.records) == None
  {
  }

  lemma HeldAlone(c: Child, p: nat)
    requires ChildOk(c) && AloneOk(c) && c.job.Some?
    ensures Enter(c, p, false) == c.(waiting := false)
  {
    hide LastOutcome, Inv.Durable, Inv.Inv, C.Resuming;
  }

  /** Every deed of the pen alone keeps what its jobs rely on. */
  lemma AloneKeeps(idOf: string -> string, f: Family, d: Deed)
    requires FamilyInv(f) && AllAlone(f) && AloneStep(idOf, f, d).Some?
    ensures FamilyInv(AloneStep(idOf, f, d).value) && AllAlone(AloneStep(idOf, f, d).value)
  {
    hide FamilyInv, ChildOk, AllAlone, AloneOk, Do, Enter, NeedsLane, LastOutcome, LastAnswer, AllGrew, Orphans,
      ReplyTo, WithChild;
    StepKeeps(idOf, f, d);
    ChildAlone(f, d);
    match d
    case Spawn(_, _, _) => SpawnAlone(idOf, f, d);
    case Cut(call) =>
      OrphansAlone(f);
      NewAlone();
      WithAlone(Orphans(f), idOf(call), NewChild(false));
    case Launch(id, p) =>
      LaunchAlone(f.children[id], p);
      WithAlone(f, id, Enter(f.children[id], p, true));
    case PenAct(id, a) =>
      var job := NextJob(f.children[id].job.value, a);
      PenActAlone(f.children[id], a);
      WithAlone(f, id, f.children[id].(y := Do(f.children[id].y, a).value, job := job));
    case NoLane(id, p) =>
      NoLaneAlone(f.children[id], p);
      WithAlone(f, id, f.children[id].(y := SetWork(f.children[id].y, p, Stopped)));
    case Settled(id) =>
      SettledAlone(f.children[id]);
      WithAlone(f, id, f.children[id].(flying := false));
    case ParentDies => OrphansAlone(f);
  }

  lemma ChildAlone(f: Family, d: Deed)
    requires FamilyInv(f) && AllAlone(f)
    ensures (d.Launch? || d.PenAct? || d.NoLane? || d.Settled?) && d.id in f.children ==>
              ChildOk(f.children[d.id]) && AloneOk(f.children[d.id])
  {
    hide ChildOk, AloneOk;
  }

  lemma WithAlone(f: Family, id: string, c: Child)
    requires AllAlone(f) && AloneOk(c)
    ensures AllAlone(WithChild(f, id, c))
  {
    hide AloneOk;
  }

  lemma LaunchAlone(c: Child, p: nat)
    requires AloneOk(c) && c.waiting
    ensures AloneOk(Enter(c, p, true))
  {
    hide LastOutcome, Enter;
    EnterAlone(c, p, true);
  }

  lemma SettledAlone(c: Child)
    requires AloneOk(c) && !c.waiting && c.job.None?
    ensures AloneOk(c.(flying := false))
  {
    hide LastOutcome;
  }

  lemma NewAlone()
    ensures AloneOk(NewChild(true)) && AloneOk(NewChild(false))
  {
    NothingFinished();
  }

  lemma OrphansAlone(f: Family)
    ensures AllAlone(Orphans(f))
  {
    hide AloneOk, Orphan;
    forall id | id in f.children
      ensures AloneOk(Orphan(f.children[id]))
    {
      OrphanAlone(f.children[id]);
    }
  }

  ghost predicate FamilyAlone(f: Family) {
    FamilyInv(f) && AllAlone(f)
  }

  lemma AloneAlways(idOf: string -> string, f: Family, deeds: seq<Deed>)
    requires FamilyAlone(f) && Play(AloneOf(idOf), f, deeds).Some?
    ensures FamilyAlone(Play(AloneOf(idOf), f, deeds).value)
  {
    hide FamilyAlone, AloneStep;
    forall g: Family, d: Deed {:trigger AloneOf(idOf)(g, d)} | FamilyAlone(g) && AloneOf(idOf)(g, d).Some?
      ensures FamilyAlone(AloneOf(idOf)(g, d).value)
    {
      OneDeedAlone(idOf, g, d);
    }
    PlayInvariant(AloneOf(idOf), f, deeds, FamilyAlone);
  }

  lemma OneDeedAlone(idOf: string -> string, g: Family, d: Deed)
    requires FamilyAlone(g) && AloneStep(idOf, g, d).Some?
    ensures FamilyAlone(AloneStep(idOf, g, d).value)
  {
    hide FamilyInv, AllAlone, AloneStep;
    AloneKeeps(idOf, g, d);
  }

  /** The run on the child has completed and nobody of the pen is about to start another. */
  ghost predicate Rested(f: Family, id: string, answer: string) {
    id in f.children && Rests(f.children[id].y, answer) && !Unsent(f.children[id])
  }

  /** A deed of the pen that starts a run on the child, or makes a provider request in one. */
  predicate Asks(d: Deed, id: string) {
    d.PenAct? && d.id == id && d.a.Run? && (d.a.e.Start? || d.a.e.Step?)
  }

  /** On a child with no open run a job only clears up, unless it starts. */
  lemma NoStep(y: Sys, a: Systems.Act)
    requires SysInv(y) && NoneOpen(y.s.records) && Do(y, a).Some?
    ensures !(a.Run? && a.e.Step?)
  {
    hide Inv.Durable, NoneOpen;
    if a.Run? && a.e.Step? {
      assert WorkOk(y, y.owners[a.p].work);
      OpenTurn(ConfigOf(y, y.owners[a.p].work));
    }
  }

  lemma OpenTurn(c: P.Config)
    requires Inv.Inv(c) && c.phase.Turn?
    ensures !NoneOpen(c.s.records)
  {
    hide Inv.Durable;
    var i :| 0 <= i < |c.s.records| && OpenAt(c.s.records, i);
  }

  lemma RestedKeeps(idOf: string -> string, f: Family, d: Deed, id: string, answer: string)
    requires FamilyInv(f) && Rested(f, id, answer) && Step(idOf, f, d).Some? && !d.OtherAct?
    ensures Rested(Step(idOf, f, d).value, id, answer) && !Asks(d, id)
  {
    hide SysInv, Do, NeedsLane, NoneOpen, LastOutcome, LastAnswer;
    if d.PenAct? && d.id == id {
      assert ChildOk(f.children[id]);
      NoStep(f.children[id].y, d.a);
      QuietActKeeps(f.children[id].y, d.a);
    } else if d.ParentDies? || d.Cut? {
      OrphanRows(f.children[id]);
    }
  }

  lemma OrphanRows(c: Child)
    ensures Orphan(c).y.s == c.y.s
  {
  }

  lemma {:induction false} RestedLasts(idOf: string -> string, f: Family, deeds: seq<Deed>, id: string, answer: string)
    requires FamilyInv(f) && Rested(f, id, answer) && Play(StepOf(idOf), f, deeds).Some? && PenOnly(deeds)
    ensures Rested(Play(StepOf(idOf), f, deeds).value, id, answer)
    ensures forall d :: d in deeds ==> !Asks(d, id)
    decreases |deeds|
  {
    hide FamilyInv, Step, Rested, Asks, AllGrew;
    if deeds != [] {
      StepKeeps(idOf, f, deeds[0]);
      RestedKeeps(idOf, f, deeds[0], id, answer);
      RestedLasts(idOf, Step(idOf, f, deeds[0]).value, deeds[1..], id, answer);
    }
  }

  lemma CompletedChild(y: Sys, p: nat)
    requires SysInv(y) && p in y.owners && y.owners[p].work.Active? && y.owners[p].work.phase.Replied?
    requires Do(y, Run(p, P.Finish(Completed))).Some?
    ensures Rests(Do(y, Run(p, P.Finish(Completed))).value, TextOf(y.owners[p].work.phase.ask))
  {
    hide Inv.Inv, NoneOpen, LastOutcome, LastAnswer, TextOf, P.Next, P.Enabled, RowOk, Exclusive;
    assert WorkOk(y, y.owners[p].work);
    CompletionRests(ConfigOf(y, y.owners[p].work));
  }

  /** The run that process `p` has on the child completes with the reply `ask`. */
  ghost predicate Completes(f: Family, id: string, p: nat, ask: Message) {
    && id in f.children && p in f.children[id].y.owners
    && f.children[id].y.owners[p].work.Active?
    && f.children[id].y.owners[p].work.phase.Replied? && f.children[id].y.owners[p].work.phase.ask == ask
  }

  lemma CompletedRests(idOf: string -> string, f: Family, id: string, p: nat, ask: Message, d: Deed)
    requires FamilyInv(f) && Completes(f, id, p, ask)
    requires d == PenAct(id, Run(p, P.Finish(Completed))) || d == OtherAct(id, Run(p, P.Finish(Completed)))
    requires Step(idOf, f, d).Some?
    ensures var g := Step(idOf, f, d).value;
      id in g.children && Rests(g.children[id].y, TextOf(ask))
    ensures d.PenAct? && JobOk(f.children[id]) && !f.children[id].waiting ==> Rested(Step(idOf, f, d).value, id, TextOf(ask))
  {
    hide Do, Rests, SysInv, TextOf, NeedsLane, LastOutcome;
    assert ChildOk(f.children[id]);
    CompletedChild(f.children[id].y, p);
  }

  /** Replayed delegation converges. Whatever the pen did before - spawns, replays, recoveries, its own
      death - once a child's run has completed, and whatever the pen does then, spawning the call again
      returns the very text that run returned, and changes nothing. No run is started on the child and
      no provider asked, ever again. */
  lemma ReplayReturnsAnswer(idOf: string -> string, max: nat, before: seq<Deed>, f: Family, id: string, p: nat,
                            ask: Message, after: seq<Deed>, h: Family)
    requires Play(AloneOf(idOf), Family(max, map[]), before) == Some(f) && Completes(f, id, p, ask)
    requires var done := PenAct(id, Run(p, P.Finish(Completed)));
      AloneStep(idOf, f, done).Some? && Play(AloneOf(idOf), AloneStep(idOf, f, done).value, after) == Some(h)
    ensures id in h.children
    ensures !h.children[id].flying ==> ReplyTo(h, id) == Reattached(TextOf(ask))
    ensures forall call, background, q :: idOf(call) == id ==> Step(idOf, h, Spawn(call, background, q)) == Some(h)
    ensures forall d :: d in after ==> !Asks(d, id)
  {
    hide FamilyInv, Do, NoneOpen, LastOutcome, LastAnswer, TextOf, NeedsLane, SysInv, AllGrew, AloneOk, Alone, Completes,
      Asks;
    assert FamilyAlone(Family(max, map[])) by { NoChildren(max); }
    AloneAlways(idOf, Family(max, map[]), before);
    var done := PenAct(id, Run(p, P.Finish(Completed)));
    NoneWaits(idOf, f, id, p, ask, done);
    CompletedRests(idOf, f, id, p, ask, done);
    StepKeeps(idOf, f, done);
    AlonePlays(idOf, Step(idOf, f, done).value, after);
    hide Rests, Step, Transcript;
    RestedLasts(idOf, Step(idOf, f, done).value, after, id, TextOf(ask));
    RestedReply(idOf, h, id, TextOf(ask));
  }

  lemma NoneWaits(idOf: string -> string, f: Family, id: string, p: nat, ask: Message, done: Deed)
    requires AllAlone(f) && Completes(f, id, p, ask) && done.PenAct? && done.id == id && Step(idOf, f, done).Some?
    ensures JobOk(f.children[id]) && !f.children[id].waiting
  {
    hide Do, LastOutcome, NeedsLane;
    assert AloneOk(f.children[id]);
  }

  lemma RestedReply(idOf: string -> string, f: Family, id: string, answer: string)
    requires id in f.children && Rests(f.children[id].y, answer)
    ensures ReplyTo(f, id) == if f.children[id].flying then AlreadyRunning else Reattached(answer)
    ensures forall call, background, q :: idOf(call) == id ==> Step(idOf, f, Spawn(call, background, q)) == Some(f)
  {
    hide NoneOpen, LastOutcome, LastAnswer;
  }

  // ---------------------------------------------------------------- replay with other owners

  lemma {:induction false} LastOutcomeConcat(a: seq<Record>, b: seq<Record>)
    ensures LastOutcome(a + b) == if LastOutcome(b).Some? then LastOutcome(b) else LastOutcome(a)
    decreases |b|
  {
    if b == [] {
      assert a + b == a;
    } else {
      assert (a + b)[..|a + b| - 1] == a + b[..|b| - 1];
      LastOutcomeConcat(a, b[..|b| - 1]);
    }
  }

  /** No assistant message. */
  predicate Silent(ms: seq<Message>) {
    forall i :: 0 <= i < |ms| ==> !ms[i].role.Assistant?
  }

  lemma {:induction false} LastAnswerConcat(a: seq<Message>, b: seq<Message>)
    ensures LastAnswer(a + b) == if Silent(b) then LastAnswer(a) else LastAnswer(b)
    decreases |b|
  {
    if b == [] {
      assert a + b == a;
    } else {
      var init, last := b[..|b| - 1], b[|b| - 1];
      assert (a + b)[..|a + b| - 1] == a + init;
      LastAnswerConcat(a, init);
      assert Silent(b) <==> Silent(init) && !last.role.Assistant? by {
        assert b == init + [last];
      }
    }
  }

  lemma TranscriptGrown(s: Session, t: Session)
    requires s.entries <= t.entries
    ensures Transcript(t) == Transcript(s) + Transcript(t)[|s.entries|..]
  {
    assert Transcript(t)[..|s.entries|] == Transcript(s);
  }

  /** The outcome of the last run that ended after `s`, in the later session `t`. */
  function EndedSince(s: Session, t: Session): Option<Outcome> {
    if s.records <= t.records then LastOutcome(t.records[|s.records|..]) else None
  }

  /** The messages appended after `s`, in the later session `t`. */
  function SaidSince(s: Session, t: Session): seq<Message> {
    if s.entries <= t.entries then Transcript(t)[|s.entries|..] else []
  }

  /** What a replay answers whoever else ran the child after its run completed, as `g` left it: the text
      of that run exactly when no run that ended since ended otherwise than completed, and no assistant
      message was appended since, or the last one says the same. A later run still open therefore answers
      for the completed one with its first reply. And the child is run again exactly when the last run
      that ended since ended otherwise. */
  lemma ReplayAnswersExactly(idOf: string -> string, f: Family, id: string, p: nat, ask: Message, done: Deed, g: Family,
                             deeds: seq<Deed>, h: Family)
    requires FamilyInv(f) && Completes(f, id, p, ask)
    requires done == PenAct(id, Run(p, P.Finish(Completed))) || done == OtherAct(id, Run(p, P.Finish(Completed)))
    requires Step(idOf, f, done) == Some(g) && Play(StepOf(idOf), g, deeds) == Some(h)
    requires id in h.children ==> !h.children[id].flying
    ensures id in g.children && id in h.children
    ensures var s, t := g.children[id].y.s, h.children[id].y.s;
      && s.entries <= t.entries && s.records <= t.records
      && var ended, said := EndedSince(s, t), SaidSince(s, t);
         && (ReplyTo(h, id) == Reattached(TextOf(ask))
             <==> (ended.None? || ended == Some(Completed)) && (Silent(said) || LastAnswer(said) == TextOf(ask)))
         && (ReplyTo(h, id) == Runs <==> ended.Some? && ended != Some(Completed))
  {
    hide FamilyInv, Step, Completes, TextOf, LastOutcome, LastAnswer, Transcript, Silent, NoneOpen;
    CompletedRests(idOf, f, id, p, ask, done);
    StepKeeps(idOf, f, done);
    OneChildPerCall(idOf, g, deeds);
    assert Grew(g.children[id], h.children[id]);
    SinceMeaning(g.children[id].y.s, h.children[id].y.s);
  }

  lemma SinceMeaning(s: Session, t: Session)
    requires s.entries <= t.entries && s.records <= t.records
    ensures LastOutcome(t.records) == if EndedSince(s, t).Some? then EndedSince(s, t) else LastOutcome(s.records)
    ensures LastAnswer(Transcript(t))
         == if Silent(SaidSince(s, t)) then LastAnswer(Transcript(s)) else LastAnswer(SaidSince(s, t))
  {
    hide LastOutcome, LastAnswer, Silent;
    TranscriptGrown(s, t);
    LastAnswerConcat(Transcript(s), SaidSince(s, t));
    LastOutcomeConcat(s.records, t.records[|s.records|..]);
    assert t.records == s.records + t.records[|s.records|..];
  }
}
