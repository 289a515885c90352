/** Stretches of the protocol as the agent takes them: what a group of events does to the
    configuration, and the transactions it commits, in order. */
module Traces {
  import opened Wrappers
  import opened Llm
  import opened Ids
  import opened Sessions
  import opened Protocols
  import opened Plays
  import opened Schedulers
  import J = Journals
  import R = Recoveries
  import Inv = Invariants

  /** The transactions a list of events commits, in order. */
  ghost function Log(c: Config, es: seq<Event>): seq<Write>
    decreases |es|
  {
    if es == [] || !Enabled(c, es[0]) then []
    else Writes(c, es[0]) + Log(Next(c, es[0]), es[1..])
  }

  /** Playing `es` from `c` is possible, ends in `d`, and commits exactly `ws`. */
  ghost predicate Follows(c: Config, es: seq<Event>, d: Config, ws: seq<Write>) {
    Play(Advance, c, es) == Some(d) && Log(c, es) == ws
  }

  lemma FollowsNothing(c: Config)
    ensures Follows(c, [], c, [])
  {}

  lemma FollowsOne(c: Config, e: Event)
    requires Enabled(c, e)
    ensures Follows(c, [e], Next(c, e), Writes(c, e))
  {
    hide Enabled, Next, Writes;
    assert [e][1..] == [];
    assert Advance(c, e) == Some(Next(c, e));
    assert Log(Next(c, e), [e][1..]) == [];
    assert Play(Advance, Next(c, e), [e][1..]) == Some(Next(c, e));
    assert Writes(c, e) + [] == Writes(c, e);
  }

  lemma {:induction false} FollowsConcat(c: Config, a: seq<Event>, d: Config, v: seq<Write>,
                                         b: seq<Event>, f: Config, w: seq<Write>)
    requires Follows(c, a, d, v) && Follows(d, b, f, w)
    ensures Follows(c, a + b, f, v + w)
    decreases |a|
  {
    hide Enabled, Next, Writes;
    if a == [] {
      assert a + b == b && v + w == w;
    } else {
      var c' := Next(c, a[0]);
      var v' := Log(c', a[1..]);
      FollowsConcat(c', a[1..], d, v', b, f, w);
      assert (a + b)[1..] == a[1..] + b;
      assert Writes(c, a[0]) + (v' + w) == (Writes(c, a[0]) + v') + w;
    }
  }

  // ---------------------------------------------------------------- the agent's stretches

  lemma CanStart(c: Config, run: nat, user: Message, id: nat) returns (d: Config)
    requires c.phase.Ready? && Reduce(c.s) == Ok(None) && Unseen(c.s, run) && user.role.User?
    requires Unseen(Commit(Commit(c.s, PutRecord(Uuid(run), run, OperationStarted(c.s.leaf))), SetMarker(run)), id)
    ensures var ws := [PutRecord(Uuid(run), run, OperationStarted(c.s.leaf)), SetMarker(run), PutEntry(Uuid(id), user)];
      && Follows(c, [Start(run, user), Mark, Prompt(id)], d, ws)
      && d == Config(Commit(Commit(Commit(c.s, ws[0]), ws[1]), ws[2]), Turn(run, 0),
                     c.memory + [user], |c.memory|, c.ran)
  {
    hide Unseen, Reduce;
    var w0, w1, w2 := PutRecord(Uuid(run), run, OperationStarted(c.s.leaf)), SetMarker(run), PutEntry(Uuid(id), user);
    R.CommitTwo(c.s, w0, w1);
    var c1 := Next(c, Start(run, user));
    FollowsOne(c, Start(run, user));
    R.CommitTwo(c1.s, w1, w1);
    var c2 := Next(c1, Mark);
    FollowsOne(c1, Mark);
    R.CommitTwo(c2.s, w2, w2);
    d := Next(c2, Prompt(id));
    FollowsOne(c2, Prompt(id));
    FollowsConcat(c, [Start(run, user)], c1, [w0], [Mark], c2, [w1]);
    FollowsConcat(c, [Start(run, user)] + [Mark], c2, [w0] + [w1], [Prompt(id)], d, [w2]);
    assert [Start(run, user)] + [Mark] + [Prompt(id)] == [Start(run, user), Mark, Prompt(id)];
    assert [w0] + [w1] + [w2] == [w0, w1, w2];
  }

  lemma CanStep(c: Config) returns (d: Config)
    requires c.phase.Turn?
    ensures var w := PutRecord(StepId(c.phase.run, c.phase.attempt + 1), c.phase.run, StepAttempt(c.phase.attempt + 1));
      Follows(c, [Step], d, [w])
      && d == c.(s := Commit(c.s, w), phase := Calling(c.phase.run, c.phase.attempt + 1))
  {
    var w := PutRecord(StepId(c.phase.run, c.phase.attempt + 1), c.phase.run, StepAttempt(c.phase.attempt + 1));
    R.CommitTwo(c.s, w, w);
    d := Next(c, Step);
    FollowsOne(c, Step);
  }

  lemma CanReply(c: Config, id: nat, ask: Message) returns (d: Config)
    requires c.phase.Calling? && Unseen(c.s, id) && ask.role.Assistant?
    requires FreshUses(c.s.records, c.phase.run, Uses(ask))
    ensures var w := PutEntry(Uuid(id), ask);
      Follows(c, [Reply(id, ask)], d, [w])
      && d == c.(s := Commit(c.s, w), phase := Replied(c.phase.run, c.phase.attempt, ask))
  {
    hide Unseen, FreshUses, Uses;
    var w := PutEntry(Uuid(id), ask);
    R.CommitTwo(c.s, w, w);
    d := Next(c, Reply(id, ask));
    FollowsOne(c, Reply(id, ask));
  }

  lemma CanProvision(c: Config, results: nat, intents: seq<ToolIntent>) returns (d: Config)
    requires c.phase.Replied? && Uses(c.phase.ask) != [] && Unseen(c.s, results) && IntentsFor(c.phase.ask, intents)
    ensures Follows(c, [Provision(results, intents)], d, [])
    ensures d == c.(phase := Recording(c.phase.run, c.phase.attempt, c.phase.ask, results, intents, 0))
  {
    hide Unseen, IntentsFor, Uses;
    d := Next(c, Provision(results, intents));
    FollowsOne(c, Provision(results, intents));
    assert CommitAll(c.s, []) == c.s;
  }

  function Repeat(e: Event, n: nat): (es: seq<Event>)
    ensures |es| == n && forall i :: 0 <= i < n ==> es[i] == e
  {
    if n == 0 then [] else [e] + Repeat(e, n - 1)
  }

  function TailIntents(p: Phase): seq<ToolIntent>
    requires p.Recording? && p.done <= |p.intents|
  {
    p.intents[p.done..]
  }

  /** Recording what is left of a batch ends with the tools free to run. */
  lemma {:induction false} CanIntend(c: Config) returns (d: Config)
    requires c.phase.Recording? && c.phase.done < |c.phase.intents|
    ensures var p := c.phase;
      var ws := J.IntentWrites(p.run, TailIntents(p), p.results);
      Follows(c, Repeat(Intend, |ws|), d, ws)
      && d == c.(s := CommitAll(c.s, ws),
                 phase := Executing(p.run, p.attempt, p.ask, p.results, p.intents, {}, {}))
    decreases |c.phase.intents| - c.phase.done
  {
    var p := c.phase;
    var ws := J.IntentWrites(p.run, TailIntents(p), p.results);
    var intent := p.intents[p.done];
    var w := J.IntentWrite(p.run, intent, p.results);
    assert TailIntents(p)[0] == intent;
    R.CommitTwo(c.s, w, w);
    var f := Next(c, Intend);
    FollowsOne(c, Intend);
    assert Writes(c, Intend) == [w];
    assert f.s == Commit(c.s, w);
    if p.done + 1 == |p.intents| {
      assert ws == [w];
      assert Repeat(Intend, 1) == [Intend];
      d := f;
    } else {
      var rest := J.IntentWrites(p.run, TailIntents(f.phase), p.results);
      d := CanIntend(f);
      assert ws == [w] + rest;
      FollowsConcat(c, [Intend], f, [w], Repeat(Intend, |rest|), d, rest);
      CommitAllConcat(c.s, [w], rest);
    }
  }

  function TickEvents(trace: seq<Tick>): (es: seq<Event>)
    ensures |es| == |trace|
  {
    seq(|trace|, i requires 0 <= i < |trace| => if trace[i].Began? then Begin(trace[i].i) else End(trace[i].i))
  }

  function BegunIn(trace: seq<Tick>): set<nat> {
    if trace == [] then {}
    else BegunIn(trace[..|trace| - 1]) + (if trace[|trace| - 1].Began? then {trace[|trace| - 1].i} else {})
  }

  function EndedIn(trace: seq<Tick>): set<nat> {
    if trace == [] then {}
    else EndedIn(trace[..|trace| - 1]) + (if trace[|trace| - 1].Ended? then {trace[|trace| - 1].i} else {})
  }

  lemma {:induction false} BegunInMeaning(trace: seq<Tick>, i: nat)
    ensures i in BegunIn(trace) <==> exists k :: 0 <= k < |trace| && trace[k] == Began(i)
    ensures i in EndedIn(trace) <==> exists k :: 0 <= k < |trace| && trace[k] == Ended(i)
  {
    if trace != [] {
      var init := trace[..|trace| - 1];
      BegunInMeaning(init, i);
      if k :| 0 <= k < |init| && init[k] == Began(i) {
        assert trace[k] == Began(i);
      }
      if k :| 0 <= k < |init| && init[k] == Ended(i) {
        assert trace[k] == Ended(i);
      }
      if k :| 0 <= k < |trace| && trace[k] == Began(i) && k < |init| {
        assert init[k] == Began(i);
      }
      if k :| 0 <= k < |trace| && trace[k] == Ended(i) && k < |init| {
        assert init[k] == Ended(i);
      }
      assert trace[|trace| - 1] == Began(i) ==> i in BegunIn(trace);
      assert trace[|trace| - 1] == Ended(i) ==> i in EndedIn(trace);
    }
  }

  lemma NoTicks()
    ensures TickEvents([]) == [] && BegunIn([]) == {} && EndedIn([]) == {}
  {}

  lemma TickSnoc(trace: seq<Tick>, t: Tick)
    ensures TickEvents(trace + [t]) == TickEvents(trace) + [if t.Began? then Begin(t.i) else End(t.i)]
    ensures BegunIn(trace + [t]) == if t.Began? then BegunIn(trace) + {t.i} else BegunIn(trace)
    ensures EndedIn(trace + [t]) == if t.Ended? then EndedIn(trace) + {t.i} else EndedIn(trace)
  {
    assert (trace + [t])[..|trace|] == trace;
  }

  /** A prefix of a complete schedule runs under the protocol: nothing begins twice, nothing ends that
      did not begin. */
  lemma {:induction false} CanRun(c: Config, trace: seq<Tick>, n: nat, k: nat) returns (d: Config)
    requires c.phase.Executing? && c.phase.begun == {} && c.phase.ended == {} && |c.phase.intents| == n
    requires EachOnce(trace, 0, n) && k <= |trace|
    requires forall i :: 0 <= i < |trace| && trace[i].Ended? ==> exists b :: 0 <= b < i && trace[b] == Began(trace[i].i)
    ensures Follows(c, TickEvents(trace[..k]), d, [])
    ensures d.s == c.s && d.memory == c.memory && d.base == c.base
    ensures d.phase == c.phase.(begun := BegunIn(trace[..k]), ended := EndedIn(trace[..k]))
    ensures c.ran <= d.ran
    decreases k
  {
    hide EachOnce, Enabled, Next, Writes, Follows, BegunIn, EndedIn, TickEvents;
    if k == 0 {
      d := c;
      NoTicks();
      FollowsNothing(c);
      assert trace[..0] == [];
    } else {
      var f := CanRun(c, trace, n, k - 1);
      var t := trace[k - 1];
      TickSnoc(trace[..k - 1], t);
      assert trace[..k] == trace[..k - 1] + [t];
      var e := if t.Began? then Begin(t.i) else End(t.i);
      CanTick(f, trace, n, k, e);
      TickEffect(f, e);
      d := Next(f, e);
      FollowsOne(f, e);
      FollowsConcat(c, TickEvents(trace[..k - 1]), f, [], [e], d, []);
      var none: seq<Write> := [];
      assert none + none == none;
    }
  }

  lemma TickEffect(f: Config, e: Event)
    requires Enabled(f, e) && (e.Begin? || e.End?)
    ensures Writes(f, e) == []
    ensures var d := Next(f, e);
      && d.s == f.s && d.memory == f.memory && d.base == f.base && f.ran <= d.ran
      && d.phase == if e.Begin? then f.phase.(begun := f.phase.begun + {e.i}) else f.phase.(ended := f.phase.ended + {e.i})
  {
    assert CommitAll(f.s, []) == f.s;
  }

  lemma CanTick(f: Config, trace: seq<Tick>, n: nat, k: nat, e: Event)
    requires f.phase.Executing? && |f.phase.intents| == n && EachOnce(trace, 0, n) && 0 < k <= |trace|
    requires f.phase.begun == BegunIn(trace[..k - 1]) && f.phase.ended == EndedIn(trace[..k - 1])
    requires forall i :: 0 <= i < |trace| && trace[i].Ended? ==> exists b :: 0 <= b < i && trace[b] == Began(trace[i].i)
    requires e == if trace[k - 1].Began? then Begin(trace[k - 1].i) else End(trace[k - 1].i)
    ensures Enabled(f, e)
  {
    var t := trace[k - 1];
    var before := trace[..k - 1];
    BegunInMeaning(before, t.i);
    if t.Began? {
      assert forall j :: 0 <= j < |before| ==> before[j] == trace[j] && trace[j] != t;
    } else {
      assert forall j :: 0 <= j < |before| ==> before[j] == trace[j] && trace[j] != t;
      var b :| 0 <= b < k - 1 && trace[b] == Began(t.i);
      assert before[b] == Began(t.i);
    }
  }

  /** In a complete schedule an end is preceded by its begin. */
  lemma EndsFollowBegins(trace: seq<Tick>, n: nat)
    requires EachOnce(trace, 0, n)
    ensures forall i :: 0 <= i < |trace| && trace[i].Ended? ==> exists b :: 0 <= b < i && trace[b] == Began(trace[i].i)
  {
    forall i | 0 <= i < |trace| && trace[i].Ended?
      ensures exists b :: 0 <= b < i && trace[b] == Began(trace[i].i)
    {
      assert BeginsThenEnds(trace, trace[i].i);
      var b, e :| 0 <= b < e < |trace| && trace[b] == Began(trace[i].i) && trace[e] == Ended(trace[i].i);
      assert e == i;
    }
  }

  /** Running the whole batch: every call begins and ends. */
  lemma CanExecute(c: Config, trace: seq<Tick>) returns (d: Config)
    requires c.phase.Executing? && c.phase.begun == {} && c.phase.ended == {}
    requires EachOnce(trace, 0, |c.phase.intents|)
    ensures Follows(c, TickEvents(trace), d, [])
    ensures d.s == c.s && d.memory == c.memory && d.base == c.base && c.ran <= d.ran
    ensures d.phase.Executing? && d.phase == c.phase.(begun := d.phase.begun, ended := d.phase.ended)
    ensures forall i :: 0 <= i < |c.phase.intents| ==> i in d.phase.ended
  {
    EndsFollowBegins(trace, |c.phase.intents|);
    d := CanRun(c, trace, |c.phase.intents|, |trace|);
    assert trace[..|trace|] == trace;
    forall i | 0 <= i < |c.phase.intents|
      ensures i in d.phase.ended
    {
      assert BeginsThenEnds(trace, i);
      BegunInMeaning(trace, i);
    }
  }

  lemma CanLand(c: Config, m: Message) returns (d: Config)
    requires c.phase.Executing? && (forall i :: 0 <= i < |c.phase.intents| ==> i in c.phase.ended)
    requires AnswersExactly(m, Uses(c.phase.ask))
    ensures var w := PutEntry(Uuid(c.phase.results), m);
      Follows(c, [Results(m)], d, [w])
      && d == c.(s := Commit(c.s, w), phase := Turn(c.phase.run, c.phase.attempt),
                 memory := c.memory + [c.phase.ask, m])
  {
    hide AnswersExactly, Uses;
    var w := PutEntry(Uuid(c.phase.results), m);
    R.CommitTwo(c.s, w, w);
    d := Next(c, Results(m));
    FollowsOne(c, Results(m));
  }

  lemma CanFinish(c: Config, outcome: Outcome) returns (d: Config)
    requires Enabled(c, Finish(outcome))
    ensures var ws := R.FinishRun(c.phase.run, outcome) + [PutMeta];
      && Follows(c, [Finish(outcome), Unmark, Meta], d, ws)
      && d == Config(CommitAll(c.s, R.FinishRun(c.phase.run, outcome)), Ready,
                     NextMemory(c, Finish(outcome)), c.base, c.ran)
  {
    var fin := R.FinishRun(c.phase.run, outcome);
    R.CommitTwo(c.s, fin[0], fin[1]);
    var c1 := Next(c, Finish(outcome));
    FollowsOne(c, Finish(outcome));
    R.CommitTwo(c1.s, fin[1], fin[1]);
    var c2 := Next(c1, Unmark);
    FollowsOne(c1, Unmark);
    R.CommitTwo(c2.s, PutMeta, PutMeta);
    d := Next(c2, Meta);
    FollowsOne(c2, Meta);
    FollowsConcat(c, [Finish(outcome)], c1, [fin[0]], [Unmark], c2, [fin[1]]);
    FollowsConcat(c, [Finish(outcome)] + [Unmark], c2, [fin[0]] + [fin[1]], [Meta], d, [PutMeta]);
    assert [Finish(outcome)] + [Unmark] + [Meta] == [Finish(outcome), Unmark, Meta];
    assert [fin[0]] + [fin[1]] + [PutMeta] == fin + [PutMeta];
  }

  /** A whole batch: intents, tools, results. */
  lemma CanBatch(c: Config, results: nat, intents: seq<ToolIntent>, trace: seq<Tick>, m: Message)
    returns (d: Config, es: seq<Event>)
    requires c.phase.Replied? && Uses(c.phase.ask) != [] && Unseen(c.s, results) && IntentsFor(c.phase.ask, intents)
    requires EachOnce(trace, 0, |intents|) && AnswersExactly(m, Uses(c.phase.ask))
    ensures var iw := J.IntentWrites(c.phase.run, intents, results);
      && Follows(c, es, d, iw + [PutEntry(Uuid(results), m)])
      && d.s == Commit(CommitAll(c.s, iw), PutEntry(Uuid(results), m))
      && d.phase == Turn(c.phase.run, c.phase.attempt) && d.memory == c.memory + [c.phase.ask, m] && d.base == c.base
  {
    hide Follows, Unseen, EachOnce, AnswersExactly, Uses;
    var iw := J.IntentWrites(c.phase.run, intents, results);
    var w := PutEntry(Uuid(results), m);
    IntentsNotEmpty(c.phase.ask, intents);
    var c1 := CanProvision(c, results, intents);
    var c2 := CanIntend(c1);
    assert TailIntents(c1.phase) == intents;
    var c3 := CanExecute(c2, trace);
    d := CanLand(c3, m);
    var p, i, t := [Provision(results, intents)], Repeat(Intend, |iw|), TickEvents(trace);
    FollowsConcat(c, p, c1, [], i, c2, iw);
    FollowsConcat(c, p + i, c2, [] + iw, t, c3, []);
    FollowsConcat(c, p + i + t, c3, [] + iw + [], [Results(m)], d, [w]);
    assert [] + iw + [] + [w] == iw + [w];
    es := p + i + t + [Results(m)];
  }

  lemma IntentsNotEmpty(ask: Message, intents: seq<ToolIntent>)
    requires IntentsFor(ask, intents) && Uses(ask) != []
    ensures intents != []
  {}

  /** The process stands at the top of the loop, memory and rows in step. */
  ghost predicate AtTurn(c: Config, run: nat, attempt: nat, s: Session, memory: seq<Message>) {
    c.phase == Turn(run, attempt) && c.s == s && c.memory == memory
  }

  ghost predicate AtReply(c: Config, run: nat, attempt: nat, ask: Message, s: Session, memory: seq<Message>) {
    c.phase == Replied(run, attempt, ask) && c.s == s && c.memory == memory
  }

  /** The process can close the run with `outcome`, and its memory is then `memory`. */
  ghost predicate AtEnd(c: Config, run: nat, outcome: Outcome, s: Session, memory: seq<Message>) {
    Enabled(c, Finish(outcome)) && c.phase.run == run && c.s == s && NextMemory(c, Finish(outcome)) == memory
  }

  lemma StepKeepsFresh(s: Session, run: nat, attempt: nat, ids: seq<string>)
    requires FreshUses(s.records, run, ids)
    ensures FreshUses(Commit(s, PutRecord(StepId(run, attempt), run, StepAttempt(attempt))).records, run, ids)
  {
    var r := Record(StepId(run, attempt), run, s.nextSeq, StepAttempt(attempt));
    forall i | 0 <= i < |ids|
      ensures !HasRecord(Commit(s, PutRecord(r.id, run, r.payload)).records, ToolId(run, ids[i]))
    {
      Inv.HasRecordSnoc(s.records, r, ToolId(run, ids[i]));
    }
  }

  lemma StepAddsNoIntent(s: Session, run: nat, attempt: nat, use: string)
    ensures HasRecord(Commit(s, PutRecord(StepId(run, attempt), run, StepAttempt(attempt))).records, ToolId(run, use))
         == HasRecord(s.records, ToolId(run, use))
  {
    Inv.HasRecordSnoc(s.records, Record(StepId(run, attempt), run, s.nextSeq, StepAttempt(attempt)), ToolId(run, use));
  }
}
