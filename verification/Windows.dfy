/** Runs of the protocol that reach the states where a guarantee ends: the window in which a crash leaves
    calls unanswered, and a run in which a call id comes back (crates/harness/src/lib.rs `tool_batch`,
    ARCHITECTURE.md). */
module Windows {
  import opened Wrappers
  import opened Llm
  import opened Ids
  import opened Sessions
  import opened Recoveries
  import opened Protocols
  import opened Plays
  import opened Invariants
  import opened Safety
  import opened CrashSafety
  import opened Guarantees
  import opened Endings
  import opened RepeatedCalls
  import opened Schedulers
  import SR = SystemRuns
  import J = Journals
  import T = Traces

  predicate Talks(user: Message, ask: Message, intents: seq<ToolIntent>) {
    user.role.User? && ask.role.Assistant? && NoRepeats(Uses(ask)) && IntentsFor(ask, intents)
  }

  lemma {:induction false} Intending(c: Config, k: nat) returns (d: Config)
    requires c.phase.Recording? && c.phase.done + k < |c.phase.intents|
    ensures Play(Advance, c, T.Repeat(Intend, k)) == Some(d) && d.phase == c.phase.(done := c.phase.done + k)
    decreases k
  {
    hide CommitAll;
    if k == 0 {
      d := c;
    } else {
      var next := Next(c, Intend);
      d := Intending(next, k - 1);
      assert T.Repeat(Intend, k) == [Intend] + T.Repeat(Intend, k - 1);
      assert T.Repeat(Intend, k)[1..] == T.Repeat(Intend, k - 1);
    }
  }

  /** A prompt, a reply with calls, and `k` of its intents. */
  lemma Recorded(c: Config, user: Message, ask: Message, intents: seq<ToolIntent>, k: nat)
    returns (es: seq<Event>, d: Config)
    requires Inv(c) && c.phase.Ready? && Talks(user, ask, intents) && k < |Uses(ask)|
    ensures Play(Advance, c, es) == Some(d) && Inv(d)
    ensures d.phase.Recording? && d.phase.ask == ask && d.phase.done == k
  {
    hide Inv, Advance, Durable, UsesIn;
    var start, asked, c1 := SR.Answering(c, user, ask);
    var results := SR.Supply(c1.s);
    assert Unseen(c1.s, results);
    var c2 := T.CanProvision(c1, results, intents);
    d := Intending(c2, k);
    var a, b, e := [start] + asked, [Provision(results, intents)], T.Repeat(Intend, k);
    PlayConcat(Advance, c, a, c1, b);
    PlayConcat(Advance, c, a + b, c2, e);
    es := a + b + e;
    assert es[..|es|] == es;
    AlwaysInv(c, es, |es|);
  }

  /** The window is reached, from any idle session and by any reply with calls: a crash after `k` of its
      intents leaves the rows from which recovery answers the first `k` calls and no other, and the run's
      calls are not all paired. */
  lemma WindowReached(c: Config, user: Message, ask: Message, intents: seq<ToolIntent>, k: nat)
    returns (es: seq<Event>, d: Config)
    requires Inv(c) && c.phase.Ready? && Talks(user, ask, intents) && k < |Uses(ask)|
    ensures Play(Advance, c, es) == Some(d) && InWindow(d.phase) && d.phase.ask == ask
    ensures !PairedFrom(Transcript(Recovered(d.s)), d.base)
    ensures Transcript(d.s) == d.memory + [ask]
    ensures k == 0 ==> Recovered(d.s).entries == d.s.entries
    ensures k > 0 ==> var s, t := d.s, Recovered(d.s);
      |t.entries| == |s.entries| + 2 && t.entries[..|s.entries|] == s.entries
      && AnswersExactly(t.entries[|s.entries|].message, Uses(ask)[..k])
  {
    hide Inv, Advance, PairedFrom, Recovered, Durable;
    es, d := Recorded(c, user, ask, intents, k);
    PairedAfterCrash(d);
    WindowRows(d);
  }

  lemma WindowRows(c: Config)
    requires Inv(c) && c.phase.Recording?
    ensures Transcript(c.s) == c.memory + [c.phase.ask]
    ensures c.phase.done == 0 ==> Recovered(c.s).entries == c.s.entries
    ensures c.phase.done > 0 ==> var s, t := c.s, Recovered(c.s);
      |t.entries| == |s.entries| + 2 && t.entries[..|s.entries|] == s.entries
      && AnswersExactly(t.entries[|s.entries|].message, Uses(c.phase.ask)[..c.phase.done])
  {
    hide Durable, Recovered, AnswersExactly, PairedFrom, UsesIn;
    LastIsAsk(c);
    if c.phase.done == 0 {
      PhaseIsOpen(c);
      AskIsLast(c);
      assert From(c) == |c.s.records|;
      OpenNow(c);
      SettledAsk(c);
    } else {
      RecordedRows(c);
    }
  }

  lemma RecordedRows(c: Config)
    requires Inv(c) && c.phase.Recording? && c.phase.done > 0
    ensures var s, t := c.s, Recovered(c.s);
      |t.entries| == |s.entries| + 2 && t.entries[..|s.entries|] == s.entries
      && AnswersExactly(t.entries[|s.entries|].message, Uses(c.phase.ask)[..c.phase.done])
  {
    hide Durable, Recovered, AnswersExactly, PairedFrom, UsesIn;
    LastIsAsk(c);
    InterruptedBatchAnswered(c.s, From(c), c.ran);
  }

  lemma AskIsLast(c: Config)
    requires c.s.entries != [] && c.phase.Recording? && IntentsFor(c.phase.ask, c.phase.intents) && |c.phase.intents| > 0
    requires c.s.entries[|c.s.entries| - 1].message == c.phase.ask
    ensures !EndsOnUser(c.s)
  {
  }

  lemma OpenNow(c: Config)
    requires Inv(c) && c.phase.Recording?
    ensures OnlyOpen(c.s.records, c.phase.run)
  {
  }

  lemma SettledAsk(c: Config)
    requires Durable(c.s, |c.s.records|, c.ran) && c.phase.Recording? && OnlyOpen(c.s.records, c.phase.run)
    requires !EndsOnUser(c.s)
    ensures Recovered(c.s).entries == c.s.entries
  {
    hide Durable, Recovered, OnlyOpen;
    SettleFilled(c.s, c.phase.run, c.ran);
  }

  function IntentOf(use: string): ToolIntent {
    ToolIntent(use, "bash", JNull, false)
  }

  function CallOf(use: string): ContentBlock {
    ToolUse(use, "bash", JNull)
  }

  /** The smallest such crash: a new session, a reply with two calls, one intent on disk. Recovery answers
      the first call alone. */
  lemma TwoCallsOneAnswered(user: Message, a: string, b: string) returns (es: seq<Event>, d: Config)
    requires user.role.User? && a != b
    ensures Play(Advance, Config(EMPTY, Ready, [], 0, {}), es) == Some(d) && d.s.entries != []
    ensures !PairedFrom(Transcript(Recovered(d.s)), d.base)
    ensures var t := Recovered(d.s);
      |t.entries| == |d.s.entries| + 2 && AnswersExactly(t.entries[|d.s.entries|].message, [a])
      && t.entries[|d.s.entries| - 1].message == Message(Assistant, [CallOf(a), CallOf(b)])
  {
    hide Inv, Advance, PairedFrom, Recovered;
    FreshInv();
    var ask := Message(Assistant, [CallOf(a), CallOf(b)]);
    TwoUses(a, b);
    assert Uses(ask)[..1] == [a];
    es, d := WindowReached(Config(EMPTY, Ready, [], 0, {}), user, ask, [IntentOf(a), IntentOf(b)], 1);
    assert |Transcript(d.s)| == |d.memory| + 1 && Transcript(d.s)[|d.memory|] == ask;
    var t := Recovered(d.s);
    assert t.entries[|d.s.entries| - 1] == t.entries[..|d.s.entries|][|d.s.entries| - 1];
  }

  lemma TwoUses(a: string, b: string)
    ensures Uses(Message(Assistant, [CallOf(a), CallOf(b)])) == [a, b]
    ensures Uses(Message(Assistant, [CallOf(a)])) == [a]
  {
    var two, one := [CallOf(a), CallOf(b)], [CallOf(b)];
    assert two[1..] == one && one[1..] == [] && [CallOf(a)][1..] == [];
    assert UsesIn(one) == [b];
    assert UsesIn(two) == [a] + UsesIn(one);
    assert UsesIn([CallOf(a)]) == [a] + UsesIn([]);
  }

  // ---------------------------------------------------------------- a call id that comes back

  /** A call whose id has a record in the run already costs its whole reply the results. */
  lemma RecordedIdUnanswered(c: Config, id: nat, ask: Message, results: nat, intents: seq<ToolIntent>, again: string,
                             use: string)
    requires Inv(c) && c.phase.Calling? && ask.role.Assistant? && IntentsFor(ask, intents)
    requires again in Uses(ask) && HasRecord(c.s.records, ToolId(c.phase.run, again)) && use in Uses(ask)
    requires Unseen(c.s, id) && Unseen(Commit(c.s, PutEntry(Uuid(id), ask)), results)
    ensures var s := Commit(c.s, PutEntry(Uuid(id), ask));
      var t := CommitAll(s, J.IntentWrites(c.phase.run, intents, results));
      !FullyAnswered(Recovered(t).entries, Uuid(results), use)
  {
    hide Inv, Recovered, CommitAll, Commit, FullyAnswered, Unseen, UsesIn, HasRecord;
    BatchAnsweredExactly(c, id, ask, results, intents, use);
    NotFresh(c.s.records, c.phase.run, Uses(ask), again);
  }

  lemma NotFresh(rs: seq<Record>, run: nat, ids: seq<string>, again: string)
    requires again in ids && HasRecord(rs, ToolId(run, again))
    ensures !FreshUses(rs, run, ids)
  {
    var i :| 0 <= i < |ids| && ids[i] == again;
    assert HasRecord(rs, ToolId(run, ids[i]));
  }

  lemma OneCallSchedule()
    ensures EachOnce([Began(0), Ended(0)], 0, 1)
  {
    var trace := [Began(0), Ended(0)];
    assert trace[0] == Began(0) && trace[1] == Ended(0);
    assert BeginsThenEnds(trace, 0);
  }

  /** A run in which a call was answered and the provider is asked again. */
  lemma AskedAgain(c: Config, user: Message, use: string) returns (es: seq<Event>, d: Config)
    requires Inv(c) && c.phase.Ready? && user.role.User?
    ensures Play(Advance, c, es) == Some(d) && Inv(d) && d.phase.Calling?
    ensures HasRecord(d.s.records, ToolId(d.phase.run, use))
  {
    hide Inv, Advance, Durable, UsesIn, CommitAll, AnswersIn, Unseen, EachOnce, HasRecord;
    var ask, intents := Message(Assistant, [CallOf(use)]), [IntentOf(use)];
    TwoUses(use, use);
    var start, asked, c1 := SR.Answering(c, user, ask);
    var results := SR.Supply(c1.s);
    SupplyFree(c1.s, results);
    OneCallSchedule();
    var m := ToolResults([ToolResult(use, "", false)]);
    OneAnswer(use);
    var c2, batch := T.CanBatch(c1, results, intents, [Began(0), Ended(0)], m);
    d := T.CanStep(c2);
    var a := [start] + asked;
    PlayConcat(Advance, c, a, c1, batch);
    PlayConcat(Advance, c, a + batch, c2, [Step]);
    es := a + batch + [Step];
    assert es[..|es|] == es;
    AlwaysInv(c, es, |es|);
    IntentStays(c1.s, c1.phase.run, use, results, m, c2.s);
    J.HasRecordKept(c2.s, PutRecord(StepId(c2.phase.run, c2.phase.attempt + 1), c2.phase.run,
                                    StepAttempt(c2.phase.attempt + 1)), ToolId(d.phase.run, use));
  }

  lemma SupplyFree(s: Session, n: nat)
    requires SR.S.SupplyOk(s, n)
    ensures Unseen(s, n)
  {
    hide Unseen;
  }

  lemma OneAnswer(use: string)
    ensures AnswersExactly(ToolResults([ToolResult(use, "", false)]), [use])
  {
    AnswersOfResults([ToolResult(use, "", false)], [use]);
  }

  lemma IntentStays(s: Session, run: nat, use: string, results: nat, m: Message, t: Session)
    requires t == Commit(CommitAll(s, J.IntentWrites(run, [IntentOf(use)], results)), PutEntry(Uuid(results), m))
    ensures HasRecord(t.records, ToolId(run, use))
  {
    hide HasRecord, Commit;
    var w := J.IntentWrite(run, IntentOf(use), results);
    assert J.IntentWrites(run, [IntentOf(use)], results) == [w];
    assert CommitAll(Commit(s, w), [w][1..]) == Commit(s, w);
    J.PutRecordPresent(s, w.id, w.run, w.payload);
    J.HasRecordKept(Commit(s, w), PutEntry(Uuid(results), m), w.id);
  }

  /** So it happens: a new session, a call answered, and a second reply that repeats its id. Its tool may
      begin, for `tool_batch` has returned with a record for its id; a crash then loses its results. */
  lemma RepeatedIdLosesBatch(user: Message, use: string)
    returns (es: seq<Event>, c: Config, id: nat, results: nat)
    requires user.role.User?
    ensures Play(Advance, Config(EMPTY, Ready, [], 0, {}), es) == Some(c) && c.phase.Calling?
    ensures var ask := Message(Assistant, [CallOf(use)]);
      var s := Commit(c.s, PutEntry(Uuid(id), ask));
      var t := CommitAll(s, J.IntentWrites(c.phase.run, [IntentOf(use)], results));
      && HasRecord(t.records, ToolId(c.phase.run, use))
      && !FullyAnswered(Recovered(t).entries, Uuid(results), use)
  {
    hide Inv, Advance, Recovered, CommitAll, Commit, FullyAnswered, Unseen, UsesIn, HasRecord;
    FreshInv();
    es, c := AskedAgain(Config(EMPTY, Ready, [], 0, {}), user, use);
    var ask := Message(Assistant, [CallOf(use)]);
    TwoUses(use, use);
    id := SR.Supply(c.s);
    SupplyFree(c.s, id);
    results := SR.Supply(Commit(c.s, PutEntry(Uuid(id), ask)));
    SupplyFree(Commit(c.s, PutEntry(Uuid(id), ask)), results);
    assert [use][0] == use;
    RecordedIdUnanswered(c, id, ask, results, [IntentOf(use)], use, use);
    BatchAnsweredExactly(c, id, ask, results, [IntentOf(use)], use);
    assert [IntentOf(use)][0].toolUseId == use;
  }
}
