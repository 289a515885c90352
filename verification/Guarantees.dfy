/** The durability guarantees of a run that may crash at any instant. */
module Guarantees {
  import opened Wrappers
  import opened Llm
  import opened Ids
  import opened Sessions
  import opened Recoveries
  import opened Protocols
  import opened Plays
  import opened Invariants
  import opened Safety
  import opened CrashSafety
  import opened Syntheses

  /** `open_run` never reports corruption, at any instant. */
  lemma NeverCorrupt(s: Session, from: nat, ran: set<(Id, string)>)
    requires Durable(s, from, ran)
    ensures Reduce(s).Ok?
  {
    ReduceMeaning(s);
  }

  /** The call `use` of batch `results` has its result on the path: the batch's entry answers exactly
      the calls of the assistant message just before it. */
  ghost predicate FullyAnswered(es: seq<Entry>, results: Id, use: string) {
    exists j: nat :: CompleteAt(es, j, results) && use in Uses(es[j - 1].message)
  }

  lemma AnsweredUse(s: Session, results: Id, use: string, j: nat)
    requires DistinctEntries(s.entries) && CompleteAt(s.entries, j, results)
    requires Recorded(s.records, results, use)
    requires forall i :: 0 <= i < |s.records| ==> Answered(s.entries, s.records[i])
    ensures use in Uses(s.entries[j - 1].message)
  {
    var i :| 0 <= i < |s.records| && s.records[i].payload.ToolStarted?
             && s.records[i].payload.resultsEntry == results && s.records[i].payload.intent.toolUseId == use;
    assert Answered(s.entries, s.records[i]);
    var k: nat :| AnsweredBy(s.entries, k, results, use);
    assert k == j;
  }

  /** No effect goes unanswered: after recovery, every tool that ever began executing has its result,
      in a batch that answers every call of its message. */
  lemma NoEffectUnanswered(s: Session, from: nat, ran: set<(Id, string)>, results: Id, use: string)
    requires Durable(s, from, ran) && (results, use) in ran
    ensures FullyAnswered(Recovered(s).entries, results, use)
  {
    hide Chain, ClosingOk;
    RecoverySettles(s, from, ran);
    var t := Recovered(s);
    assert WholeBatch(t, |t.records|, (results, use).0);
    var j: nat :| CompleteAt(t.entries, j, results);
    DistinctAfter(t);
    AnsweredUse(t, results, use, j);
  }

  lemma DistinctAfter(s: Session)
    requires Chain(s)
    ensures DistinctEntries(s.entries)
  {}

  /** What recovery appends after a crash that interrupted a batch: one entry, right behind the
      assistant message, that answers the recorded calls - a prefix, in request order, each once - with an
      error that says they were interrupted, and then the closing note. */
  lemma InterruptedBatchAnswered(s: Session, from: nat, ran: set<(Id, string)>)
    requires Durable(s, from, ran) && from < |s.records|
    ensures var t := Recovered(s);
      && |t.entries| == |s.entries| + 2
      && t.entries[..|s.entries|] == s.entries
      && t.entries[|s.entries|].id == s.records[from].payload.resultsEntry
      && |s.records| - from <= |LastUses(s.entries)|
      && AnswersExactly(t.entries[|s.entries|].message, LastUses(s.entries)[..|s.records| - from])
      && NoRepeats(LastUses(s.entries))
      && (forall k :: 0 <= k < |s.records| - from ==>
            t.entries[|s.entries|].message.content[k]
              == ToolResult(LastUses(s.entries)[k], "interrupted: bullpen exited before this tool finished", true))
      && t.entries[|s.entries| + 1].message
         == Message(Assistant, [Text("[this run was interrupted and recovered; state above may be incomplete]")])
  {
    hide Chain, EffectsOk, Answered;
    assert Pending(s, from);
    var run := s.records[from].run;
    PendingAreIntents(s, from);
    SynthesizedAnswers(s, from);
    FillStep(s, from, run, ran);
    var w := Synthesized(s, from)[0];
    var t := Commit(s, w);
    assert !NoneOpen(t.records);
    assert Plan(s)[1..] == Plan(t);
    assert EndsOnUser(t);
    CloseStep(t, run, ran);
    SettleFilled(t, run, ran);
  }

  /** What recovery appends when no intent is pending: nothing, or the closing note. */
  lemma NothingInterrupted(s: Session, ran: set<(Id, string)>)
    requires Durable(s, |s.records|, ran) && !NoneOpen(s.records)
    ensures MessagesOf(Recovered(s).entries)
         == Transcript(s) + (if EndsOnUser(s) then [CLOSING_NOTE] else [])
  {
    hide Chain, EffectsOk, Answered, ClosingOk;
    OpenChoice(s);
    var run: nat :| OnlyOpen(s.records, run);
    SettleFilled(s, run, ran);
    if EndsOnUser(s) {
      CloseStep(s, run, ran);
      TranscriptSnoc(s, ClosingId(run), CLOSING_NOTE);
    }
  }

  // ---------------------------------------------------------------- which crashes leave a paired run

  /** The window in which a crash leaves calls that nothing answers: from the assistant entry until
      the last intent is on disk. No tool of that batch has begun in it. */
  predicate InWindow(p: Phase) {
    (p.Replied? && Uses(p.ask) != []) || p.Recording?
  }

  lemma LastUnpaired(ms: seq<Message>, from: nat, i: nat)
    requires from <= i < |ms| && Uses(ms[i]) != []
    requires i + 1 < |ms| ==> !AnswersExactly(ms[i + 1], Uses(ms[i]))
    ensures !PairedFrom(ms, from)
  {}

  /** Crash at any instant of any run, then recover: the run's part of the transcript pairs every call
      with exactly one result if and only if the crash was outside the window. */
  lemma PairedAfterCrash(c: Config)
    requires Inv(c)
    ensures PairedFrom(Transcript(Recovered(c.s)), c.base) <==> !InWindow(c.phase)
  {
    hide Chain, EffectsOk, Answered, ClosingOk;
    var p := c.phase;
    if p.Ready? || p.Finished? || p.Unmarked? {
      NoneOpenPlan(c.s);
      assert Transcript(Recovered(c.s)) == c.memory + [] == c.memory;
    } else if p.Executing? {
      ExecutingPaired(c);
    } else if p.Recording? {
      RecordingUnpaired(c);
    } else {
      NothingPendingPaired(c);
    }
  }

  lemma PhaseIsOpen(c: Config)
    requires Inv(c) && !(c.phase.Ready? || c.phase.Finished? || c.phase.Unmarked?)
    ensures !NoneOpen(c.s.records)
  {
    var i :| 0 <= i < |c.s.records| && OpenAt(c.s.records, i) && c.s.records[i].run == c.phase.run;
  }

  lemma NothingPendingPaired(c: Config)
    requires Inv(c) && !(c.phase.Ready? || c.phase.Finished? || c.phase.Unmarked?)
    requires !c.phase.Recording? && !c.phase.Executing?
    ensures PairedFrom(Transcript(Recovered(c.s)), c.base) <==> !InWindow(c.phase)
  {
    hide Durable, PairedFrom, OnlyOpen, Recovered;
    PhaseIsOpen(c);
    NothingInterrupted(c.s, c.ran);
    var ms := Transcript(Recovered(c.s));
    if c.phase.Replied? {
      LastIsAsk(c);
      assert ms == c.memory + [c.phase.ask];
      if Uses(c.phase.ask) == [] {
        PairedAppendOne(c.memory, c.base, c.phase.ask);
      } else {
        LastUnpaired(ms, c.base, |c.memory|);
      }
    } else {
      assert c.memory + [] == c.memory;
      PairedAppendOne(c.memory, c.base, CLOSING_NOTE);
    }
  }

  lemma AfterInterruption(s: Session, t: Session, memory: seq<Message>, ask: Message)
    requires Transcript(s) == memory + [ask]
    requires |t.entries| == |s.entries| + 2 && t.entries[..|s.entries|] == s.entries
    requires t.entries[|s.entries| + 1].message == CLOSING_NOTE
    ensures Transcript(t) == memory + [ask, t.entries[|s.entries|].message] + [CLOSING_NOTE]
  {
    var es, fs := s.entries, t.entries;
    assert |Transcript(s)| == |es| && |Transcript(t)| == |es| + 2;
    forall i | 0 <= i < |es|
      ensures Transcript(t)[i] == Transcript(s)[i]
    {
      assert fs[i] == fs[..|es|][i];
    }
  }

  lemma ExecutingPaired(c: Config)
    requires Inv(c) && c.phase.Executing?
    ensures PairedFrom(Transcript(Recovered(c.s)), c.base)
  {
    hide Durable, PairedFrom, OnlyOpen, AnswersExactly, Running, Recovered, AnswersIn, UsesIn, NoRepeats;
    InterruptedBatchAnswered(c.s, From(c), c.ran);
    LastIsAsk(c);
    var m := Recovered(c.s).entries[|c.s.entries|].message;
    AfterInterruption(c.s, Recovered(c.s), c.memory, c.phase.ask);
    assert Uses(c.phase.ask)[..|c.s.records| - From(c)] == Uses(c.phase.ask);
    PairedAppend(c.memory, c.base, c.phase.ask, m);
    NoteAsksNothing();
    PairedAppendOne(c.memory + [c.phase.ask, m], c.base, CLOSING_NOTE);
  }

  lemma NoteAsksNothing()
    ensures Uses(CLOSING_NOTE) == []
  {}

  lemma RecordingUnpaired(c: Config)
    requires Inv(c) && c.phase.Recording?
    ensures !PairedFrom(Transcript(Recovered(c.s)), c.base)
  {
    hide Durable, PairedFrom, OnlyOpen, Running, Recovered, AnswersIn;
    LastIsAsk(c);
    var ms := Transcript(Recovered(c.s));
    if c.phase.done == 0 {
      PhaseIsOpen(c);
      NothingInterrupted(c.s, c.ran);
      assert ms == c.memory + [c.phase.ask];
    } else {
      InterruptedBatchAnswered(c.s, From(c), c.ran);
      AfterInterruption(c.s, Recovered(c.s), c.memory, c.phase.ask);
      assert ms[|c.memory| + 1] == Recovered(c.s).entries[|c.s.entries|].message;
    }
    assert ms[|c.memory|] == c.phase.ask;
    LastUnpaired(ms, c.base, |c.memory|);
  }

  /** A cancelled or timed-out run can stop only where it awaits: inside the provider call or inside
      the tool batch. The next recovery then pairs every call of the run. */
  lemma CancelledRunsPair(c: Config)
    requires Inv(c) && (c.phase.Calling? || c.phase.Executing?)
    ensures PairedFrom(Transcript(Recovered(c.s)), c.base)
  {
    PairedAfterCrash(c);
  }

  lemma NotWhole(s: Session, from: nat, results: Id)
    requires !HasEntry(s.entries, results) && |s.records| - from < |LastUses(s.entries)|
    ensures !WholeBatch(s, from, results)
  {}

  /** In the window, nothing of the batch has run. */
  lemma NothingRanInWindow(c: Config, use: string)
    requires Inv(c) && c.phase.Recording?
    ensures (Uuid(c.phase.results), use) !in c.ran
  {
    LastIsAsk(c);
    NotWhole(c.s, From(c), Uuid(c.phase.results));
  }

  // ---------------------------------------------------------------- the whole story

  /** The store refines the memory: after every event of every run the durable path is the in-memory
      transcript plus the assistant message whose batch is not complete, if there is one; between runs
      the two are equal. */
  lemma StoreRefinesMemory(c: Config, es: seq<Event>, k: nat)
    requires Inv(c) && Play(Advance, c, es).Some? && k <= |es|
    ensures Play(Advance, c, es[..k]).Some?
    ensures var d := Play(Advance, c, es[..k]).value;
      && Transcript(d.s) == d.memory + Gap(d.phase)
      && |Gap(d.phase)| <= 1
      && (d.phase.Ready? || d.phase.Calling? ==> Transcript(d.s) == d.memory)
  {
    hide Advance, Durable, PhaseOk, PairedFrom;
    AlwaysInv(c, es, k);
    var d := Play(Advance, c, es[..k]).value;
    assert d.memory + [] == d.memory;
  }

  lemma SettledReads(s: Session, t: Session)
    requires SameRows(s, t)
    ensures s.entries == t.entries && s.records == t.records && Reduce(s) == Reduce(t)
  {
    ReduceReadsRecords(s, t);
  }

  /** Take any run of the protocol, kill it after any event, recover, kill the recovery any number of
      times at any of its transactions, and recover again. The rows are those of one uninterrupted
      recovery; nothing is open; nothing on the path was changed; every tool that ever began is
      answered; and the interrupted run is paired exactly when the crash missed the window. */
  lemma CrashAnywhere(c: Config, es: seq<Event>, k: nat, cuts: seq<nat>)
    requires Inv(c) && Play(Advance, c, es).Some? && k <= |es|
    ensures Play(Advance, c, es[..k]).Some?
    ensures var d := Play(Advance, c, es[..k]).value;
      var t := Recovered(Interrupted(d.s, cuts));
      && SameRows(t, Recovered(d.s))
      && Reduce(t) == Ok(None)
      && d.s.entries <= t.entries && d.s.records <= t.records
      && (forall p :: p in d.ran ==> FullyAnswered(t.entries, p.0, p.1))
      && (PairedFrom(Transcript(t), d.base) <==> !InWindow(d.phase))
  {
    hide Inv, Advance, Interrupted, Recovered, Durable, SameRows, FullyAnswered, InWindow, PairedFrom, Reduce;
    AlwaysInv(c, es, k);
    var d := Play(Advance, c, es[..k]).value;
    InvParts(d);
    RecoveryConverges(d.s, cuts);
    var t := Recovered(Interrupted(d.s, cuts));
    SettledReads(t, Recovered(d.s));
    RecoverySettles(d.s, From(d), d.ran);
    ReduceMeaning(t);
    forall p | p in d.ran
      ensures FullyAnswered(t.entries, p.0, p.1)
    {
      NoEffectUnanswered(d.s, From(d), d.ran, p.0, p.1);
    }
    PairedAfterCrash(d);
  }

  lemma InvParts(c: Config)
    requires Inv(c)
    ensures Durable(c.s, From(c), c.ran) && NamedRecords(c.s.records)
  {}

  // ---------------------------------------------------------------- where the guarantees end

  /** After recovery the path ends on a user message exactly when recovery had nothing to do and the
      path ended so already: a run that failed and was closed as failed is not recovered. */
  lemma EndsOnUserExactly(s: Session, from: nat, ran: set<(Id, string)>)
    requires Durable(s, from, ran)
    ensures EndsOnUser(Recovered(s)) <==> NoneOpen(s.records) && EndsOnUser(s)
  {
    RecoverySettles(s, from, ran);
    if NoneOpen(s.records) {
      NoneOpenPlan(s);
    } else {
      OpenChoice(s);
      var run: nat :| OnlyOpen(s.records, run);
      ReduceMeaning(s);
    }
  }

  /** A refused write does not end the process: `send` then closes the run as failed. The closed run is
      paired on disk exactly when no assistant message with calls was waiting for its batch. (A refused
      `run_started` returns before anything is closed, so `send` never closes in phases Opening and
      Opened; of those the statement says what a close would leave.) */
  lemma ClosedAfterRefusal(c: Config)
    requires Inv(c) && !(c.phase.Ready? || c.phase.Finished? || c.phase.Unmarked?)
    ensures var t := CommitAll(c.s, FinishRun(c.phase.run, Failed));
      && Recovered(t) == t
      && (PairedFrom(Transcript(t), c.base) <==> Gap(c.phase) == [] || Uses(Gap(c.phase)[0]) == [])
  {
    hide PairedFrom, Durable;
    var fin := FinishRun(c.phase.run, Failed);
    var t := CommitAll(c.s, fin);
    CommitTwo(c.s, fin[0], fin[1]);
    InvParts(c);
    FinishCloses(c.s, c.phase.run, Failed);
    ReduceReadsRecords(Commit(c.s, fin[0]), t);
    NoneOpenPlan(t);
    assert Transcript(t) == Transcript(c.s) == c.memory + Gap(c.phase);
    if Gap(c.phase) == [] {
      assert c.memory + [] == c.memory;
    } else if Uses(Gap(c.phase)[0]) == [] {
      PairedAppendOne(c.memory, c.base, Gap(c.phase)[0]);
    } else {
      LastUnpaired(Transcript(t), c.base, |c.memory|);
    }
  }

  /** Finishing a run twice, as `send` does when its completing call fails (`Agents.FinishCalls`): if the
      first call's record landed, its outcome sticks. */
  lemma FirstOutcomeSticks(s: Session, run: nat, first: Outcome, second: Outcome)
    ensures var t := CommitAll(s, FinishRun(run, first));
      CommitAll(t, FinishRun(run, second)) == t
  {
    var a, b := FinishRun(run, first), FinishRun(run, second);
    CommitTwo(s, a[0], a[1]);
    var u := Commit(s, a[0]);
    var t := Commit(u, a[1]);
    CommitTwo(t, b[0], b[1]);
    if !HasRecord(s.records, FinishId(run)) {
      assert u.records[|s.records|].id == FinishId(run);
    }
    assert HasRecord(t.records, FinishId(run));
  }

  /** Two calls with one id in a run share one intent record, so the second batch's results entry is
      provisioned by nobody and recovery cannot answer it: call ids must be distinct within a run. */
  lemma RepeatedCallIdLosesIntent(s: Session, run: nat, intent: ToolIntent, first: Id, second: Id)
    requires first != second && !HasRecord(s.records, ToolId(run, intent.toolUseId))
    requires forall i :: 0 <= i < |s.records| && s.records[i].payload.ToolStarted? ==> s.records[i].payload.resultsEntry != second
    ensures var t := CommitAll(s, [PutRecord(ToolId(run, intent.toolUseId), run, ToolStarted(intent, first)),
                                   PutRecord(ToolId(run, intent.toolUseId), run, ToolStarted(intent, second))]);
      Recorded(t.records, first, intent.toolUseId) && !Recorded(t.records, second, intent.toolUseId)
  {
    var w, v := PutRecord(ToolId(run, intent.toolUseId), run, ToolStarted(intent, first)),
                PutRecord(ToolId(run, intent.toolUseId), run, ToolStarted(intent, second));
    CommitTwo(s, w, v);
    var t := Commit(s, w);
    assert t.records[|s.records|].id == ToolId(run, intent.toolUseId);
    assert t.records[|s.records|].payload.resultsEntry == first;
    assert HasRecord(t.records, ToolId(run, intent.toolUseId));
  }
}
