/** Recovery from what a crash leaves: its exact plan, its own crash points, and what the recovered
    transcript looks like. */
module CrashSafety {
  import opened Wrappers
  import opened Llm
  import opened Ids
  import opened Sessions
  import opened Recoveries
  import opened Syntheses
  import opened Protocols
  import opened Plays
  import opened Invariants
  import opened Safety

  // ---------------------------------------------------------------- which batches recovery finds

  function IntentsAt(rs: seq<Record>, from: nat, n: nat): (intents: seq<ToolIntent>)
    requires from <= n <= |rs|
    requires forall i :: from <= i < n ==> rs[i].payload.ToolStarted?
    ensures |intents| == n - from
    ensures forall i :: 0 <= i < n - from ==> intents[i] == rs[from + i].payload.intent
  {
    if from == n then [] else IntentsAt(rs, from, n - 1) + [rs[n - 1].payload.intent]
  }

  ghost predicate AllLanded(bs: seq<Batch>, es: seq<Entry>) {
    forall i :: 0 <= i < |bs| ==> HasEntry(es, bs[i].resultsEntry)
  }

  lemma {:induction false} AddLanded(bs: seq<Batch>, results: Id, intent: ToolIntent, es: seq<Entry>)
    requires AllLanded(bs, es) && HasEntry(es, results)
    ensures AllLanded(AddIntent(bs, results, intent), es)
  {
    if bs != [] && bs[0].resultsEntry != results {
      assert AllLanded(bs[1..], es);
      AddLanded(bs[1..], results, intent, es);
    }
  }

  lemma {:induction false} AddBehind(bs: seq<Batch>, results: Id, intent: ToolIntent, es: seq<Entry>)
    requires AllLanded(bs, es) && !HasEntry(es, results)
    ensures AddIntent(bs, results, intent) == bs + [Batch(results, [intent])]
    ensures forall got :: AddIntent(bs + [Batch(results, got)], results, intent) == bs + [Batch(results, got + [intent])]
  {
    if bs != [] {
      assert AllLanded(bs[1..], es);
      AddBehind(bs[1..], results, intent, es);
      assert bs == [bs[0]] + bs[1..];
      forall got
        ensures AddIntent(bs + [Batch(results, got)], results, intent) == bs + [Batch(results, got + [intent])]
      {
        assert (bs + [Batch(results, got)])[1..] == bs[1..] + [Batch(results, got)];
      }
    }
  }

  /** Batches whose intents are all answered have all landed. */
  lemma {:induction false} LandedBatches(rs: seq<Record>, run: nat, es: seq<Entry>)
    requires forall i :: 0 <= i < |rs| ==> Answered(es, rs[i])
    ensures AllLanded(Batches(RunRecords(rs, run)), es)
  {
    if rs != [] {
      var init, last := rs[..|rs| - 1], rs[|rs| - 1];
      LandedBatches(init, run, es);
      if last.run == run {
        var mine := RunRecords(init, run) + [last];
        assert mine[..|mine| - 1] == RunRecords(init, run);
        assert Answered(es, last);
        if last.payload.ToolStarted? {
          var j: nat :| AnsweredBy(es, j, last.payload.resultsEntry, last.payload.intent.toolUseId);
          AddLanded(Batches(RunRecords(init, run)), last.payload.resultsEntry, last.payload.intent, es);
        }
      } else {
        assert RunRecords(rs, run) == RunRecords(init, run) + [] == RunRecords(init, run);
      }
    }
  }

  lemma PendingIntent(s: Session, from: nat, i: nat)
    requires Suspended(s, from) && from <= i < |s.records|
    ensures i - from < |LastUses(s.entries)|
    ensures s.records[from].payload.ToolStarted? && !HasEntry(s.entries, s.records[from].payload.resultsEntry)
    ensures OnlyOpen(s.records, s.records[from].run)
    ensures IntentIs(s.records[i], s.records[from].run, s.records[from].payload.resultsEntry,
                     LastUses(s.entries)[i - from])
  {
    assert Pending(s, from);
  }

  /** The pending intents form one more batch, behind the landed ones. */
  lemma {:induction false} TailBatch(s: Session, from: nat, n: nat)
    requires Suspended(s, from) && from < n <= |s.records|
    requires forall i :: from <= i < n ==> s.records[i].payload.ToolStarted?
    ensures var r := s.records[from];
      Batches(RunRecords(s.records[..n], r.run)) ==
        Batches(RunRecords(s.records[..from], r.run))
        + [Batch(r.payload.resultsEntry, IntentsAt(s.records, from, n))]
  {
    hide Pending, OnlyOpen, Answered, AllLanded, HasEntry, LastUses;
    var r, rs := s.records[from], s.records;
    PendingIntent(s, from, n - 1);
    var init, last := rs[..n - 1], rs[n - 1];
    assert rs[..n][..n - 1] == init;
    assert RunRecords(rs[..n], r.run) == RunRecords(init, r.run) + [last];
    var mine := RunRecords(init, r.run) + [last];
    assert mine[..|mine| - 1] == RunRecords(init, r.run);
    var landed := Batches(RunRecords(rs[..from], r.run));
    LandedBatches(rs[..from], r.run, s.entries);
    AddBehind(landed, r.payload.resultsEntry, last.payload.intent, s.entries);
    if n - 1 == from {
      assert IntentsAt(rs, from, n) == [last.payload.intent];
    } else {
      TailBatch(s, from, n - 1);
    }
  }

  lemma {:induction false} FillSkips(bs: seq<Batch>, s: Session, tail: seq<Batch>)
    requires AllLanded(bs, s.entries)
    ensures Fill(bs + tail, s) == Fill(tail, s)
    decreases |bs|
  {
    if bs == [] {
      assert bs + tail == tail;
    } else {
      assert HasEntry(s.entries, bs[0].resultsEntry);
      assert AllLanded(bs[1..], s.entries);
      FillSkips(bs[1..], s, tail);
      assert (bs + tail)[1..] == bs[1..] + tail;
    }
  }

  lemma FillNone(s: Session)
    ensures Fill([], s) == []
  {}

  lemma FillOne(b: Batch, s: Session)
    requires !HasEntry(s.entries, b.resultsEntry)
    ensures Fill([b], s) == [PutEntry(b.resultsEntry, InterruptedResults(b.intents))]
  {
    var w := PutEntry(b.resultsEntry, InterruptedResults(b.intents));
    assert Fill([b][1..], Commit(s, w)) == [];
  }

  lemma AnsweredBefore(s: Session, from: nat)
    requires Suspended(s, from)
    ensures from <= |s.records|
    ensures forall i :: 0 <= i < from ==> Answered(s.entries, s.records[..from][i])
  {}

  /** The synthesized entry for the interrupted batch, if there is one. */
  function Synthesized(s: Session, from: nat): seq<Write>
    requires from <= |s.records|
    requires forall i :: from <= i < |s.records| ==> s.records[i].payload.ToolStarted?
  {
    if from == |s.records| then []
    else [PutEntry(s.records[from].payload.resultsEntry,
                   InterruptedResults(IntentsAt(s.records, from, |s.records|)))]
  }

  lemma PendingAreIntents(s: Session, from: nat)
    requires Suspended(s, from)
    ensures forall i :: from <= i < |s.records| ==> s.records[i].payload.ToolStarted?
  {
    if from < |s.records| {
      var r := s.records[from];
      assert forall i :: from <= i < |s.records| ==>
        IntentIs(s.records[i], r.run, r.payload.resultsEntry, LastUses(s.entries)[i - from]);
    }
  }

  /** Recovery's plan on any state a crash can leave: at most one synthesized entry, at most one
      closing entry, and the finish. */
  lemma PlanShape(s: Session, from: nat, run: nat)
    requires Suspended(s, from) && OnlyOpen(s.records, run)
    requires forall i :: from <= i < |s.records| ==> s.records[i].payload.ToolStarted?
    ensures Plan(s) == Synthesized(s, from) + Close(CommitAll(s, Synthesized(s, from)), run) + FinishRun(run, Aborted)
  {
    hide Suspended, OnlyOpen, Fill, Batches, RunRecords;
    ReduceMeaning(s);
    var open := Reduce(s).value.value;
    assert open.records == RunRecords(s.records, run);
    AnsweredBefore(s, from);
    LandedBatches(s.records[..from], run, s.entries);
    var landed := Batches(RunRecords(s.records[..from], run));
    assert s.records[..|s.records|] == s.records;
    if from == |s.records| {
      FillSkips(landed, s, []);
      FillNone(s);
      assert landed + [] == landed;
    } else {
      OnlyOne(s.records, run);
      PendingIntent(s, from, from);
      TailBatch(s, from, |s.records|);
      var b := Batch(s.records[from].payload.resultsEntry, IntentsAt(s.records, from, |s.records|));
      FillSkips(landed, s, [b]);
      FillOne(b, s);
    }
  }

  lemma SynthesizedAnswers(s: Session, from: nat)
    requires Suspended(s, from) && from < |s.records|
    requires forall i :: from <= i < |s.records| ==> s.records[i].payload.ToolStarted?
    ensures |s.records| - from <= |LastUses(s.entries)|
    ensures AnswersExactly(Synthesized(s, from)[0].message, LastUses(s.entries)[..|s.records| - from])
    ensures SaysInterrupted(Synthesized(s, from)[0].message, LastUses(s.entries)[..|s.records| - from])
  {
    assert Pending(s, from);
    var m := Synthesized(s, from)[0].message;
    var ids := LastUses(s.entries)[..|s.records| - from];
    forall i | 0 <= i < |m.content|
      ensures m.content[i] == ToolResult(ids[i], "interrupted: bullpen exited before this tool finished", true)
    {
      assert IntentIs(s.records[from + i], s.records[from].run, s.records[from].payload.resultsEntry,
                      LastUses(s.entries)[i]);
    }
    AnswersOfResults(m.content, ids);
  }

  // ---------------------------------------------------------------- crash points of recovery itself

  /** Recovery under way: `plan` is what it has left to commit. */
  ghost predicate Resuming(s: Session, plan: seq<Write>, from: nat, ran: set<(Id, string)>) {
    && Durable(s, from, ran)
    && (plan == Plan(s)
        || (NoneOpen(s.records) && (plan == [] || exists run: nat :: plan == [ClearMarker(run)])))
  }

  lemma NoneOpenPlan(s: Session)
    requires NoneOpen(s.records)
    ensures Plan(s) == []
  {
    ReduceMeaning(s);
  }

  lemma OpenChoice(s: Session)
    requires AtMostOneOpen(s.records) && !NoneOpen(s.records)
    ensures exists run: nat :: OnlyOpen(s.records, run)
  {
    var i :| 0 <= i < |s.records| && OpenAt(s.records, i);
    assert OnlyOpen(s.records, s.records[i].run);
  }

  lemma PlanAfterFill(s: Session, from: nat, run: nat, t: Session)
    requires Suspended(s, from) && OnlyOpen(s.records, run) && from < |s.records|
    requires forall i :: from <= i < |s.records| ==> s.records[i].payload.ToolStarted?
    requires t == Commit(s, Synthesized(s, from)[0]) && Suspended(t, |t.records|)
    ensures Plan(s) == [Synthesized(s, from)[0]] + Plan(t)
  {
    hide Suspended, OnlyOpen;
    PlanShape(s, from, run);
    One(s, Synthesized(s, from)[0]);
    assert t.records == s.records;
    PlanShape(t, |t.records|, run);
    assert Synthesized(t, |t.records|) == [];
    assert CommitAll(t, []) == t;
    assert Plan(t) == Close(t, run) + FinishRun(run, Aborted);
  }

  /** The synthesized entry lands. */
  lemma FillStep(s: Session, from: nat, run: nat, ran: set<(Id, string)>)
    requires Durable(s, from, ran) && OnlyOpen(s.records, run) && from < |s.records|
    requires forall i :: from <= i < |s.records| ==> s.records[i].payload.ToolStarted?
    ensures Plan(s) != [] && Plan(s)[0] == Synthesized(s, from)[0]
    ensures Resuming(Commit(s, Plan(s)[0]), Plan(s)[1..], |s.records|, ran)
  {
    hide Chain, EffectsOk, ClosingOk, Pending, Answered, OnlyOpen, Plan, AnswersExactly;
    SynthesizedAnswers(s, from);
    var w := Synthesized(s, from)[0];
    BatchLands(s, from, w.message, ran);
    assert w.id == s.records[from].payload.resultsEntry;
    PlanAfterFill(s, from, run, Commit(s, w));
  }

  /** The closing entry lands; it is new, and it ends the path on an assistant message. */
  lemma CloseStep(s: Session, run: nat, ran: set<(Id, string)>)
    requires Durable(s, |s.records|, ran) && OnlyOpen(s.records, run) && EndsOnUser(s)
    ensures Plan(s) != [] && Plan(s)[0] == PutEntry(ClosingId(run), CLOSING_NOTE)
    ensures Resuming(Commit(s, Plan(s)[0]), Plan(s)[1..], |s.records|, ran)
    ensures !HasEntry(s.entries, ClosingId(run))
  {
    hide Chain, EffectsOk;
    PlanShape(s, |s.records|, run);
    var w := PutEntry(ClosingId(run), CLOSING_NOTE);
    assert Plan(s) == [w] + FinishRun(run, Aborted);
    OnlyOne(s.records, run);
    PlainEntry(s, ClosingId(run), CLOSING_NOTE, ran);
    var t := Commit(s, w);
    PlanShape(t, |t.records|, run);
    assert !EndsOnUser(t);
    assert Plan(t) == FinishRun(run, Aborted);
  }

  /** The finish record lands. */
  lemma FinishStep(s: Session, run: nat, ran: set<(Id, string)>)
    requires Durable(s, |s.records|, ran) && OnlyOpen(s.records, run) && !EndsOnUser(s)
    ensures Plan(s) == FinishRun(run, Aborted)
    ensures Resuming(Commit(s, Plan(s)[0]), Plan(s)[1..], |Commit(s, Plan(s)[0]).records|, ran)
    ensures NoneOpen(Commit(s, Plan(s)[0]).records)
  {
    hide Chain, EffectsOk;
    PlanShape(s, |s.records|, run);
    FinishCloses(s, run, Aborted);
    PlainRecord(s, FinishRun(run, Aborted)[0], ran);
  }

  /** Whatever recovery commits next, a crash right after it leaves rows recovery can take up again. */
  lemma RecoveryStep(s: Session, plan: seq<Write>, from: nat, ran: set<(Id, string)>) returns (next: nat)
    requires Resuming(s, plan, from, ran) && plan != []
    ensures Resuming(Commit(s, plan[0]), plan[1..], next, ran)
    ensures s.entries <= Commit(s, plan[0]).entries && s.records <= Commit(s, plan[0]).records
  {
    hide Chain, EffectsOk, ClosingOk, NamedRecords, OnlyOpen;
    if NoneOpen(s.records) {
      NoneOpenPlan(s);
      var run: nat :| plan == [ClearMarker(run)];
      var t := Commit(s, plan[0]);
      assert t == s.(marker := t.marker);
      MarkerKeeps(s, t.marker, from, ran);
      next := from;
    } else {
      OpenChoice(s);
      var run: nat :| OnlyOpen(s.records, run);
      PendingAreIntents(s, from);
      if from < |s.records| {
        FillStep(s, from, run, ran);
        next := |s.records|;
      } else if EndsOnUser(s) {
        CloseStep(s, run, ran);
        next := |s.records|;
      } else {
        FinishStep(s, run, ran);
        next := |Commit(s, plan[0]).records|;
      }
    }
  }

  // ---------------------------------------------------------------- what recovery ends with

  /** From any state a crash can leave, an uninterrupted recovery reaches a state with nothing open
      and nothing pending; if it had work to do, the path is empty or ends on an assistant message. */
  lemma RecoverySettles(s: Session, from: nat, ran: set<(Id, string)>)
    requires Durable(s, from, ran)
    ensures var t := Recovered(s);
      && Durable(t, |t.records|, ran) && NoneOpen(t.records)
      && s.entries <= t.entries && s.records <= t.records
      && (Plan(s) != [] ==> !EndsOnUser(t))
  {
    if NoneOpen(s.records) {
      NoneOpenPlan(s);
      NothingPending(s, from);
    } else {
      OpenChoice(s);
      var run: nat :| OnlyOpen(s.records, run);
      PendingAreIntents(s, from);
      if from < |s.records| {
        FillStep(s, from, run, ran);
        var t := Commit(s, Plan(s)[0]);
        SettleFilled(t, run, ran);
        FillKeepsEntries(s, Plan(s)[0]);
        assert Plan(s)[1..] == Plan(t) by { assert !NoneOpen(t.records); }
      } else {
        SettleFilled(s, run, ran);
      }
    }
  }

  lemma FillKeepsEntries(s: Session, w: Write)
    requires w.PutEntry?
    ensures s.entries <= Commit(s, w).entries && s.records == Commit(s, w).records
  {}

  lemma NothingPending(s: Session, from: nat)
    requires Suspended(s, from) && NoneOpen(s.records)
    ensures from == |s.records|
  {}

  lemma SettleFilled(s: Session, run: nat, ran: set<(Id, string)>)
    requires Durable(s, |s.records|, ran) && OnlyOpen(s.records, run)
    ensures var t := Recovered(s);
      && Durable(t, |t.records|, ran) && NoneOpen(t.records) && !EndsOnUser(t)
      && s.records <= t.records
      && t.entries == (if EndsOnUser(s) then Commit(s, PutEntry(ClosingId(run), CLOSING_NOTE)).entries else s.entries)
  {
    hide Chain, EffectsOk;
    if EndsOnUser(s) {
      CloseStep(s, run, ran);
      var t := Commit(s, Plan(s)[0]);
      assert OnlyOpen(t.records, run);
      assert Plan(s)[1..] == Plan(t) by { assert !NoneOpen(t.records); }
      SettleClosed(t, run, ran);
    } else {
      SettleClosed(s, run, ran);
    }
  }

  lemma SettleClosed(s: Session, run: nat, ran: set<(Id, string)>)
    requires Durable(s, |s.records|, ran) && OnlyOpen(s.records, run) && !EndsOnUser(s)
    ensures var t := Recovered(s);
      && Durable(t, |t.records|, ran) && NoneOpen(t.records) && t.entries == s.entries && s.records <= t.records
  {
    hide Chain, EffectsOk;
    FinishStep(s, run, ran);
    var t := Commit(s, Plan(s)[0]);
    CommitTwo(s, Plan(s)[0], Plan(s)[1]);
    var u := Commit(t, Plan(s)[1]);
    assert u == t.(marker := u.marker);
    MarkerKeeps(t, u.marker, |t.records|, ran);
  }
}
