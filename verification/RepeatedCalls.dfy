/** Provider call ids that are not new to their run: which intents `tool_batch` then records, and what a
    crash among the batch's tools leaves for recovery to answer (crates/harness/src/lib.rs `tool_batch`,
    crates/store/src/recovery.rs). */
module RepeatedCalls {
  import opened Wrappers
  import opened Llm
  import opened Ids
  import opened Sessions
  import opened Recoveries
  import opened Syntheses
  import opened Protocols
  import opened Plays
  import opened Invariants
  import opened Safety
  import opened CrashSafety
  import opened Guarantees
  import opened Endings
  import J = Journals
  import T = Traces

  function IntentsIn(rs: seq<Record>): (intents: seq<ToolIntent>)
    requires forall r :: r in rs ==> r.payload.ToolStarted?
    ensures |intents| == |rs| && forall i :: 0 <= i < |rs| ==> intents[i] == rs[i].payload.intent
  {
    if rs == [] then [] else IntentsIn(rs[..|rs| - 1]) + [rs[|rs| - 1].payload.intent]
  }

  /** Intent records of one batch, and of nothing else. */
  predicate OfBatch(rs: seq<Record>, run: nat, results: Id) {
    forall r :: r in rs ==> r.run == run && r.payload.ToolStarted? && r.payload.resultsEntry == results
  }

  lemma FreshSnoc(rs: seq<Record>, run: nat, ids: seq<string>, x: string)
    ensures FreshUses(rs, run, ids + [x]) <==> FreshUses(rs, run, ids) && x !in ids && !HasRecord(rs, ToolId(run, x))
  {
    hide HasRecord;
    var all := ids + [x];
    if FreshUses(rs, run, all) {
      forall i, j | 0 <= i < j < |ids|
        ensures ids[i] != ids[j]
      {
        assert all[i] == ids[i] && all[j] == ids[j];
      }
      forall i | 0 <= i < |ids|
        ensures ids[i] != x && !HasRecord(rs, ToolId(run, ids[i]))
      {
        assert all[i] == ids[i] && all[|ids|] == x;
      }
      assert all[|ids|] == x;
    }
  }

  /** What a batch of intents adds to the rows: records of that batch only, one for every intent whose id
      the run does not have yet. */
  ghost predicate Adds(s: Session, t: Session, run: nat, intents: seq<ToolIntent>, results: nat, tail: seq<Record>) {
    && t.entries == s.entries && t.records == s.records + tail
    && (forall use :: HasRecord(t.records, ToolId(run, use))
                 <==> HasRecord(s.records, ToolId(run, use)) || use in IdsOf(intents))
    && OfBatch(tail, run, Uuid(results)) && |tail| <= |intents|
    && (|tail| == |intents| <==> FreshUses(s.records, run, IdsOf(intents)))
    && (|tail| == |intents| ==> IntentsIn(tail) == intents)
    && (forall id :: OnlyOpen(s.records, id) ==> OnlyOpen(t.records, id))
  }

  lemma AddsNothing(s: Session, run: nat, results: nat)
    ensures Adds(s, s, run, [], results, [])
  {
    hide HasRecord, OnlyOpen;
    assert s.records + [] == s.records;
    NothingRepeated(s.records, run);
  }

  lemma AddsOne(s: Session, u: Session, run: nat, init: seq<ToolIntent>, last: ToolIntent, results: nat, tail: seq<Record>)
    returns (more: seq<Record>)
    requires Adds(s, u, run, init, results, tail)
    ensures Adds(s, Commit(u, J.IntentWrite(run, last, results)), run, init + [last], results, more)
  {
    hide HasRecord, FreshUses, OnlyOpen;
    var w := J.IntentWrite(run, last, results);
    assert IdsOf(init + [last]) == IdsOf(init) + [last.toolUseId];
    FreshSnoc(s.records, run, IdsOf(init), last.toolUseId);
    more := tail;
    if !HasRecord(u.records, w.id) {
      var r := Record(w.id, run, u.nextSeq, w.payload);
      BatchGrows(u, r, run, last.toolUseId);
      more := tail + [r];
      assert s.records + more == u.records + [r];
      assert more[..|tail|] == tail;
    }
  }

  lemma {:induction false} BatchAdds(s: Session, run: nat, intents: seq<ToolIntent>, results: nat)
    returns (tail: seq<Record>)
    ensures Adds(s, CommitAll(s, J.IntentWrites(run, intents, results)), run, intents, results, tail)
    decreases |intents|
  {
    hide Adds, CommitAll, Commit;
    var ws := J.IntentWrites(run, intents, results);
    if intents == [] {
      NothingCommitted(s);
      AddsNothing(s, run, results);
      tail := [];
    } else {
      var init, last := intents[..|intents| - 1], intents[|intents| - 1];
      assert init + [last] == intents;
      tail := BatchAdds(s, run, init, results);
      assert ws == J.IntentWrites(run, init, results) + [J.IntentWrite(run, last, results)];
      CommitAllSnoc(s, J.IntentWrites(run, init, results), J.IntentWrite(run, last, results));
      tail := AddsOne(s, CommitAll(s, J.IntentWrites(run, init, results)), run, init, last, results, tail);
    }
  }

  lemma NothingCommitted(s: Session)
    ensures CommitAll(s, []) == s
  {
  }

  lemma NothingRepeated(rs: seq<Record>, run: nat)
    ensures FreshUses(rs, run, [])
  {
  }

  lemma BatchGrows(u: Session, r: Record, run: nat, use: string)
    requires r.id == ToolId(run, use) && r.payload.ToolStarted?
    ensures forall other :: HasRecord(u.records + [r], ToolId(run, other))
                       <==> HasRecord(u.records, ToolId(run, other)) || other == use
    ensures forall id :: OnlyOpen(u.records, id) ==> OnlyOpen(u.records + [r], id)
  {
    hide OnlyOpen;
    NeutralRecord(u.records, r);
    forall other
      ensures HasRecord(u.records + [r], ToolId(run, other)) <==> HasRecord(u.records, ToolId(run, other)) || other == use
    {
      HasRecordSnoc(u.records, r, ToolId(run, other));
    }
  }

  /** The batch `results` behind the others, if it has any call. */
  function Behind(landed: seq<Batch>, results: Id, got: seq<ToolIntent>): seq<Batch> {
    if got == [] then landed else landed + [Batch(results, got)]
  }

  lemma AddToLast(landed: seq<Batch>, results: Id, got: seq<ToolIntent>, intent: ToolIntent, es: seq<Entry>)
    requires AllLanded(landed, es) && !HasEntry(es, results)
    ensures AddIntent(Behind(landed, results, got), results, intent) == Behind(landed, results, got + [intent])
  {
    AddBehind(landed, results, intent, es);
    hide AddIntent, AllLanded, HasEntry;
    assert [] + [intent] == [intent];
  }

  // Grouping: the landed batches, and behind them the one whose results are missing.
  lemma {:induction false} BatchBehind(rs: seq<Record>, tail: seq<Record>, run: nat, results: Id, es: seq<Entry>)
    requires forall i :: 0 <= i < |rs| ==> Answered(es, rs[i])
    requires OfBatch(tail, run, results) && !HasEntry(es, results)
    ensures Batches(RunRecords(rs + tail, run)) == Behind(Batches(RunRecords(rs, run)), results, IntentsIn(tail))
    decreases |tail|
  {
    hide Answered, HasEntry, Batches, RunRecords, AddIntent, Behind, AllLanded;
    if tail == [] {
      assert rs + tail == rs;
      BehindNothing(Batches(RunRecords(rs, run)), results);
    } else {
      var init, last := tail[..|tail| - 1], tail[|tail| - 1];
      assert last in tail && forall r :: r in init ==> r in tail;
      BatchBehind(rs, init, run, results, es);
      BatchesSnoc(rs + init, last, run);
      assert rs + tail == (rs + init) + [last];
      LandedBatches(rs, run, es);
      AddToLast(Batches(RunRecords(rs, run)), results, IntentsIn(init), last.payload.intent, es);
    }
  }

  lemma BehindNothing(landed: seq<Batch>, results: Id)
    ensures Behind(landed, results, []) == landed
  {
  }

  lemma BatchesSnoc(rs: seq<Record>, r: Record, run: nat)
    requires r.run == run && r.payload.ToolStarted?
    ensures Batches(RunRecords(rs + [r], run))
         == AddIntent(Batches(RunRecords(rs, run)), r.payload.resultsEntry, r.payload.intent)
  {
    hide AddIntent;
    assert (rs + [r])[..|rs|] == rs;
    var mine := RunRecords(rs, run) + [r];
    assert mine[..|mine| - 1] == RunRecords(rs, run);
  }

  lemma AnswersInterrupted(intents: seq<ToolIntent>)
    ensures AnswersIn(InterruptedResults(intents).content) == IdsOf(intents)
    ensures AnswersExactly(InterruptedResults(intents), IdsOf(intents))
  {
    AnswersOfResults(InterruptedResults(intents).content, IdsOf(intents));
  }

  /** What recovery puts behind rows whose last records are the batch's: the batch's results, as far as
      there are records for them, and the closing note. */
  lemma RecoveredBatch(s: Session, t: Session, tail: seq<Record>, run: nat, results: Id)
    requires forall i :: 0 <= i < |s.records| ==> Answered(s.entries, s.records[i])
    requires OfBatch(tail, run, results) && !HasEntry(s.entries, results) && results.Uuid?
    requires t.entries == s.entries && t.records == s.records + tail && OnlyOpen(t.records, run)
    ensures var es := Recovered(t).entries;
      && s.entries <= es
      && (forall j :: |s.entries| <= j < |es| && es[j].id == results ==>
            tail != [] && j == |s.entries| && es[j].message == InterruptedResults(IntentsIn(tail)))
      && (tail != [] ==> |es| > |s.entries| && es[|s.entries|].id == results
                         && es[|s.entries|].message == InterruptedResults(IntentsIn(tail)))
  {
    hide Answered, OnlyOpen, Batches, RunRecords, InterruptedResults;
    ReduceMeaning(t);
    var open := Reduce(t).value.value;
    assert open.records == RunRecords(t.records, run);
    BatchBehind(s.records, tail, run, results, s.entries);
    LandedBatches(s.records, run, s.entries);
    var landed := Batches(RunRecords(s.records, run));
    var missing := if tail == [] then [] else [Batch(results, IntentsIn(tail))];
    assert landed + [] == landed;
    FillSkips(landed, t, missing);
    assert Fill(Batches(open.records), t) == Fill(missing, t);
    RecoveredEntries(t, open);
    hide Reduce, Recovered;
    FilledOne(t, open, results, IntentsIn(tail), missing);
  }

  // The finish and the marker change no entry.
  lemma RecoveredEntries(t: Session, open: OpenRun)
    requires Reduce(t) == Ok(Some(open))
    ensures Recovered(t).entries == Closed(t, open).entries
  {
    RecoveredSplit(t, open);
    var u, fin := Closed(t, open), FinishRun(open.run, Aborted);
    CommitTwo(u, fin[0], fin[1]);
  }

  lemma FilledOne(t: Session, open: OpenRun, results: Id, intents: seq<ToolIntent>, missing: seq<Batch>)
    requires Fill(Batches(open.records), t) == Fill(missing, t)
    requires missing == [] || missing == [Batch(results, intents)]
    requires !HasEntry(t.entries, results) && results.Uuid?
    ensures var es := Closed(t, open).entries;
      && t.entries <= es
      && (forall j :: |t.entries| <= j < |es| && es[j].id == results ==>
            missing != [] && j == |t.entries| && es[j].message == InterruptedResults(intents))
      && (missing != [] ==> |es| > |t.entries| && es[|t.entries|].id == results
                            && es[|t.entries|].message == InterruptedResults(intents))
  {
    hide InterruptedResults, Batches;
    var w := PutEntry(results, InterruptedResults(intents));
    var u := if missing == [] then t else Commit(t, w);
    if missing != [] {
      assert missing[1..] == [];
      assert Fill([], Commit(t, w)) == [];
      assert Fill(missing, t) == [w];
    }
    One(t, w);
    assert Filled(t, open) == u;
    var note := PutEntry(ClosingId(open.run), CLOSING_NOTE);
    One(u, note);
  }

  /** A batch is answered by recovery exactly when its call ids are new to the run. The process has just
      put the reply `ask` on disk and `tool_batch` has returned, so its tools may begin; it crashes; then
      recovery answers every call of the reply if no call of it has a record in the run yet and no two of
      them share an id, and otherwise leaves the reply without its results. */
  lemma BatchAnsweredExactly(c: Config, id: nat, ask: Message, results: nat, intents: seq<ToolIntent>, use: string)
    requires Inv(c) && c.phase.Calling? && ask.role.Assistant? && use in Uses(ask) && IntentsFor(ask, intents)
    requires Unseen(c.s, id) && Unseen(Commit(c.s, PutEntry(Uuid(id), ask)), results)
    ensures var s := Commit(c.s, PutEntry(Uuid(id), ask));
      var t := CommitAll(s, J.IntentWrites(c.phase.run, intents, results));
      && (forall i :: 0 <= i < |intents| ==> HasRecord(t.records, ToolId(c.phase.run, intents[i].toolUseId)))
      && (FullyAnswered(Recovered(t).entries, Uuid(results), use) <==> FreshUses(c.s.records, c.phase.run, Uses(ask)))
  {
    hide Chain, EffectsOk, ClosingOk, Answered, OnlyOpen, UsesIn, AnswersIn, HasRecord, FreshUses, Recovered,
      InterruptedResults;
    var run := c.phase.run;
    var s := Commit(c.s, PutEntry(Uuid(id), ask));
    ReplyDurable(c, id, ask);
    assert IdsOf(intents) == Uses(ask);
    var tail := BatchAdds(s, run, intents, results);
    var t := CommitAll(s, J.IntentWrites(run, intents, results));
    assert !HasEntry(s.entries, Uuid(results)) by {
      forall i | 0 <= i < |s.entries|
        ensures s.entries[i].id != Uuid(results)
      {
        assert Base(s.entries[i].id) != results;
      }
    }
    RecoveredBatch(s, t, tail, run, Uuid(results));
    AnswersInterrupted(IntentsIn(tail));
    var es := Recovered(t).entries;
    forall j | 0 <= j < |s.entries|
      ensures es[j].id != Uuid(results)
    {
      assert es[j] == s.entries[j];
    }
    assert intents != [];
    if FreshUses(c.s.records, run, Uses(ask)) {
      assert es[|s.entries| - 1] == s.entries[|s.entries| - 1];
      assert CompleteAt(es, |s.entries|, Uuid(results));
    } else {
      forall j: nat
        ensures !CompleteAt(es, j, Uuid(results))
      {
      }
    }
  }

  // The reply is on disk: every intent so far is answered, and the reply ends the path.
  lemma ReplyDurable(c: Config, id: nat, ask: Message)
    requires Inv(c) && c.phase.Calling? && ask.role.Assistant? && Unseen(c.s, id)
    ensures var s := Commit(c.s, PutEntry(Uuid(id), ask));
      && (forall i :: 0 <= i < |s.records| ==> Answered(s.entries, s.records[i]))
      && s.records == c.s.records && OnlyOpen(s.records, c.phase.run)
      && s.entries != [] && s.entries[|s.entries| - 1].message == ask
  {
    hide Chain, EffectsOk, OnlyOpen, Answered;
    UnseenFresh(c.s, id);
    PlainEntry(c.s, Uuid(id), ask, c.ran);
  }
}
