/** `StoreJournal` (crates/harness/src/lib.rs): the agent's durability hooks over the store. */
module Journals {
  import opened Wrappers
  import opened Llm
  import opened Ids
  import opened Sessions
  import opened Protocols
  import opened Stores
  import opened Recoveries

  datatype JournalError = NotStarted | NoPendingBatch | Refused(error: StoreError)

  /** The intent record of one call of a batch. */
  function IntentWrite(run: nat, intent: ToolIntent, results: nat): Write {
    PutRecord(ToolId(run, intent.toolUseId), run, ToolStarted(intent, Uuid(results)))
  }

  function IntentWrites(run: nat, intents: seq<ToolIntent>, results: nat): (ws: seq<Write>)
    ensures |ws| == |intents|
    ensures forall i :: 0 <= i < |ws| ==> ws[i] == IntentWrite(run, intents[i], results)
  {
    seq(|intents|, i requires 0 <= i < |intents| => IntentWrite(run, intents[i], results))
  }

  lemma HasRecordKept(s: Session, w: Write, id: Id)
    requires HasRecord(s.records, id)
    ensures HasRecord(Commit(s, w).records, id)
  {
    var i :| 0 <= i < |s.records| && s.records[i].id == id;
    assert Commit(s, w).records[i].id == id;
  }

  lemma PutRecordPresent(s: Session, id: Id, run: nat, payload: Payload)
    ensures HasRecord(Commit(s, PutRecord(id, run, payload)).records, id)
  {
    if !HasRecord(s.records, id) {
      var t := Commit(s, PutRecord(id, run, payload));
      assert t.records[|s.records|].id == id;
    }
  }

  /** At most a run was opened. */
  predicate OpenedOnly(before: seq<Record>, after: seq<Record>) {
    before <= after && |after| <= |before| + 1
    && forall i :: |before| <= i < |after| ==> after[i].payload.OperationStarted?
  }

  class StoreJournal {
    const store: Store
    var runId: Option<nat>
    var pendingResults: Option<nat>
    /** How often `run_finished` was called. */
    ghost var finishes: nat

    ghost predicate Valid()
      reads this, store
    {
      && store.Valid()
      && (runId.Some? ==> runId.value < store.uuids)
      && (pendingResults.Some? ==> pendingResults.value < store.uuids)
    }

    constructor (store: Store)
      requires store.Valid()
      ensures Valid() && this.store == store && runId == None && pendingResults == None && finishes == 0
    {
      this.store, runId, pendingResults, finishes := store, None, None, 0;
    }

    /** The write of one hook: committed and logged, or refused without effect. */
    twostate predicate Wrote(w: Write, ok: bool)
      reads this, store
    {
      && store.View() == (if ok then Commit(old(store.View()), w) else old(store.View()))
      && store.log == (if ok then old(store.log) + [w] else old(store.log))
      && store.refusals == (if ok then old(store.refusals) else old(store.refusals) + 1)
      && store.accesses == old(store.accesses) + 1 && ok == store.disk(old(store.accesses))
    }

    method RunStarted(user: Message) returns (r: Result<(), JournalError>)
      requires Valid()
      modifies this`runId, store
      ensures Valid() && pendingResults == old(pendingResults)
      ensures r.Ok? <==> Reduce(old(store.View())) == Ok(None) && store.Grants(old(store.accesses), 4)
      ensures r.Ok? ==> store.accesses == old(store.accesses) + 4
      ensures OpenedOnly(old(store.records), store.records)
      ensures match r
        case Ok(_) =>
          && runId.Some? && Reduce(old(store.View())) == Ok(None) && Unseen(old(store.View()), runId.value)
          && store.refusals == old(store.refusals)
          && var run := runId.value;
             var start, mark := PutRecord(Uuid(run), run, OperationStarted(old(store.leaf))), SetMarker(run);
             var marked := Commit(Commit(old(store.View()), start), mark);
             exists id: nat :: Unseen(marked, id) && store.View() == Commit(marked, PutEntry(Uuid(id), user))
               && store.log == old(store.log) + [start, mark, PutEntry(Uuid(id), user)]
        case Err(_) =>
          && runId == old(runId) && store.entries == old(store.entries) && old(store.records) <= store.records
          && (store.refusals > old(store.refusals)
              || (Reduce(old(store.View())) != Ok(None) && store.View() == old(store.View())
                  && store.refusals == old(store.refusals) && store.log == old(store.log)))
    {
      hide Chain, SupplyOk, Reduce, Unseen;
      var started := store.StartOperation();
      if started.Err? {
        return Err(Refused(started.error));
      }
      var run := started.value;
      CommitTwo(old(store.View()), PutRecord(Uuid(run), run, OperationStarted(old(store.leaf))), SetMarker(run));
      var id := store.Uuid();
      var put := store.AppendEntry(Uuid(id), user);
      if put.Err? {
        return Err(Refused(put.error));
      }
      runId := Some(run);
      r := Ok(());
    }

    /** A hook called before `run_started` is refused and does nothing. */
    twostate predicate Untouched()
      reads this, store
    {
      store.View() == old(store.View()) && store.log == old(store.log) && store.refusals == old(store.refusals)
      && runId == old(runId) && pendingResults == old(pendingResults)
    }

    method StepAttempt(attempt: nat) returns (r: Result<(), JournalError>)
      requires Valid()
      modifies store
      ensures Valid() && store.uuids == old(store.uuids)
      ensures runId.None? ==> r == Err(NotStarted) && Untouched()
      ensures runId.Some? ==> Wrote(PutRecord(StepId(runId.value, attempt), runId.value, Payload.StepAttempt(attempt)), r.Ok?)
    {
      hide Chain, SupplyOk;
      if runId.None? {
        return Err(NotStarted);
      }
      var put := store.AppendRecord(StepId(runId.value, attempt), runId.value, Payload.StepAttempt(attempt));
      r := if put.Ok? then Ok(()) else Err(Refused(put.error));
    }

    method AssistantMessage(message: Message) returns (r: Result<(), JournalError>)
      requires Valid()
      modifies store
      ensures Valid() && store.uuids >= old(store.uuids)
      ensures runId.None? ==> r == Err(NotStarted) && Untouched()
      ensures runId.Some? ==> exists id: nat :: Unseen(old(store.View()), id) && Wrote(PutEntry(Uuid(id), message), r.Ok?)
    {
      hide Chain, SupplyOk, Unseen;
      if runId.None? {
        return Err(NotStarted);
      }
      var id := store.Uuid();
      var put := store.AppendEntry(Uuid(id), message);
      r := if put.Ok? then Ok(()) else Err(Refused(put.error));
    }

    /** Every intent of the batch is on disk before this returns Ok; all name the one provisioned
        results entry. A refusal leaves the ones before it. */
    method ToolBatch(intents: seq<ToolIntent>) returns (r: Result<(), JournalError>, ghost results: nat)
      requires Valid()
      modifies this`pendingResults, store
      ensures Valid()
      ensures runId.None? ==> r == Err(NotStarted) && Untouched()
      ensures runId.Some? ==> Unseen(old(store.View()), results) && results < store.uuids
      ensures r.Ok? ==> runId.Some? && pendingResults == Some(results)
      ensures r.Err? ==> pendingResults == old(pendingResults)
      ensures runId.Some? ==> exists k: nat :: (
        k <= |intents| && (r.Ok? <==> k == |intents|)
        && store.View() == CommitAll(old(store.View()), IntentWrites(runId.value, intents, results)[..k])
        && store.log == old(store.log) + IntentWrites(runId.value, intents, results)[..k])
      ensures runId.Some? ==> store.refusals == if r.Ok? then old(store.refusals) else old(store.refusals) + 1
      ensures store.entries == old(store.entries) && old(store.records) <= store.records
      ensures r.Ok? ==> forall i :: 0 <= i < |intents| ==> HasRecord(store.records, ToolId(runId.value, intents[i].toolUseId))
    {
      hide Chain, SupplyOk, Unseen, HasRecord;
      if runId.None? {
        return Err(NotStarted), 0;
      }
      ghost var s0, log0 := store.View(), store.log;
      var drawn := store.Uuid();
      results := drawn;
      ghost var ws := IntentWrites(runId.value, intents, results);
      assert ws[..0] == [] && CommitAll(s0, []) == s0;
      for i := 0 to |intents|
        invariant Valid() && results < store.uuids && store.refusals == old(store.refusals)
        invariant pendingResults == old(pendingResults)
        invariant store.View() == CommitAll(s0, ws[..i]) && store.log == log0 + ws[..i]
        invariant store.entries == old(store.entries) && old(store.records) <= store.records
        invariant forall j :: 0 <= j < i ==> HasRecord(store.records, ToolId(runId.value, intents[j].toolUseId))
      {
        var intent := intents[i];
        ghost var before := store.View();
        var put := store.AppendRecord(ToolId(runId.value, intent.toolUseId), runId.value,
                                      ToolStarted(intent, Uuid(drawn)));
        if put.Err? {
          return Err(Refused(put.error)), results;
        }
        assert ws[..i + 1] == ws[..i] + [ws[i]];
        CommitAllSnoc(s0, ws[..i], ws[i]);
        PutRecordPresent(before, ws[i].id, ws[i].run, ws[i].payload);
        forall j | 0 <= j < i
          ensures HasRecord(store.records, ToolId(runId.value, intents[j].toolUseId))
        {
          HasRecordKept(before, ws[i], ToolId(runId.value, intents[j].toolUseId));
        }
      }
      assert ws[..|intents|] == ws;
      pendingResults := Some(drawn);
      r := Ok(());
    }

    /** The results land at the entry id the intents provisioned. */
    method ToolResults(results: Message) returns (r: Result<(), JournalError>)
      requires Valid()
      modifies this`pendingResults, store
      ensures Valid() && pendingResults == None && store.uuids == old(store.uuids)
      ensures old(pendingResults).None? ==> r == Err(NoPendingBatch) && store.View() == old(store.View())
      ensures old(pendingResults).Some? ==> Wrote(PutEntry(Uuid(old(pendingResults).value), results), r.Ok?)
    {
      hide Chain, SupplyOk;
      if pendingResults.None? {
        return Err(NoPendingBatch);
      }
      var id := pendingResults.value;
      pendingResults := None;
      var put := store.AppendEntry(Uuid(id), results);
      r := if put.Ok? then Ok(()) else Err(Refused(put.error));
    }

    /** The finish record, the marker, the usage and title. The run id is forgotten only once all three
        are through, so a failure at any of them lets the caller finish the run a second time. */
    method RunFinished(outcome: Outcome) returns (r: Result<(), JournalError>)
      requires Valid()
      modifies this`runId, this`finishes, store
      ensures Valid() && pendingResults == old(pendingResults) && finishes == old(finishes) + 1
      ensures old(runId).Some? ==> (r.Ok? <==> store.Grants(old(store.accesses), 4))
      ensures store.entries == old(store.entries) && old(store.records) <= store.records
      ensures old(runId).None? ==> r == Err(NotStarted) && Untouched()
      ensures old(runId).Some? ==> store.refusals == if r.Ok? then old(store.refusals) else old(store.refusals) + 1
      ensures runId == if r.Ok? then None else old(runId)
      ensures old(runId).Some? ==> FinishOnly(old(store.records), store.records, old(runId).value, outcome)
      ensures r.Ok? ==>
        && old(runId).Some?
        && store.View() == CommitAll(old(store.View()), FinishRun(old(runId).value, outcome))
        && store.log == old(store.log) + FinishRun(old(runId).value, outcome) + [PutMeta]
        && HasRecord(store.records, FinishId(old(runId).value))
    {
      hide Chain, SupplyOk, MessagesOf, FinishOnly, HasRecord;
      finishes := finishes + 1;
      if runId.None? {
        return Err(NotStarted);
      }
      ghost var s0, log0 := store.View(), store.log;
      var run := runId.value;
      var finished := store.FinishOperation(run, outcome);
      if finished.Err? {
        return Err(Refused(finished.error));
      }
      assert FinishRun(run, outcome)[..2] == FinishRun(run, outcome);
      var path := store.PathMessages();
      if path.Err? {
        return Err(Refused(path.error));
      }
      var meta := store.UpdateMeta();
      if meta.Err? {
        return Err(Refused(meta.error));
      }
      CommitTwo(s0, FinishRun(run, outcome)[0], FinishRun(run, outcome)[1]);
      PutRecordPresent(s0, FinishId(run), run, OperationFinished(outcome));
      runId := None;
      r := Ok(());
    }
  }
}
