/** What crash recovery writes, told from the records alone: which entries it synthesizes, what each result
    in them says, and how many there are (crates/store/src/recovery.rs `recover`). */
module Syntheses {
  import opened Wrappers
  import opened Llm
  import opened Ids
  import opened Sessions
  import opened Recoveries

  /** The record is an intent of the run that provisions `results`. */
  predicate IntentFor(r: Record, run: nat, results: Id) {
    r.run == run && r.payload.ToolStarted? && r.payload.resultsEntry == results
  }

  /** The call ids of the run's intents that provision `results`, in record order. */
  function CallsFor(rs: seq<Record>, run: nat, results: Id): seq<string> {
    if rs == [] then []
    else CallsFor(rs[..|rs| - 1], run, results)
         + if IntentFor(rs[|rs| - 1], run, results) then [rs[|rs| - 1].payload.intent.toolUseId] else []
  }

  /** How many intents of the run provision an entry that is not there. */
  function Unlanded(rs: seq<Record>, run: nat, es: seq<Entry>): nat {
    if rs == [] then 0
    else
      var last := rs[|rs| - 1];
      Unlanded(rs[..|rs| - 1], run, es)
      + if last.run == run && last.payload.ToolStarted? && !HasEntry(es, last.payload.resultsEntry) then 1 else 0
  }

  /** An error result for each of the calls, and nothing else. */
  predicate SaysInterrupted(m: Message, ids: seq<string>) {
    && m.role.User? && |m.content| == |ids|
    && forall k :: 0 <= k < |ids| ==>
         m.content[k] == ToolResult(ids[k], "interrupted: bullpen exited before this tool finished", true)
  }

  predicate IsClosingNote(w: Write, run: nat) {
    && w.PutEntry? && w.id == ClosingId(run)
    && w.message.role.Assistant?
    && w.message.content == [Text("[this run was interrupted and recovered; state above may be incomplete]")]
  }

  /** The entry of a batch none of whose results landed. */
  predicate IsBatchResults(w: Write, s: Session, run: nat) {
    && w.PutEntry? && !HasEntry(s.entries, w.id)
    && CallsFor(s.records, run, w.id) != [] && SaysInterrupted(w.message, CallsFor(s.records, run, w.id))
  }

  // ---------------------------------------------------------------- grouping

  function IdsOf(intents: seq<ToolIntent>): (ids: seq<string>)
    ensures |ids| == |intents| && forall i :: 0 <= i < |ids| ==> ids[i] == intents[i].toolUseId
  {
    seq(|intents|, i requires 0 <= i < |intents| => intents[i].toolUseId)
  }

  /** The ids that one list of batches gives for a results entry: those of its batch, if it has one. */
  function Given(bs: seq<Batch>, results: Id): seq<string> {
    if bs == [] then []
    else if bs[0].resultsEntry == results then IdsOf(bs[0].intents)
    else Given(bs[1..], results)
  }

  ghost predicate Grouped(bs: seq<Batch>) {
    && (forall i, j :: 0 <= i < j < |bs| ==> bs[i].resultsEntry != bs[j].resultsEntry)
    && (forall i :: 0 <= i < |bs| ==> bs[i].intents != [])
  }

  lemma {:induction false} AddGroups(bs: seq<Batch>, results: Id, intent: ToolIntent)
    requires Grouped(bs)
    ensures var t := AddIntent(bs, results, intent);
      && Grouped(t)
      && (forall i :: 0 <= i < |t| ==> t[i].resultsEntry == results || exists j :: 0 <= j < |bs| && bs[j].resultsEntry == t[i].resultsEntry)
      && (forall other :: Given(t, other) == Given(bs, other) + if other == results then [intent.toolUseId] else [])
  {
    if bs != [] && bs[0].resultsEntry != results {
      AddGroups(bs[1..], results, intent);
      var t := AddIntent(bs[1..], results, intent);
      var all := AddIntent(bs, results, intent);
      assert all == [bs[0]] + t && all[1..] == t;
      forall i | 0 <= i < |t|
        ensures t[i].resultsEntry != bs[0].resultsEntry
        ensures t[i].resultsEntry == results || exists j :: 0 <= j < |bs| && bs[j].resultsEntry == t[i].resultsEntry
      {
        if t[i].resultsEntry != results {
          var j :| 0 <= j < |bs[1..]| && bs[1..][j].resultsEntry == t[i].resultsEntry;
          assert bs[j + 1].resultsEntry == t[i].resultsEntry;
        }
      }
    } else if bs != [] {
      var all := AddIntent(bs, results, intent);
      assert all[1..] == bs[1..];
      assert IdsOf(bs[0].intents + [intent]) == IdsOf(bs[0].intents) + [intent.toolUseId];
    } else {
      assert [Batch(results, [intent])][1..] == [];
      assert IdsOf([intent]) == [] + [intent.toolUseId];
    }
  }

  /** Grouping loses no intent, keeps their order, and makes one batch for each results entry. */
  lemma {:induction false} GroupingExact(rs: seq<Record>, run: nat)
    ensures Grouped(Batches(RunRecords(rs, run)))
    ensures forall results :: Given(Batches(RunRecords(rs, run)), results) == CallsFor(rs, run, results)
  {
    hide Grouped, AddIntent;
    if rs == [] {
      NothingGrouped();
    } else {
      var init, last := rs[..|rs| - 1], rs[|rs| - 1];
      GroupingExact(init, run);
      if last.run == run {
        var mine := RunRecords(init, run) + [last];
        assert mine[..|mine| - 1] == RunRecords(init, run);
        if last.payload.ToolStarted? {
          AddGroups(Batches(RunRecords(init, run)), last.payload.resultsEntry, last.payload.intent);
        }
      } else {
        assert RunRecords(rs, run) == RunRecords(init, run);
      }
    }
  }

  lemma NothingGrouped()
    ensures Grouped([])
  {
  }

  // ---------------------------------------------------------------- filling

  lemma {:induction false} GivenAt(bs: seq<Batch>, i: nat)
    requires Grouped(bs) && i < |bs|
    ensures Given(bs, bs[i].resultsEntry) == IdsOf(bs[i].intents)
  {
    if i > 0 {
      assert bs[1..][i - 1] == bs[i];
      GivenAt(bs[1..], i - 1);
    }
  }

  lemma {:induction false} GivenSome(bs: seq<Batch>, results: Id) returns (i: nat)
    requires Given(bs, results) != []
    ensures i < |bs| && bs[i].resultsEntry == results
  {
    if bs[0].resultsEntry == results {
      i := 0;
    } else {
      i := GivenSome(bs[1..], results);
      i := i + 1;
    }
  }

  lemma InterruptedSays(intents: seq<ToolIntent>)
    ensures SaysInterrupted(InterruptedResults(intents), IdsOf(intents))
  {
  }

  lemma HasEntryAfter(s: Session, w: Write, id: Id)
    requires w.PutEntry?
    ensures HasEntry(Commit(s, w).entries, id) <==> HasEntry(s.entries, id) || w.id == id
  {
    if HasEntry(s.entries, id) {
      HasEntryGrows(s, w, id);
    }
    if w.id == id {
      PutEntryPresent(s, id, w.message);
    }
  }

  /** A fill of one of the batches: its entry is not there yet, and the write answers its intents. */
  ghost predicate FillFor(bs: seq<Batch>, s: Session, w: Write) {
    exists i :: 0 <= i < |bs| && !HasEntry(s.entries, bs[i].resultsEntry)
             && w == PutEntry(bs[i].resultsEntry, InterruptedResults(bs[i].intents))
  }

  lemma {:induction false} FillsExactly(bs: seq<Batch>, s: Session)
    requires Grouped(bs)
    ensures forall w :: w in Fill(bs, s) <==> FillFor(bs, s, w)
    decreases |bs|
  {
    hide HasEntry, InterruptedResults, Commit;
    if bs != [] {
      var b := bs[0];
      var w := PutEntry(b.resultsEntry, InterruptedResults(b.intents));
      var t := if HasEntry(s.entries, b.resultsEntry) then s else Commit(s, w);
      FillsExactly(bs[1..], t);
      forall v
        ensures v in Fill(bs, s) <==> FillFor(bs, s, v)
      {
        HasEntryAfterAll(s, w, bs);
        if FillFor(bs, s, v) {
          var i :| 0 <= i < |bs| && !HasEntry(s.entries, bs[i].resultsEntry)
            && v == PutEntry(bs[i].resultsEntry, InterruptedResults(bs[i].intents));
          if i > 0 {
            assert bs[1..][i - 1] == bs[i];
            assert FillFor(bs[1..], t, v);
          }
        }
        if v in Fill(bs[1..], t) {
          var i :| 0 <= i < |bs[1..]| && !HasEntry(t.entries, bs[1..][i].resultsEntry)
            && v == PutEntry(bs[1..][i].resultsEntry, InterruptedResults(bs[1..][i].intents));
          assert bs[1..][i] == bs[i + 1];
          assert FillFor(bs, s, v);
        }
        if v == w && !HasEntry(s.entries, b.resultsEntry) {
          assert FillFor(bs, s, v);
        }
      }
    }
  }

  lemma HasEntryAfterAll(s: Session, w: Write, bs: seq<Batch>)
    requires w.PutEntry?
    ensures forall i :: 0 <= i < |bs| ==>
      (HasEntry(Commit(s, w).entries, bs[i].resultsEntry) <==> HasEntry(s.entries, bs[i].resultsEntry) || w.id == bs[i].resultsEntry)
  {
    forall i | 0 <= i < |bs|
      ensures HasEntry(Commit(s, w).entries, bs[i].resultsEntry)
         <==> HasEntry(s.entries, bs[i].resultsEntry) || w.id == bs[i].resultsEntry
    {
      HasEntryAfter(s, w, bs[i].resultsEntry);
    }
  }

  lemma FillIsBatchResults(s: Session, run: nat, w: Write)
    ensures FillFor(Batches(RunRecords(s.records, run)), s, w) <==> IsBatchResults(w, s, run)
  {
    hide HasEntry, InterruptedResults, SaysInterrupted, Batches, RunRecords, Given, CallsFor;
    var bs := Batches(RunRecords(s.records, run));
    GroupingExact(s.records, run);
    if FillFor(bs, s, w) {
      var i :| 0 <= i < |bs| && !HasEntry(s.entries, bs[i].resultsEntry)
        && w == PutEntry(bs[i].resultsEntry, InterruptedResults(bs[i].intents));
      GivenAt(bs, i);
      InterruptedSays(bs[i].intents);
    }
    if IsBatchResults(w, s, run) {
      var i := GivenSome(bs, w.id);
      GivenAt(bs, i);
      InterruptedSays(bs[i].intents);
      OneMessage(w.message, InterruptedResults(bs[i].intents), IdsOf(bs[i].intents));
    }
  }

  lemma OneMessage(a: Message, b: Message, ids: seq<string>)
    requires SaysInterrupted(a, ids) && SaysInterrupted(b, ids)
    ensures a == b
  {
    assert a.content == b.content;
  }

  lemma NoteIsNote(run: nat, w: Write)
    ensures IsClosingNote(w, run) <==> w == PutEntry(ClosingId(run), CLOSING_NOTE)
  {
  }

  /** How many intents the batches hold whose entries are not there. */
  function UnlandedIn(bs: seq<Batch>, es: seq<Entry>): nat {
    if bs == [] then 0
    else (if HasEntry(es, bs[0].resultsEntry) then 0 else |bs[0].intents|) + UnlandedIn(bs[1..], es)
  }

  lemma {:induction false} UnlandedAdds(bs: seq<Batch>, results: Id, intent: ToolIntent, es: seq<Entry>)
    ensures UnlandedIn(AddIntent(bs, results, intent), es)
         == UnlandedIn(bs, es) + if HasEntry(es, results) then 0 else 1
  {
    hide HasEntry;
    if bs != [] && bs[0].resultsEntry != results {
      UnlandedAdds(bs[1..], results, intent, es);
      assert AddIntent(bs, results, intent)[1..] == AddIntent(bs[1..], results, intent);
    } else if bs != [] {
      assert AddIntent(bs, results, intent)[1..] == bs[1..];
    } else {
      assert AddIntent(bs, results, intent)[1..] == [];
    }
  }

  lemma {:induction false} UnlandedCount(rs: seq<Record>, run: nat, es: seq<Entry>)
    ensures UnlandedIn(Batches(RunRecords(rs, run)), es) == Unlanded(rs, run, es)
  {
    hide AddIntent, HasEntry;
    if rs != [] {
      var init, last := rs[..|rs| - 1], rs[|rs| - 1];
      UnlandedCount(init, run, es);
      if last.run == run {
        var mine := RunRecords(init, run) + [last];
        assert mine[..|mine| - 1] == RunRecords(init, run);
        if last.payload.ToolStarted? {
          UnlandedAdds(Batches(RunRecords(init, run)), last.payload.resultsEntry, last.payload.intent, es);
        }
      } else {
        assert RunRecords(rs, run) == RunRecords(init, run);
      }
    }
  }

  lemma {:induction false} UnlandedFills(bs: seq<Batch>, s: Session)
    requires Grouped(bs)
    ensures Fill(bs, s) == [] <==> UnlandedIn(bs, s.entries) == 0
    decreases |bs|
  {
    hide HasEntry, InterruptedResults, Commit;
    if bs != [] {
      var w := PutEntry(bs[0].resultsEntry, InterruptedResults(bs[0].intents));
      UnlandedFills(bs[1..], s);
    }
  }

  /** After the fills the path ends on a user message exactly if it did before or anything was filled. */
  lemma {:induction false} FilledEnds(bs: seq<Batch>, s: Session)
    ensures EndsOnUser(CommitAll(s, Fill(bs, s))) <==> EndsOnUser(s) || Fill(bs, s) != []
    decreases |bs|
  {
    hide InterruptedResults;
    if bs != [] {
      if HasEntry(s.entries, bs[0].resultsEntry) {
        FilledEnds(bs[1..], s);
      } else {
        var w := PutEntry(bs[0].resultsEntry, InterruptedResults(bs[0].intents));
        FilledEnds(bs[1..], Commit(s, w));
        InterruptedSays(bs[0].intents);
      }
    }
  }

  // ---------------------------------------------------------------- the plan

  /** Everything recovery writes, for any rows with one open run: for each results entry that some intent of
      the run provisions and that is not there, that entry, saying of each of its calls, in record order,
      that it was interrupted, as an error; then a closing note, exactly if such an entry was missing or the
      path ended on a user message; and last the finish of the run as aborted and its marker. */
  lemma RecoveryWritesExactly(s: Session, run: nat)
    requires OnlyOpen(s.records, run)
    ensures var n := |Plan(s)|;
      && n >= 2 && Plan(s)[n - 2] == PutRecord(FinishId(run), run, OperationFinished(Aborted))
      && Plan(s)[n - 1] == ClearMarker(run)
      && (forall i :: 0 <= i < n - 2 && !IsBatchResults(Plan(s)[i], s, run) ==> i == n - 3 && IsClosingNote(Plan(s)[i], run))
      && (forall w :: IsBatchResults(w, s, run) ==> w in Plan(s))
      && ((EndsOnUser(s) || Unlanded(s.records, run, s.entries) > 0) <==> n >= 3 && IsClosingNote(Plan(s)[n - 3], run))
  {
    hide OnlyOpen, Fill, Batches, RunRecords, IsBatchResults, FillFor, IsClosingNote, Reduce, EndsOnUser;
    var bs := Batches(RunRecords(s.records, run));
    var open := PlanOf(s, run);
    var fill, close := Fill(bs, s), Close(Filled(s, open), run);
    assert Plan(s) == fill + close + FinishRun(run, Aborted);
    GroupingExact(s.records, run);
    FillsExactly(bs, s);
    forall w
      ensures w in fill <==> IsBatchResults(w, s, run)
    {
      FillIsBatchResults(s, run, w);
    }
    forall w
      ensures IsClosingNote(w, run) <==> w == PutEntry(ClosingId(run), CLOSING_NOTE)
    {
      NoteIsNote(run, w);
    }
    UnlandedCount(s.records, run, s.entries);
    UnlandedFills(bs, s);
    FilledEnds(bs, s);
    forall w | IsBatchResults(w, s, run)
      ensures !IsClosingNote(w, run)
    {
      NotBoth(w, s, run);
    }
    forall i | 0 <= i < |fill|
      ensures IsBatchResults(Plan(s)[i], s, run)
    {
      assert Plan(s)[i] == fill[i] && fill[i] in fill;
    }
  }

  lemma NotBoth(w: Write, s: Session, run: nat)
    requires IsBatchResults(w, s, run)
    ensures !IsClosingNote(w, run)
  {
  }

  lemma PlanOf(s: Session, run: nat) returns (open: OpenRun)
    requires OnlyOpen(s.records, run)
    ensures Reduce(s) == Ok(Some(open)) && open.run == run && open.records == RunRecords(s.records, run)
  {
    ReduceMeaning(s);
    open := Reduce(s).value.value;
  }
}
