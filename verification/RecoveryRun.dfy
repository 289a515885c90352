/** `recover` (crates/store/src/recovery.rs) as it runs on the store, transaction by transaction. */
module RecoveryRuns {
  import opened Wrappers
  import opened Llm
  import opened Ids
  import opened Sessions
  import opened Recoveries
  import opened Syntheses
  import opened Protocols
  import opened Stores

  datatype Report = Report(run: nat, interruptedTools: nat, closedWithNote: bool)

  lemma {:induction false} AddIntentAt(bs: seq<Batch>, k: nat, results: Id, intent: ToolIntent)
    requires k <= |bs|
    requires forall i :: 0 <= i < k ==> bs[i].resultsEntry != results
    requires k < |bs| ==> bs[k].resultsEntry == results
    ensures AddIntent(bs, results, intent) ==
      if k < |bs| then bs[k := bs[k].(intents := bs[k].intents + [intent])] else bs + [Batch(results, [intent])]
  {
    if bs != [] {
      if k == 0 {
        assert bs[0 := bs[0].(intents := bs[0].intents + [intent])]
            == [bs[0].(intents := bs[0].intents + [intent])] + bs[1..];
      } else {
        AddIntentAt(bs[1..], k - 1, results, intent);
      }
    }
  }

  method GroupIntents(rs: seq<Record>) returns (batches: seq<Batch>)
    ensures batches == Batches(rs)
  {
    batches := [];
    for i := 0 to |rs|
      invariant batches == Batches(rs[..i])
    {
      assert rs[..i + 1][..i] == rs[..i];
      if rs[i].payload.ToolStarted? {
        var results, intent := rs[i].payload.resultsEntry, rs[i].payload.intent;
        var k := 0;
        while k < |batches| && batches[k].resultsEntry != results
          invariant 0 <= k <= |batches|
          invariant forall j :: 0 <= j < k ==> batches[j].resultsEntry != results
        {
          k := k + 1;
        }
        AddIntentAt(batches, k, results, intent);
        if k < |batches| {
          batches := batches[k := batches[k].(intents := batches[k].intents + [intent])];
        } else {
          batches := batches + [Batch(results, [intent])];
        }
      }
    }
    assert rs[..|rs|] == rs;
  }

  /** How many calls the fills answer. */
  function Interruptions(ws: seq<Write>): nat {
    if ws == [] then 0
    else (if ws[0].PutEntry? then |AnswersIn(ws[0].message.content)| else 0) + Interruptions(ws[1..])
  }

  lemma {:induction false} InterruptionsSnoc(ws: seq<Write>, w: Write)
    ensures Interruptions(ws + [w]) == Interruptions(ws) + (if w.PutEntry? then |AnswersIn(w.message.content)| else 0)
  {
    if ws != [] {
      InterruptionsSnoc(ws[1..], w);
      assert (ws + [w])[1..] == ws[1..] + [w];
    }
  }

  lemma {:induction false} AllAnswers(blocks: seq<ContentBlock>)
    requires forall i :: 0 <= i < |blocks| ==> blocks[i].ToolResult?
    ensures |AnswersIn(blocks)| == |blocks|
  {
    if blocks != [] {
      AllAnswers(blocks[1..]);
    }
  }

  /** The report of a recovery: the run, how many of its intents had no results entry, and whether a note
      was due. */
  function ReportOf(s: Session, run: nat): Report {
    var missing := Unlanded(s.records, run, s.entries);
    Report(run, missing, missing > 0 || EndsOnUser(s))
  }

  lemma {:induction false} UnlandedSame(bs: seq<Batch>, s: Session, w: Write)
    requires w.PutEntry? && forall i :: 0 <= i < |bs| ==> bs[i].resultsEntry != w.id
    ensures UnlandedIn(bs, Commit(s, w).entries) == UnlandedIn(bs, s.entries)
  {
    hide HasEntry, Commit;
    if bs != [] {
      HasEntryAfter(s, w, bs[0].resultsEntry);
      UnlandedSame(bs[1..], s, w);
    }
  }

  lemma {:induction false} FillsCount(bs: seq<Batch>, s: Session)
    requires Grouped(bs)
    ensures Interruptions(Fill(bs, s)) == UnlandedIn(bs, s.entries)
    decreases |bs|
  {
    hide HasEntry, Commit;
    if bs != [] {
      var w := PutEntry(bs[0].resultsEntry, InterruptedResults(bs[0].intents));
      if HasEntry(s.entries, bs[0].resultsEntry) {
        FillsCount(bs[1..], s);
      } else {
        FillsCount(bs[1..], Commit(s, w));
        UnlandedSame(bs[1..], s, w);
        AllAnswers(w.message.content);
      }
    }
  }

  lemma ReportCounts(s: Session, open: OpenRun)
    requires Reduce(s) == Ok(Some(open))
    ensures ReportOf(s, open.run)
         == Report(open.run, Interruptions(Fill(Batches(open.records), s)), EndsOnUser(Filled(s, open)))
  {
    hide Fill, EndsOnUser, Batches, RunRecords, Grouped, UnlandedIn, Unlanded, Interruptions;
    assert open.records == RunRecords(s.records, open.run);
    GroupingExact(s.records, open.run);
    FillsCount(Batches(open.records), s);
    UnlandedCount(s.records, open.run, s.entries);
    UnlandedFills(Batches(open.records), s);
    FilledEnds(Batches(open.records), s);
  }

  ghost predicate BatchesWithin(bs: seq<Batch>, uuids: nat) {
    forall i :: 0 <= i < |bs| ==> IdWithin(bs[i].resultsEntry, uuids)
  }

  lemma {:induction false} AddWithin(bs: seq<Batch>, results: Id, intent: ToolIntent, uuids: nat)
    requires BatchesWithin(bs, uuids) && IdWithin(results, uuids)
    ensures BatchesWithin(AddIntent(bs, results, intent), uuids)
  {
    if bs != [] {
      assert BatchesWithin(bs[1..], uuids);
      AddWithin(bs[1..], results, intent, uuids);
    }
  }

  lemma {:induction false} RunBatchesWithin(rs: seq<Record>, run: nat, uuids: nat)
    requires forall i :: 0 <= i < |rs| && rs[i].payload.ToolStarted? ==> IdWithin(rs[i].payload.resultsEntry, uuids)
    ensures BatchesWithin(Batches(RunRecords(rs, run)), uuids)
  {
    if rs != [] {
      var init, last := rs[..|rs| - 1], rs[|rs| - 1];
      RunBatchesWithin(init, run, uuids);
      if last.run == run {
        var mine := RunRecords(init, run) + [last];
        assert RunRecords(rs, run) == mine && mine[..|mine| - 1] == RunRecords(init, run);
        if last.payload.ToolStarted? {
          AddWithin(Batches(RunRecords(init, run)), last.payload.resultsEntry, last.payload.intent, uuids);
        }
      } else {
        assert RunRecords(rs, run) == RunRecords(init, run);
      }
    }
  }

  /** The supply bounds every id recovery writes. */
  lemma OpenRunWithin(s: Session, open: OpenRun, uuids: nat)
    requires SupplyOk(s, uuids) && NamedRecords(s.records) && Reduce(s) == Ok(Some(open))
    ensures open.run < uuids && BatchesWithin(Batches(open.records), uuids)
  {
    ReduceMeaning(s);
    var rs := s.records;
    assert OnlyOpen(rs, open.run);
    var at :| 0 <= at < |rs| && OpenAt(rs, at) && rs[at].run == open.run;
    assert !Unseen(s, open.run);
    forall i | 0 <= i < |rs| && rs[i].payload.ToolStarted?
      ensures IdWithin(rs[i].payload.resultsEntry, uuids)
    {
      assert Named(rs[i]);
      assert !Unseen(s, rs[i].payload.resultsEntry.n);
    }
    RunBatchesWithin(rs, open.run, uuids);
  }

  /** One batch further. */
  lemma FillNext(bs: seq<Batch>, i: nat, s: Session)
    requires i < |bs|
    ensures var w := PutEntry(bs[i].resultsEntry, InterruptedResults(bs[i].intents));
      Fill(bs[i..], s) == if HasEntry(s.entries, bs[i].resultsEntry) then Fill(bs[i + 1..], s)
                          else [w] + Fill(bs[i + 1..], Commit(s, w))
  {
    assert bs[i..][1..] == bs[i + 1..];
  }

  lemma NothingFilled(s: Session)
    ensures CommitAll(s, []) == s && Interruptions([]) == 0 && Fill([], s) == []
  {}

  /** The fills, one store call after the other. On a refusal a prefix of them is on disk. */
  method FillBatches(store: Store, bs: seq<Batch>) returns (r: Result<nat, StoreError>, ghost done: seq<Write>)
    requires store.Valid() && BatchesWithin(bs, store.uuids)
    modifies store
    ensures store.Valid() && store.uuids == old(store.uuids) && store.records == old(store.records)
    ensures done <= Fill(bs, old(store.View())) && (r.Ok? ==> done == Fill(bs, old(store.View())))
    ensures store.View() == CommitAll(old(store.View()), done) && store.log == old(store.log) + done
    ensures store.refusals == if r.Ok? then old(store.refusals) else old(store.refusals) + 1
    ensures r.Ok? ==> r.value == Interruptions(done)
    ensures r.Err? ==> r.error == Io
  {
    hide Chain, SupplyOk, Fill, Commit, CommitAll, HasEntry, Interruptions;
    NothingFilled(store.View());
    assert bs[0..] == bs;
    ghost var s0 := store.View();
    done := [];
    var interrupted := 0;
    for i := 0 to |bs|
      invariant store.Valid() && store.uuids == old(store.uuids) && store.records == old(store.records)
      invariant done + Fill(bs[i..], store.View()) == Fill(bs, s0)
      invariant store.View() == CommitAll(s0, done) && store.log == old(store.log) + done
      invariant store.refusals == old(store.refusals) && interrupted == Interruptions(done)
    {
      ghost var now := store.View();
      FillNext(bs, i, now);
      var exists_ := store.EntryExists(bs[i].resultsEntry);
      assert store.View() == now;
      if exists_.Err? {
        return Err(exists_.error), done;
      }
      if !exists_.value {
        var message := InterruptedResults(bs[i].intents);
        ghost var w := PutEntry(bs[i].resultsEntry, message);
        var put := store.AppendEntry(bs[i].resultsEntry, message);
        if put.Err? {
          return Err(put.error), done;
        }
        CommitAllSnoc(s0, done, w);
        InterruptionsSnoc(done, w);
        AllAnswers(message.content);
        interrupted := interrupted + |message.content|;
        assert (done + [w]) + Fill(bs[i + 1..], Commit(now, w)) == done + Fill(bs[i..], now);
        done := done + [w];
      }
    }
    assert bs[|bs|..] == [] && done + [] == done;
    NothingFilled(store.View());
    r := Ok(interrupted);
  }

  /** Exactly the first `n` transactions of recovery's plan are on disk. */
  twostate predicate Progress(store: Store, n: nat)
    reads store
  {
    var plan := Plan(old(store.View()));
    n <= |plan| && store.View() == CommitAll(old(store.View()), plan[..n]) && store.log == old(store.log) + plan[..n]
  }

  /** The fills and the closing entry. */
  method CloseTranscript(store: Store, open: OpenRun) returns (r: Result<Report, StoreError>, ghost n: nat)
    requires store.Valid() && Reduce(store.View()) == Ok(Some(open))
    requires open.run < store.uuids && BatchesWithin(Batches(open.records), store.uuids)
    modifies store
    ensures store.Valid() && store.uuids == old(store.uuids) && Progress(store, n)
    ensures store.refusals == if r.Ok? then old(store.refusals) else old(store.refusals) + 1
    ensures r.Ok? ==> store.View() == Closed(old(store.View()), open) && n + 2 == |Plan(old(store.View()))|
    ensures r.Ok? ==> r.value == ReportOf(old(store.View()), open.run)
  {
    hide Chain, SupplyOk, Reduce, Fill, Batches, Plan, Unlanded;
    ghost var s0 := store.View();
    ghost var fill, close := PlanParts(s0, open);
    var batches := GroupIntents(open.records);
    var filled;
    ghost var done;
    filled, done := FillBatches(store, batches);
    n := |done|;
    assert Plan(s0)[..n] == done;
    if filled.Err? {
      return Err(filled.error), n;
    }
    var messages := store.PathMessages();
    if messages.Err? {
      return Err(messages.error), n;
    }
    var note := messages.value != [] && messages.value[|messages.value| - 1].role.User?;
    assert note == EndsOnUser(Filled(s0, open));
    if note {
      ghost var w := PutEntry(ClosingId(open.run), CLOSING_NOTE);
      var put := store.AppendEntry(ClosingId(open.run), CLOSING_NOTE);
      if put.Err? {
        return Err(put.error), n;
      }
      CommitTwo(Filled(s0, open), w, w);
    }
    n := |fill + close|;
    assert Plan(s0)[..n] == fill + close;
    ReportCounts(s0, open);
    r := Ok(Report(open.run, filled.value, note));
  }

  /** `recover`: on success the whole plan is committed; on a refused access, or a crash, a prefix of
      it is, and the next recovery takes over from there. */
  method Recover(store: Store) returns (r: Result<Option<Report>, StoreError>, ghost n: nat)
    requires store.Valid() && NamedRecords(store.records)
    modifies store
    ensures store.Valid() && store.uuids == old(store.uuids) && Progress(store, n)
    ensures r.Ok? ==> n == |Plan(old(store.View()))| && store.View() == Recovered(old(store.View()))
    ensures r.Err? ==> store.refusals > old(store.refusals) || Reduce(old(store.View())).Err?
    ensures r.Ok? ==> store.refusals == old(store.refusals) && Reduce(old(store.View())).Ok?
    ensures r.Ok? ==> match Reduce(old(store.View())).value
      case None => r.value == None
      case Some(open) =>
        var missing := Unlanded(old(store.records), open.run, old(store.entries));
        r.value == Some(Report(open.run, missing, missing > 0 || EndsOnUser(old(store.View()))))
  {
    hide Chain, SupplyOk, NamedRecords, Reduce, Fill, Batches, OnlyOpen, CommitAll, Filled, Unlanded;
    ghost var s0, log0 := store.View(), store.log;
    n := 0;
    NothingYet(s0);
    var reduced := store.OpenRun();
    if reduced.Err? {
      return Err(reduced.error), 0;
    }
    if reduced.value.None? {
      return Ok(None), 0;
    }
    var open := reduced.value.value;
    OpenRunWithin(s0, open, store.uuids);
    ghost var fill, close := PlanParts(s0, open);
    var closed;
    closed, n := CloseTranscript(store, open);
    if closed.Err? {
      return Err(closed.error), n;
    }
    var finished := store.FinishOperation(open.run, Aborted);
    ghost var k :| 0 <= k <= 2 && (k == 2 <==> finished.Ok?)
      && store.View() == CommitAll(Closed(s0, open), FinishRun(open.run, Aborted)[..k])
      && store.log == log0 + Plan(s0)[..n] + FinishRun(open.run, Aborted)[..k];
    FinishPrefix(s0, open, fill, close, k);
    n := n + k;
    assert Plan(s0)[..n - k] == fill + close;
    if finished.Err? {
      return Err(finished.error), n;
    }
    assert Plan(s0)[..n] == Plan(s0);
    r := Ok(Some(closed.value));
  }

  lemma NothingYet(s: Session)
    ensures Plan(s)[..0] == [] && CommitAll(s, []) == s
    ensures Reduce(s) == Ok(None) ==> Plan(s) == []
  {}

  lemma FinishPrefix(s: Session, open: OpenRun, fill: seq<Write>, close: seq<Write>, k: nat)
    requires Reduce(s) == Ok(Some(open)) && k <= 2
    requires Plan(s) == fill + close + FinishRun(open.run, Aborted)
    requires CommitAll(s, fill + close) == Closed(s, open)
    ensures Plan(s)[..|fill + close| + k] == (fill + close) + FinishRun(open.run, Aborted)[..k]
    ensures CommitAll(s, Plan(s)[..|fill + close| + k])
         == CommitAll(Closed(s, open), FinishRun(open.run, Aborted)[..k])
  {
    assert Plan(s)[..|fill + close| + k] == (fill + close) + FinishRun(open.run, Aborted)[..k];
    CommitAllConcat(s, fill + close, FinishRun(open.run, Aborted)[..k]);
  }
}
