/** Crash recovery (crates/store/src/recovery.rs) as the list of transactions it commits, and what
    survives when recovery itself is interrupted between any two of them. */
module Recoveries {
  import opened Wrappers
  import opened Llm
  import opened Ids
  import opened Sessions

  const INTERRUPTED := "interrupted: bullpen exited before this tool finished"

  const CLOSING_NOTE :=
    Message(Assistant, [Text("[this run was interrupted and recovered; state above may be incomplete]")])

  /** The intents that share one provisioned results entry. */
  datatype Batch = Batch(resultsEntry: Id, intents: seq<ToolIntent>)

  function AddIntent(bs: seq<Batch>, resultsEntry: Id, intent: ToolIntent): seq<Batch> {
    if bs == [] then [Batch(resultsEntry, [intent])]
    else if bs[0].resultsEntry == resultsEntry then [bs[0].(intents := bs[0].intents + [intent])] + bs[1..]
    else [bs[0]] + AddIntent(bs[1..], resultsEntry, intent)
  }

  /** Tool intents grouped by results entry, groups and members in first-appearance order. */
  function Batches(rs: seq<Record>): seq<Batch> {
    if rs == [] then []
    else
      var last := rs[|rs| - 1];
      var before := Batches(rs[..|rs| - 1]);
      if last.payload.ToolStarted?
      then AddIntent(before, last.payload.resultsEntry, last.payload.intent)
      else before
  }

  function InterruptedResults(intents: seq<ToolIntent>): Message {
    ToolResults(seq(|intents|, i requires 0 <= i < |intents| =>
      ToolResult(intents[i].toolUseId, INTERRUPTED, true)))
  }

  /** One synthesized entry per batch whose results never landed. */
  function Fill(bs: seq<Batch>, s: Session): seq<Write>
    decreases |bs|
  {
    if bs == [] then []
    else if HasEntry(s.entries, bs[0].resultsEntry) then Fill(bs[1..], s)
    else
      var w := PutEntry(bs[0].resultsEntry, InterruptedResults(bs[0].intents));
      [w] + Fill(bs[1..], Commit(s, w))
  }

  predicate EndsOnUser(s: Session) {
    s.entries != [] && s.entries[|s.entries| - 1].message.role.User?
  }

  function Close(s: Session, run: nat): seq<Write> {
    if EndsOnUser(s) then [PutEntry(ClosingId(run), CLOSING_NOTE)] else []
  }

  function FinishRun(run: nat, outcome: Outcome): seq<Write> {
    [PutRecord(FinishId(run), run, OperationFinished(outcome)), ClearMarker(run)]
  }

  function Filled(s: Session, open: OpenRun): Session {
    CommitAll(s, Fill(Batches(open.records), s))
  }

  /** Every transaction one uninterrupted recovery commits, in order. */
  function Plan(s: Session): seq<Write> {
    match Reduce(s)
    case Err(_) => []
    case Ok(None) => []
    case Ok(Some(open)) =>
      Fill(Batches(open.records), s) + Close(Filled(s, open), open.run) + FinishRun(open.run, Aborted)
  }

  function Recovered(s: Session): Session {
    CommitAll(s, Plan(s))
  }

  function Min(a: nat, b: nat): nat {
    if a < b then a else b
  }

  /** Recovery killed after `cuts[0]` of its transactions, restarted, killed after `cuts[1]`, ... */
  function Interrupted(s: Session, cuts: seq<nat>): Session
    decreases |cuts|
  {
    if cuts == [] then s
    else Interrupted(CommitAll(s, Plan(s)[..Min(cuts[0], |Plan(s)|)]), cuts[1..])
  }

  ghost predicate NamedRecords(rs: seq<Record>) {
    forall i :: 0 <= i < |rs| ==> Named(rs[i])
  }

  /** Equal in every row and counter; only the lane's open-operation marker, which nothing reads,
      may differ. */
  predicate SameRows(s: Session, t: Session) {
    s.(marker := None) == t.(marker := None)
  }

  // ---------------------------------------------------------------- helper facts

  lemma HasEntryGrows(s: Session, w: Write, id: Id)
    requires HasEntry(s.entries, id)
    ensures HasEntry(Commit(s, w).entries, id)
  {
    var i :| 0 <= i < |s.entries| && s.entries[i].id == id;
    assert Commit(s, w).entries[i].id == id;
  }

  lemma PutEntryPresent(s: Session, id: Id, m: Message)
    ensures HasEntry(Commit(s, PutEntry(id, m)).entries, id)
  {
    if !HasEntry(s.entries, id) {
      var t := Commit(s, PutEntry(id, m));
      assert t.entries[|t.entries| - 1].id == id;
    }
  }

  ghost predicate OnlyEntries(ws: seq<Write>) {
    forall w :: w in ws ==> w.PutEntry?
  }

  /** Entry writes leave the records alone and only add to the path. */
  lemma {:induction false} EntryWrites(s: Session, ws: seq<Write>)
    requires OnlyEntries(ws)
    ensures CommitAll(s, ws).records == s.records && CommitAll(s, ws).marker == s.marker
    ensures s.entries <= CommitAll(s, ws).entries
    decreases |ws|
  {
    if ws != [] {
      assert ws[0] in ws;
      EntryWrites(Commit(s, ws[0]), ws[1..]);
    }
  }

  lemma {:induction false} FillIsEntries(bs: seq<Batch>, s: Session)
    ensures OnlyEntries(Fill(bs, s))
    decreases |bs|
  {
    if bs != [] {
      if HasEntry(s.entries, bs[0].resultsEntry) {
        FillIsEntries(bs[1..], s);
      } else {
        var w := PutEntry(bs[0].resultsEntry, InterruptedResults(bs[0].intents));
        FillIsEntries(bs[1..], Commit(s, w));
      }
    }
  }

  lemma {:induction false} CommitAllKeepsEntry(s: Session, ws: seq<Write>, id: Id)
    requires HasEntry(s.entries, id)
    ensures HasEntry(CommitAll(s, ws).entries, id)
    decreases |ws|
  {
    if ws != [] {
      HasEntryGrows(s, ws[0], id);
      CommitAllKeepsEntry(Commit(s, ws[0]), ws[1..], id);
    }
  }

  /** Filling from a state some fills already reached asks for exactly the fills that are left. */
  lemma {:induction false} FillResumes(bs: seq<Batch>, s: Session, k: nat)
    requires k <= |Fill(bs, s)|
    ensures Fill(bs, CommitAll(s, Fill(bs, s)[..k])) == Fill(bs, s)[k..]
    decreases |bs|
  {
    if bs != [] && k > 0 {
      var t := CommitAll(s, Fill(bs, s)[..k]);
      if HasEntry(s.entries, bs[0].resultsEntry) {
        CommitAllKeepsEntry(s, Fill(bs, s)[..k], bs[0].resultsEntry);
        FillResumes(bs[1..], s, k);
      } else {
        var w := PutEntry(bs[0].resultsEntry, InterruptedResults(bs[0].intents));
        var rest := Fill(bs[1..], Commit(s, w));
        assert Fill(bs, s) == [w] + rest;
        assert ([w] + rest)[..k][1..] == rest[..k - 1];
        PutEntryPresent(s, w.id, w.message);
        CommitAllKeepsEntry(Commit(s, w), rest[..k - 1], w.id);
        FillResumes(bs[1..], Commit(s, w), k - 1);
      }
    }
  }

  lemma OpenHasNoFinish(s: Session, run: nat)
    requires NamedRecords(s.records) && OnlyOpen(s.records, run)
    ensures !HasRecord(s.records, FinishId(run))
  {
    forall i | 0 <= i < |s.records|
      ensures s.records[i].id != FinishId(run)
    {
      assert Named(s.records[i]);
    }
  }

  lemma FinishedGrows(rs: seq<Record>, r: Record, run: nat)
    ensures FinishedIn(rs + [r], run) <==>
            FinishedIn(rs, run) || (r.run == run && r.payload.OperationFinished?)
  {
    if FinishedIn(rs, run) {
      var i :| 0 <= i < |rs| && rs[i].run == run && rs[i].payload.OperationFinished?;
      assert (rs + [r])[i] == rs[i];
    }
    if r.run == run && r.payload.OperationFinished? {
      assert (rs + [r])[|rs|] == r;
    }
  }

  /** Once its own finish record is in, the only open run is closed. */
  lemma FinishCloses(s: Session, run: nat, outcome: Outcome)
    requires NamedRecords(s.records) && OnlyOpen(s.records, run)
    ensures NoneOpen(Commit(s, PutRecord(FinishId(run), run, OperationFinished(outcome))).records)
  {
    OpenHasNoFinish(s, run);
    var rs := s.records;
    var t := Commit(s, PutRecord(FinishId(run), run, OperationFinished(outcome)));
    forall i | 0 <= i < |t.records|
      ensures !OpenAt(t.records, i)
    {
      FinishedGrows(rs, t.records[|rs|], t.records[i].run);
      if i < |rs| && OpenAt(rs, i) {
        assert rs[i].run == run;
      }
    }
  }

  /** The marker never influences what recovery does. */
  lemma ReduceReadsRecords(s: Session, t: Session)
    requires s.records == t.records
    ensures Reduce(s) == Reduce(t)
  {}

  /** Starting a run marks the lane with it; finishing one clears the marker where it names that run, and
      leaves any other alone. */
  lemma OwnMarkerOnly(s: Session, run: nat, outcome: Outcome)
    ensures CommitAll(s, FinishRun(run, outcome)).marker == if s.marker == Some(run) then None else s.marker
    ensures Commit(s, SetMarker(run)).marker == Some(run)
  {
    CommitTwo(s, FinishRun(run, outcome)[0], FinishRun(run, outcome)[1]);
  }

  // ---------------------------------------------------------------- convergence

  /** The state after all fills and the closing entry. */
  function Closed(s: Session, open: OpenRun): Session {
    CommitAll(Filled(s, open), Close(Filled(s, open), open.run))
  }

  lemma RecoveredSplit(s: Session, open: OpenRun)
    requires Reduce(s) == Ok(Some(open))
    ensures Recovered(s) == CommitAll(Closed(s, open), FinishRun(open.run, Aborted))
    ensures Closed(s, open).records == s.records && s.entries <= Closed(s, open).entries
  {
    var f, c := Fill(Batches(open.records), s), Close(Filled(s, open), open.run);
    CommitAllConcat(s, f + c, FinishRun(open.run, Aborted));
    CommitAllConcat(s, f, c);
    FillIsEntries(Batches(open.records), s);
    EntryWrites(s, f);
    EntryWrites(Filled(s, open), c);
  }

  /** Killed among the fills: the restart makes up exactly what was lost. */
  lemma CutInFill(s: Session, open: OpenRun, k: nat)
    requires Reduce(s) == Ok(Some(open))
    requires k <= |Fill(Batches(open.records), s)|
    ensures Recovered(CommitAll(s, Plan(s)[..k])) == Recovered(s)
  {
    var bs := Batches(open.records);
    var f := Fill(bs, s);
    var t := CommitAll(s, f[..k]);
    assert Plan(s)[..k] == f[..k];
    FillIsEntries(bs, s);
    EntryWrites(s, f[..k]);
    ReduceReadsRecords(s, t);
    FillResumes(bs, s, k);
    CommitAllConcat(s, f[..k], f[k..]);
    assert f[..k] + f[k..] == f;
    assert Filled(t, open) == Filled(s, open);
    RecoveredSplit(s, open);
    RecoveredSplit(t, open);
  }

  /** Killed right after the closing entry: nothing before the finish is repeated. */
  lemma CutAfterClose(s: Session, open: OpenRun)
    requires Reduce(s) == Ok(Some(open))
    ensures Recovered(Closed(s, open)) == Recovered(s)
  {
    var bs := Batches(open.records);
    var u, t := Filled(s, open), Closed(s, open);
    RecoveredSplit(s, open);
    ReduceReadsRecords(s, t);
    FillResumes(bs, s, |Fill(bs, s)|);
    assert Fill(bs, s)[..|Fill(bs, s)|] == Fill(bs, s);
    assert Fill(bs, u) == [];
    NothingLeftToFill(bs, u, Close(u, open.run));
    assert Filled(t, open) == t;
    if EndsOnUser(u) {
      var w := PutEntry(ClosingId(open.run), CLOSING_NOTE);
      CommitTwo(u, w, w);
      CommitTwo(t, w, w);
      PutEntryPresent(u, w.id, w.message);
    }
    assert Closed(t, open) == t;
    RecoveredSplit(t, open);
  }

  lemma {:induction false} NothingLeftToFill(bs: seq<Batch>, s: Session, ws: seq<Write>)
    requires Fill(bs, s) == []
    ensures Fill(bs, CommitAll(s, ws)) == []
    decreases |bs|
  {
    if bs != [] {
      CommitAllKeepsEntry(s, ws, bs[0].resultsEntry);
      NothingLeftToFill(bs[1..], s, ws);
    }
  }

  lemma CommitTwo(s: Session, a: Write, b: Write)
    ensures CommitAll(s, [a]) == Commit(s, a)
    ensures CommitAll(s, [a, b]) == Commit(Commit(s, a), b)
  {
    CommitAllSnoc(s, [], a);
    CommitAllSnoc(s, [a], b);
    assert [] + [a] == [a] && [a] + [b] == [a, b];
  }

  /** Killed around the marker update: the run is closed already, so the restart does nothing. */
  lemma CutAfterFinish(s: Session, open: OpenRun, k: nat)
    requires NamedRecords(s.records) && Reduce(s) == Ok(Some(open)) && 1 <= k <= 2
    requires |Plan(s)| >= 2
    ensures SameRows(Recovered(CommitAll(s, Plan(s)[..|Plan(s)| - 2 + k])), Recovered(s))
  {
    hide Fill, Batches, NamedRecords, OnlyOpen, NoneOpen;
    var f, c, fin := Fill(Batches(open.records), s), Close(Filled(s, open), open.run), FinishRun(open.run, Aborted);
    var u := Closed(s, open);
    assert Plan(s)[..|Plan(s)| - 2 + k] == (f + c) + fin[..k];
    CommitAllConcat(s, f + c, fin[..k]);
    CommitAllConcat(s, f, c);
    var t := CommitAll(u, fin[..k]);
    assert fin[..1] == [fin[0]] && fin[..2] == [fin[0], fin[1]];
    CommitTwo(u, fin[0], fin[1]);
    RecoveredSplit(s, open);
    ReduceMeaning(s);
    FinishCloses(u, open.run, Aborted);
    ReduceMeaning(t);
    assert Plan(t) == [];
  }

  lemma PlanParts(s: Session, open: OpenRun) returns (fill: seq<Write>, close: seq<Write>)
    requires Reduce(s) == Ok(Some(open))
    ensures fill == Fill(Batches(open.records), s) && close == Close(Filled(s, open), open.run)
    ensures Plan(s) == fill + close + FinishRun(open.run, Aborted)
    ensures |close| <= 1 && CommitAll(s, fill + close) == Closed(s, open)
  {
    fill, close := Fill(Batches(open.records), s), Close(Filled(s, open), open.run);
    CommitAllConcat(s, fill, close);
  }

  /** Killed once, after any number of its transactions, and run again: the same rows. */
  lemma CutOnce(s: Session, k: nat)
    requires NamedRecords(s.records) && k <= |Plan(s)|
    ensures SameRows(Recovered(CommitAll(s, Plan(s)[..k])), Recovered(s))
  {
    hide Fill, Filled, Close, Closed, NamedRecords, Plan, Reduce, Recovered;
    if Reduce(s).Ok? && Reduce(s).value.Some? {
      var open := Reduce(s).value.value;
      var fill, close := PlanParts(s, open);
      if k <= |fill| {
        CutInFill(s, open, k);
      } else if k <= |fill| + |close| {
        assert Plan(s)[..k] == fill + close;
        CutAfterClose(s, open);
      } else {
        CutAfterFinish(s, open, k - |fill| - |close|);
      }
    } else {
      NothingPlanned(s);
      assert Plan(s)[..k] == [];
    }
  }

  lemma NothingPlanned(s: Session)
    requires !(Reduce(s).Ok? && Reduce(s).value.Some?)
    ensures Plan(s) == []
  {}

  lemma {:induction false} NamedCommits(s: Session, ws: seq<Write>)
    requires NamedRecords(s.records)
    requires forall w :: w in ws && w.PutRecord? ==> Named(Record(w.id, w.run, 0, w.payload))
    ensures NamedRecords(CommitAll(s, ws).records)
    decreases |ws|
  {
    if ws != [] {
      assert ws[0] in ws;
      NamedCommits(Commit(s, ws[0]), ws[1..]);
    }
  }

  lemma PlanNamed(s: Session)
    ensures forall w :: w in Plan(s) && w.PutRecord? ==> Named(Record(w.id, w.run, 0, w.payload))
  {
    if Reduce(s).Ok? && Reduce(s).value.Some? {
      FillIsEntries(Batches(Reduce(s).value.value.records), s);
    }
  }

  /** Recovery interrupted and restarted any number of times, at any of its own transactions, ends
      with exactly the rows of one uninterrupted recovery, and so with the same path. */
  lemma {:induction false} RecoveryConverges(s: Session, cuts: seq<nat>)
    requires NamedRecords(s.records)
    ensures SameRows(Recovered(Interrupted(s, cuts)), Recovered(s))
    ensures Path(Recovered(Interrupted(s, cuts))) == Path(Recovered(s))
    decreases |cuts|
  {
    if cuts != [] {
      var k := Min(cuts[0], |Plan(s)|);
      var t := CommitAll(s, Plan(s)[..k]);
      CutOnce(s, k);
      PlanNamed(s);
      NamedCommits(s, Plan(s)[..k]);
      RecoveryConverges(t, cuts[1..]);
    }
  }

  /** After recovery nothing is open, every earlier entry is untouched and in place, and the path is
      empty or ends on an assistant message, save when the run's closing entry was already there. */
  lemma RecoveredState(s: Session)
    requires NamedRecords(s.records) && Reduce(s).Ok?
    ensures Reduce(Recovered(s)) == Ok(None)
    ensures s.entries <= Recovered(s).entries && s.records <= Recovered(s).records
    ensures Reduce(s).value.Some? ==>
      var open := Reduce(s).value.value;
      (EndsOnUser(Recovered(s)) <==>
        EndsOnUser(Filled(s, open)) && HasEntry(Filled(s, open).entries, ClosingId(open.run)))
  {
    hide Fill, Batches, NamedRecords, OnlyOpen, NoneOpen, Reduce;
    ReduceMeaning(s);
    if Reduce(s).value.Some? {
      var open := Reduce(s).value.value;
      RecoveredSplit(s, open);
      var u := Closed(s, open);
      var fin := FinishRun(open.run, Aborted);
      CommitTwo(u, fin[0], fin[1]);
      var v := Commit(u, fin[0]);
      FinishCloses(u, open.run, Aborted);
      ReduceMeaning(v);
      ReduceReadsRecords(v, Recovered(s));
      var x := Filled(s, open);
      var w := PutEntry(ClosingId(open.run), CLOSING_NOTE);
      CommitTwo(x, w, w);
    }
  }
}
