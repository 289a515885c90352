/** One session's durable rows and the transactions that change them (crates/store/src/lib.rs).

    The rows of a table are kept in insertion order, which is also `seq` order (`Chain`). */
module Sessions {
  import opened Wrappers
  import opened Llm
  import opened Ids

  datatype ToolIntent = ToolIntent(toolUseId: string, name: string, input: Json, replaySafe: bool)

  datatype Outcome = Completed | Truncated | Failed | Aborted

  datatype Payload =
    | OperationStarted(sourceLeaf: Option<Id>)
    | StepAttempt(attempt: nat)
    | ToolStarted(intent: ToolIntent, resultsEntry: Id)
    | OperationFinished(outcome: Outcome)

  datatype Entry = Entry(id: Id, parent: Option<Id>, seqNo: nat, message: Message)

  datatype Record = Record(id: Id, run: nat, seqNo: nat, payload: Payload)

  /** `leaf` and `marker` are the lane row (`leaf_id`, `open_operation_id`). */
  datatype Session = Session(entries: seq<Entry>, records: seq<Record>,
                             leaf: Option<Id>, marker: Option<nat>, nextSeq: nat)

  /** What one committed transaction asked for. `PutMeta` is the usage and title update, which
      touches no column kept here. */
  datatype Write =
    | PutEntry(id: Id, message: Message)
    | PutRecord(id: Id, run: nat, payload: Payload)
    | SetMarker(run: nat)
    | ClearMarker(run: nat)
    | PutMeta

  /** Row ids as the callers of `append_record` build them. */
  predicate Named(r: Record) {
    match r.payload
    case OperationStarted(_) => r.id == Uuid(r.run)
    case StepAttempt(attempt) => r.id == StepId(r.run, attempt)
    case ToolStarted(intent, resultsEntry) => r.id == ToolId(r.run, intent.toolUseId) && resultsEntry.Uuid?
    case OperationFinished(_) => r.id == FinishId(r.run)
  }

  const EMPTY := Session([], [], None, None, 1)

  predicate HasEntry(es: seq<Entry>, id: Id) {
    exists i :: 0 <= i < |es| && es[i].id == id
  }

  predicate HasRecord(rs: seq<Record>, id: Id) {
    exists i :: 0 <= i < |rs| && rs[i].id == id
  }

  /** The effect of one transaction; a row whose id exists already is left alone. */
  function Commit(s: Session, w: Write): Session {
    match w
    case PutEntry(id, message) =>
      if HasEntry(s.entries, id) then s
      else s.(entries := s.entries + [Entry(id, s.leaf, s.nextSeq, message)],
              leaf := Some(id), nextSeq := s.nextSeq + 1)
    case PutRecord(id, run, payload) =>
      if HasRecord(s.records, id) then s
      else s.(records := s.records + [Record(id, run, s.nextSeq, payload)], nextSeq := s.nextSeq + 1)
    case SetMarker(run) => s.(marker := Some(run))
    case ClearMarker(run) => if s.marker == Some(run) then s.(marker := None) else s
    case PutMeta => s
  }

  function CommitAll(s: Session, ws: seq<Write>): Session
    decreases |ws|
  {
    if ws == [] then s else CommitAll(Commit(s, ws[0]), ws[1..])
  }

  lemma {:induction false} CommitAllConcat(s: Session, a: seq<Write>, b: seq<Write>)
    ensures CommitAll(s, a + b) == CommitAll(CommitAll(s, a), b)
    decreases |a|
  {
    if a == [] {
      assert a + b == b;
    } else {
      CommitAllConcat(Commit(s, a[0]), a[1..], b);
      assert (a + b)[1..] == a[1..] + b;
    }
  }

  lemma CommitAllSnoc(s: Session, ws: seq<Write>, w: Write)
    ensures CommitAll(s, ws + [w]) == Commit(CommitAll(s, ws), w)
  {
    CommitAllConcat(s, ws, [w]);
    assert CommitAll(CommitAll(s, ws), [w]) == CommitAll(Commit(CommitAll(s, ws), w), []);
  }

  /** Every entry and every record takes the next number, from 1 on, and nothing else takes one. */
  lemma {:induction false} NumbersDense(s: Session, ws: seq<Write>)
    requires s.nextSeq == 1 + |s.entries| + |s.records|
    ensures var t := CommitAll(s, ws); t.nextSeq == 1 + |t.entries| + |t.records|
    decreases |ws|
  {
    if ws != [] {
      NumbersDense(Commit(s, ws[0]), ws[1..]);
    }
  }

  // ---------------------------------------------------------------- the entry chain

  function LastId(es: seq<Entry>): Option<Id> {
    if es == [] then None else Some(es[|es| - 1].id)
  }

  predicate ParentOk(es: seq<Entry>, i: nat)
    requires i < |es|
  {
    es[i].parent == if i == 0 then None else Some(es[i - 1].id)
  }

  /** Every entry's parent is the entry before it. */
  ghost predicate Linked(es: seq<Entry>) {
    forall i :: 0 <= i < |es| ==> ParentOk(es, i)
  }

  ghost predicate DistinctEntries(es: seq<Entry>) {
    forall i, j :: 0 <= i < j < |es| ==> es[i].id != es[j].id
  }

  ghost predicate DistinctRecords(rs: seq<Record>) {
    forall i, j :: 0 <= i < j < |rs| ==> rs[i].id != rs[j].id
  }

  /** One counter numbers both tables: no number is used twice and each table's numbers increase. */
  ghost predicate SharedSeq(s: Session) {
    && (forall i, j :: 0 <= i < j < |s.entries| ==> s.entries[i].seqNo < s.entries[j].seqNo)
    && (forall i, j :: 0 <= i < j < |s.records| ==> s.records[i].seqNo < s.records[j].seqNo)
    && (forall i, j :: 0 <= i < |s.entries| && 0 <= j < |s.records| ==>
          s.entries[i].seqNo != s.records[j].seqNo)
    && (forall i :: 0 <= i < |s.entries| ==> s.entries[i].seqNo < s.nextSeq)
    && (forall i :: 0 <= i < |s.records| ==> s.records[i].seqNo < s.nextSeq)
  }

  /** The tree is a single chain in append order, ending at the lane's leaf. */
  ghost predicate Chain(s: Session) {
    && DistinctEntries(s.entries)
    && Linked(s.entries)
    && s.leaf == LastId(s.entries)
    && DistinctRecords(s.records)
    && SharedSeq(s)
  }

  lemma LinkedSnoc(es: seq<Entry>, e: Entry)
    requires Linked(es) && e.parent == LastId(es)
    ensures Linked(es + [e])
  {
    forall i | 0 <= i < |es| + 1
      ensures ParentOk(es + [e], i)
    {
      if i < |es| {
        assert ParentOk(es, i);
      }
    }
  }

  lemma LinkedPrefix(es: seq<Entry>, n: nat)
    requires Linked(es) && n <= |es|
    ensures Linked(es[..n])
  {
    forall i | 0 <= i < n
      ensures ParentOk(es[..n], i)
    {
      assert ParentOk(es, i);
    }
  }

  lemma EmptyChain()
    ensures Chain(EMPTY)
  {}

  /** Every transaction, whatever its ids, keeps the chain. */
  lemma CommitChain(s: Session, w: Write)
    requires Chain(s)
    ensures Chain(Commit(s, w))
  {
    if w.PutEntry? && !HasEntry(s.entries, w.id) {
      LinkedSnoc(s.entries, Entry(w.id, s.leaf, s.nextSeq, w.message));
    }
  }

  lemma {:induction false} CommitAllChain(s: Session, ws: seq<Write>)
    requires Chain(s)
    ensures Chain(CommitAll(s, ws))
    decreases |ws|
  {
    if ws != [] {
      CommitChain(s, ws[0]);
      CommitAllChain(Commit(s, ws[0]), ws[1..]);
    }
  }

  /** The rows keyed by id, a later row with the same id replacing an earlier one. */
  function RowsById(es: seq<Entry>): map<Id, Entry> {
    if es == [] then map[]
    else RowsById(es[..|es| - 1])[es[|es| - 1].id := es[|es| - 1]]
  }

  datatype StoreError = Corrupt | Io

  /** Follows parent links from `cursor`, using each row at most once; root first. None when a link
      leads to a row that is missing. */
  function Walk(rows: map<Id, Entry>, cursor: Option<Id>): Option<seq<Entry>>
    decreases |rows|
  {
    match cursor
    case None => Some([])
    case Some(id) =>
      if id !in rows then None
      else
        var rest := rows - {id};
        assert |rest| < |rows| by { assert rest.Keys == rows.Keys - {id}; assert |rest.Keys| < |rows.Keys|; }
        match Walk(rest, rows[id].parent)
        case None => None
        case Some(path) => Some(path + [rows[id]])
  }

  /** The active path, root to leaf. */
  function Path(s: Session): Option<seq<Entry>> {
    Walk(RowsById(s.entries), s.leaf)
  }

  lemma {:induction false} RowsByIdMeaning(es: seq<Entry>)
    requires DistinctEntries(es)
    ensures forall id :: id in RowsById(es) <==> HasEntry(es, id)
    ensures forall i :: 0 <= i < |es| ==> es[i].id in RowsById(es) && RowsById(es)[es[i].id] == es[i]
  {
    if es != [] {
      var init := es[..|es| - 1];
      RowsByIdMeaning(init);
      assert es == init + [es[|es| - 1]];
      forall id
        ensures id in RowsById(es) <==> HasEntry(es, id)
      {
        if HasEntry(init, id) {
          var i :| 0 <= i < |init| && init[i].id == id;
          assert es[i].id == id;
        }
        if HasEntry(es, id) && id != es[|es| - 1].id {
          var i :| 0 <= i < |es| && es[i].id == id;
          assert init[i].id == id;
        }
        if id == es[|es| - 1].id {
          assert es[|es| - 1].id == id;
        }
      }
    }
  }

  lemma DropLast(es: seq<Entry>)
    requires es != [] && DistinctEntries(es)
    ensures var init, last := es[..|es| - 1], es[|es| - 1];
            last.id in RowsById(es) && RowsById(es)[last.id] == last
            && RowsById(es) - {last.id} == RowsById(init)
  {
    var init, last := es[..|es| - 1], es[|es| - 1];
    RowsByIdMeaning(init);
    assert !HasEntry(init, last.id);
  }

  lemma {:induction false} WalkChain(es: seq<Entry>)
    requires DistinctEntries(es) && Linked(es)
    ensures Walk(RowsById(es), LastId(es)) == Some(es)
  {
    if es != [] {
      hide RowsById;
      var init, last := es[..|es| - 1], es[|es| - 1];
      LinkedPrefix(es, |es| - 1);
      WalkChain(init);
      DropLast(es);
      assert ParentOk(es, |es| - 1);
      assert last.parent == LastId(init);
      assert init + [last] == es;
    }
  }

  /** Under `Chain` the path walk terminates without a corruption error and yields every entry. */
  lemma PathIsEntries(s: Session)
    requires Chain(s)
    ensures Path(s) == Some(s.entries)
  {
    WalkChain(s.entries);
  }

  /** A new id extends the path by exactly that entry, at the end; an existing id changes nothing. */
  lemma AppendExtendsPath(s: Session, id: Id, m: Message)
    requires Chain(s)
    ensures var t := Commit(s, PutEntry(id, m));
      if HasEntry(s.entries, id) then t == s
      else Path(s).Some? && exists e: Entry :: (
             e.id == id && e.message == m && e.seqNo == s.nextSeq && Path(t) == Some(Path(s).value + [e]))
  {
    var t := Commit(s, PutEntry(id, m));
    CommitChain(s, PutEntry(id, m));
    PathIsEntries(s);
    PathIsEntries(t);
    if !HasEntry(s.entries, id) {
      var e := Entry(id, s.leaf, s.nextSeq, m);
      assert Path(t) == Some(Path(s).value + [e]);
    }
  }

  function MessagesOf(es: seq<Entry>): (ms: seq<Message>)
    ensures |ms| == |es|
    ensures forall i :: 0 <= i < |es| ==> ms[i] == es[i].message
  {
    if es == [] then [] else MessagesOf(es[..|es| - 1]) + [es[|es| - 1].message]
  }

  /** The transcript a session would hand back: `path_messages` on a chain. */
  function Transcript(s: Session): seq<Message> {
    MessagesOf(s.entries)
  }

  // ---------------------------------------------------------------- reduction

  predicate FinishedIn(rs: seq<Record>, run: nat) {
    exists i :: 0 <= i < |rs| && rs[i].run == run && rs[i].payload.OperationFinished?
  }

  predicate OpenAt(rs: seq<Record>, i: nat)
    requires i < |rs|
  {
    rs[i].payload.OperationStarted? && !FinishedIn(rs, rs[i].run)
  }

  /** Runs with an `operation_started` among the first `n` records and no `operation_finished`. */
  function OpenAmong(rs: seq<Record>, n: nat): seq<nat>
    requires n <= |rs|
  {
    if n == 0 then [] else OpenAmong(rs, n - 1) + (if OpenAt(rs, n - 1) then [rs[n - 1].run] else [])
  }

  function RunRecords(rs: seq<Record>, run: nat): seq<Record> {
    if rs == [] then []
    else RunRecords(rs[..|rs| - 1], run) + (if rs[|rs| - 1].run == run then [rs[|rs| - 1]] else [])
  }

  datatype OpenRun = OpenRun(run: nat, sourceLeaf: Option<Id>, records: seq<Record>)

  /** None when idle, the run when exactly one is open, corruption otherwise. */
  function Reduce(s: Session): Result<Option<OpenRun>, StoreError> {
    var open := OpenAmong(s.records, |s.records|);
    if |open| == 0 then Ok(None)
    else if |open| == 1 then
      var records := RunRecords(s.records, open[0]);
      var source := if records != [] && records[0].payload.OperationStarted?
                    then records[0].payload.sourceLeaf else None;
      Ok(Some(OpenRun(open[0], source, records)))
    else Err(Corrupt)
  }

  ghost predicate NoneOpen(rs: seq<Record>) {
    forall i :: 0 <= i < |rs| ==> !OpenAt(rs, i)
  }

  /** `run` is open and started once, and no other run is open. */
  ghost predicate OnlyOpen(rs: seq<Record>, run: nat) {
    && (exists i :: 0 <= i < |rs| && OpenAt(rs, i) && rs[i].run == run)
    && (forall i, j :: 0 <= i < |rs| && 0 <= j < |rs| && OpenAt(rs, i) && OpenAt(rs, j) ==> i == j)
  }

  lemma {:induction false} OpenAmongNone(rs: seq<Record>, n: nat)
    requires n <= |rs|
    ensures OpenAmong(rs, n) == [] <==> forall i :: 0 <= i < n ==> !OpenAt(rs, i)
  {
    if n != 0 {
      OpenAmongNone(rs, n - 1);
    }
  }

  lemma {:induction false} OpenAmongOne(rs: seq<Record>, n: nat, at: nat)
    requires at < n <= |rs| && OpenAt(rs, at)
    requires forall i :: 0 <= i < n && i != at ==> !OpenAt(rs, i)
    ensures OpenAmong(rs, n) == [rs[at].run]
  {
    if at == n - 1 {
      OpenAmongNone(rs, n - 1);
    } else {
      OpenAmongOne(rs, n - 1, at);
    }
  }

  lemma {:induction false} OpenAmongCount(rs: seq<Record>, n: nat)
    requires n <= |rs|
    ensures |OpenAmong(rs, n)| >= 2 ==> exists i, j :: 0 <= i < j < n && OpenAt(rs, i) && OpenAt(rs, j)
    ensures |OpenAmong(rs, n)| == 1 ==>
      exists i :: 0 <= i < n && OpenAt(rs, i) && OpenAmong(rs, n) == [rs[i].run]
               && forall j :: 0 <= j < n && j != i ==> !OpenAt(rs, j)
  {
    if n != 0 {
      OpenAmongCount(rs, n - 1);
      OpenAmongNone(rs, n - 1);
      if |OpenAmong(rs, n)| >= 2 && OpenAt(rs, n - 1) {
        var i :| 0 <= i < n - 1 && OpenAt(rs, i);
        assert OpenAt(rs, i) && OpenAt(rs, n - 1);
      }
    }
  }

  /** The reducer's three answers, in terms of the records themselves. */
  lemma ReduceMeaning(s: Session)
    ensures Reduce(s) == Ok(None) <==> NoneOpen(s.records)
    ensures forall run: nat :: OnlyOpen(s.records, run) <==>
              Reduce(s).Ok? && Reduce(s).value.Some? && Reduce(s).value.value.run == run
    ensures Reduce(s).Err? <==>
              exists i, j :: 0 <= i < j < |s.records| && OpenAt(s.records, i) && OpenAt(s.records, j)
  {
    var rs := s.records;
    OpenAmongNone(rs, |rs|);
    OpenAmongCount(rs, |rs|);
    if i, j :| 0 <= i < j < |rs| && OpenAt(rs, i) && OpenAt(rs, j) {
      OpenTwice(rs, |rs|, i, j);
    }
    forall run: nat | OnlyOpen(rs, run)
      ensures OpenAmong(rs, |rs|) == [run]
    {
      var i :| 0 <= i < |rs| && OpenAt(rs, i) && rs[i].run == run;
      OpenAmongOne(rs, |rs|, i);
    }
  }

  lemma {:induction false} OpenTwice(rs: seq<Record>, n: nat, i: nat, j: nat)
    requires i < j < n <= |rs| && OpenAt(rs, i) && OpenAt(rs, j)
    ensures |OpenAmong(rs, n)| >= 2
  {
    if j < n - 1 {
      OpenTwice(rs, n - 1, i, j);
    } else {
      OpenAmongNone(rs, n - 1);
    }
  }
}
