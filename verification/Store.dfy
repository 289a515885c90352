/** The store (crates/store/src/lib.rs) as an object over one session's rows. Every database access
    may be refused by the disk; a refused transaction changes nothing. */
module Stores {
  import opened Wrappers
  import opened Llm
  import opened Ids
  import opened Sessions
  import opened Protocols
  import R = Recoveries

  /** No row mentions a UUID the supply has not handed out yet. */
  ghost predicate SupplyOk(s: Session, uuids: nat) {
    forall n: nat :: uuids <= n ==> Unseen(s, n)
  }

  /** What a write may name without touching the supply. */
  predicate Within(w: Write, uuids: nat) {
    match w
    case PutEntry(id, _) => IdWithin(id, uuids)
    case PutRecord(id, run, payload) =>
      IdWithin(id, uuids) && run < uuids && (payload.ToolStarted? ==> IdWithin(payload.resultsEntry, uuids))
    case _ => true
  }

  predicate IdWithin(id: Id, uuids: nat) {
    Base(id) < uuids
  }

  lemma SupplyKept(s: Session, w: Write, uuids: nat)
    requires SupplyOk(s, uuids) && Within(w, uuids)
    ensures SupplyOk(Commit(s, w), uuids)
  {
    forall n: nat | uuids <= n
      ensures Unseen(Commit(s, w), n)
    {
      assert Unseen(s, n);
    }
  }

  function Reversed<T>(xs: seq<T>): (r: seq<T>)
    ensures |r| == |xs|
  {
    if xs == [] then [] else Reversed(xs[1..]) + [xs[0]]
  }

  lemma {:induction false} ReversedSnoc<T>(xs: seq<T>, x: T)
    ensures Reversed(xs + [x]) == [x] + Reversed(xs)
  {
    if xs != [] {
      ReversedSnoc(xs[1..], x);
      assert (xs + [x])[1..] == xs[1..] + [x];
    }
  }

  lemma {:induction false} OpenAmongGrows(rs: seq<Record>, m: nat, n: nat)
    requires m <= n <= |rs|
    ensures |OpenAmong(rs, m)| <= |OpenAmong(rs, n)|
    decreases n - m
  {
    if m < n {
      OpenAmongGrows(rs, m, n - 1);
    }
  }

  /** At most the run's finish record has been added, with this outcome, and only if it had none. */
  ghost predicate FinishOnly(before: seq<Record>, after: seq<Record>, run: nat, outcome: Outcome) {
    after == before
    || (!HasRecord(before, FinishId(run))
        && exists seqNo: nat :: after == before + [Record(FinishId(run), run, seqNo, OperationFinished(outcome))])
  }

  class Store {
    var entries: seq<Entry>
    var records: seq<Record>
    var leaf: Option<Id>
    var marker: Option<nat>
    var nextSeq: nat
    /** How many v4 UUIDs have been drawn. */
    var uuids: nat
    /** Whether the n-th database access succeeds. */
    const disk: nat -> bool
    var accesses: nat
    ghost var log: seq<Write>
    ghost var refusals: nat

    ghost function View(): Session
      reads this
    {
      Session(entries, records, leaf, marker, nextSeq)
    }

    ghost predicate Valid()
      reads this
    {
      Chain(View()) && SupplyOk(View(), uuids)
    }

    /** `create_session`: a lane with no leaf and no open operation. */
    constructor (disk: nat -> bool)
      ensures Valid() && View() == EMPTY && log == [] && refusals == 0 && accesses == 0 && this.disk == disk
    {
      this.disk := disk;
      entries, records, leaf, marker, nextSeq := [], [], None, None, 1;
      uuids, accesses, log, refusals := 0, 0, [], 0;
    }

    method Uuid() returns (n: nat)
      requires Valid()
      modifies this`uuids
      ensures Valid() && n == old(uuids) && uuids == n + 1
      ensures Unseen(View(), n)
    {
      n := uuids;
      uuids := uuids + 1;
    }

    /** The disk grants the `n` accesses from the `first` on. */
    predicate Grants(first: nat, n: nat) {
      forall i :: first <= i < first + n ==> disk(i)
    }

    lemma GrantsParts(first: nat, m: nat, n: nat)
      ensures Grants(first, m + n) <==> Grants(first, m) && Grants(first + m, n)
      ensures Grants(first, 1) <==> disk(first)
    {
      if Grants(first, m) && Grants(first + m, n) {
        forall i | first <= i < first + (m + n)
          ensures disk(i)
        {
          assert i < first + m || first + m <= i < first + m + n;
        }
      }
    }

    method Access() returns (ok: bool)
      modifies this`accesses, this`refusals
      ensures ok == disk(old(accesses)) && accesses == old(accesses) + 1
      ensures refusals == if ok then old(refusals) else old(refusals) + 1
    {
      ok := disk(accesses);
      accesses := accesses + 1;
      if !ok {
        refusals := refusals + 1;
      }
    }

    /** All or nothing: the write is committed and logged, or refused and without effect. */
    twostate predicate Committed(w: Write, ok: bool)
      reads this
    {
      && View() == (if ok then Commit(old(View()), w) else old(View()))
      && log == (if ok then old(log) + [w] else old(log))
      && refusals == (if ok then old(refusals) else old(refusals) + 1)
      && accesses == old(accesses) + 1 && ok == disk(old(accesses))
    }

    method AppendEntry(id: Id, message: Message) returns (r: Result<(), StoreError>)
      requires Valid() && IdWithin(id, uuids)
      modifies this`entries, this`leaf, this`nextSeq, this`accesses, this`refusals, this`log
      ensures Valid() && Committed(PutEntry(id, message), r.Ok?)
      ensures r.Err? ==> r.error == Io
    {
      hide Chain, SupplyOk;
      SupplyKept(View(), PutEntry(id, message), uuids);
      CommitChain(View(), PutEntry(id, message));
      var ok := Access();
      if !ok {
        return Err(Io);
      }
      if !HasEntry(entries, id) {
        var parent := leaf;
        var number := nextSeq;
        nextSeq := nextSeq + 1;
        entries := entries + [Entry(id, parent, number, message)];
        leaf := Some(id);
      }
      log := log + [PutEntry(id, message)];
      r := Ok(());
    }

    method AppendRecord(id: Id, run: nat, payload: Payload) returns (r: Result<(), StoreError>)
      requires Valid() && Within(PutRecord(id, run, payload), uuids)
      modifies this`records, this`nextSeq, this`accesses, this`refusals, this`log
      ensures Valid() && Committed(PutRecord(id, run, payload), r.Ok?)
      ensures r.Err? ==> r.error == Io
    {
      hide Chain, SupplyOk;
      SupplyKept(View(), PutRecord(id, run, payload), uuids);
      CommitChain(View(), PutRecord(id, run, payload));
      var ok := Access();
      if !ok {
        return Err(Io);
      }
      if !HasRecord(records, id) {
        var number := nextSeq;
        nextSeq := nextSeq + 1;
        records := records + [Record(id, run, number, payload)];
      }
      log := log + [PutRecord(id, run, payload)];
      r := Ok(());
    }

    /** The lane row's open-operation column: set, or cleared where it still names the run. */
    method UpdateMarker(run: nat, open: bool) returns (r: Result<(), StoreError>)
      requires Valid()
      modifies this`marker, this`accesses, this`refusals, this`log
      ensures Valid() && Committed(if open then SetMarker(run) else ClearMarker(run), r.Ok?)
      ensures r.Err? ==> r.error == Io
    {
      hide Chain, SupplyOk;
      SupplyKept(View(), if open then SetMarker(run) else ClearMarker(run), uuids);
      CommitChain(View(), if open then SetMarker(run) else ClearMarker(run));
      var ok := Access();
      if !ok {
        return Err(Io);
      }
      if open {
        marker := Some(run);
      } else if marker == Some(run) {
        marker := None;
      }
      log := log + [if open then SetMarker(run) else ClearMarker(run)];
      r := Ok(());
    }

    method UpdateMeta() returns (r: Result<(), StoreError>)
      requires Valid()
      modifies this`accesses, this`refusals, this`log
      ensures Valid() && Committed(PutMeta, r.Ok?)
    {
      hide Chain, SupplyOk;
      var ok := Access();
      if !ok {
        return Err(Io);
      }
      log := log + [PutMeta];
      r := Ok(());
    }

    /** Reading changes no row and commits nothing. */
    twostate predicate OnlyRead(ok: bool)
      reads this
    {
      View() == old(View()) && log == old(log) && uuids == old(uuids)
      && refusals == (if ok then old(refusals) else old(refusals) + 1)
      && accesses == old(accesses) + 1 && ok == disk(old(accesses))
    }

    method EntryExists(id: Id) returns (r: Result<bool, StoreError>)
      modifies this`accesses, this`refusals
      ensures OnlyRead(r.Ok?)
      ensures r.Ok? ==> r.value == HasEntry(entries, id)
      ensures r.Err? ==> r.error == Io
    {
      var ok := Access();
      if !ok {
        return Err(Io);
      }
      r := Ok(HasEntry(entries, id));
    }

    /** Drains the rows along the parent links from the leaf. */
    method DrainPath() returns (r: Option<seq<Entry>>)
      ensures r == Sessions.Path(View())
    {
      var byId: map<Id, Entry> := map[];
      for i := 0 to |entries|
        invariant byId == RowsById(entries[..i])
      {
        assert entries[..i + 1][..i] == entries[..i];
        byId := byId[entries[i].id := entries[i]];
      }
      assert entries[..|entries|] == entries;
      var path: seq<Entry> := [];
      var cursor := leaf;
      assert forall rest: seq<Entry> :: rest + Reversed<Entry>([]) == rest;
      while cursor.Some?
        invariant match Walk(byId, cursor)
                  case Some(rest) => Sessions.Path(View()) == Some(rest + Reversed(path))
                  case None => Sessions.Path(View()) == None
        decreases |byId|
      {
        var id := cursor.value;
        if id !in byId {
          return None;
        }
        var entry := byId[id];
        assert |byId - {id}| < |byId| by { assert (byId - {id}).Keys < byId.Keys; }
        ReversedSnoc(path, entry);
        assert forall rest: seq<Entry> :: (rest + [entry]) + Reversed(path) == rest + Reversed(path + [entry]);
        byId := byId - {id};
        cursor := entry.parent;
        path := path + [entry];
      }
      assert [] + Reversed(path) == Reversed(path);
      r := Some(Reversed(path));
    }

    method Path() returns (r: Result<seq<Entry>, StoreError>)
      modifies this`accesses, this`refusals
      ensures match r
        case Ok(path) => OnlyRead(true) && Sessions.Path(View()) == Some(path)
        case Err(Corrupt) => OnlyRead(true) && Sessions.Path(View()) == None
        case Err(Io) => OnlyRead(false)
    {
      var ok := Access();
      if !ok {
        return Err(Io);
      }
      var path := DrainPath();
      r := if path.Some? then Ok(path.value) else Err(Corrupt);
    }

    method PathMessages() returns (r: Result<seq<Message>, StoreError>)
      requires Valid()
      modifies this`accesses, this`refusals
      ensures Valid() && OnlyRead(r.Ok?)
      ensures r.Ok? ==> r.value == Transcript(View())
      ensures r.Err? ==> r.error == Io
    {
      hide Chain, SupplyOk;
      PathIsEntries(View());
      var path := Path();
      match path
      case Err(e) => r := Err(e);
      case Ok(es) => r := Ok(MessagesOf(es));
    }

    /** The reducer: the runs started and not finished, at most three of them looked at. */
    method OpenRun() returns (r: Result<Option<OpenRun>, StoreError>)
      modifies this`accesses, this`refusals
      ensures r != Err(Io) ==> OnlyRead(true) && r == Reduce(View())
      ensures r == Err(Io) ==> OnlyRead(false)
    {
      var ok := Access();
      if !ok {
        return Err(Io);
      }
      var open: seq<nat> := [];
      var i := 0;
      while i < |records| && |open| < 3
        invariant 0 <= i <= |records|
        invariant open == OpenAmong(records, i)
      {
        if OpenAt(records, i) {
          open := open + [records[i].run];
        }
        i := i + 1;
      }
      OpenAmongGrows(records, i, |records|);
      if |open| == 0 {
        r := Ok(None);
      } else if |open| == 1 {
        var run := open[0];
        var mine: seq<Record> := [];
        for k := 0 to |records|
          invariant mine == RunRecords(records[..k], run)
        {
          assert records[..k + 1][..k] == records[..k];
          if records[k].run == run {
            mine := mine + [records[k]];
          }
        }
        assert records[..|records|] == records;
        var source := if mine != [] && mine[0].payload.OperationStarted? then mine[0].payload.sourceLeaf else None;
        r := Ok(Some(Sessions.OpenRun(run, source, mine)));
      } else {
        r := Err(Corrupt);
      }
    }

    /** `start_operation`: refuses while a run is open; otherwise two transactions. */
    method StartOperation() returns (r: Result<nat, StoreError>)
      requires Valid()
      modifies this
      ensures Valid() && uuids >= old(uuids) && refusals >= old(refusals)
      ensures r.Ok? <==> Reduce(old(View())) == Ok(None) && Grants(old(accesses), 3)
      ensures r.Ok? ==> accesses == old(accesses) + 3
      ensures match r
        case Ok(run) =>
          && Reduce(old(View())) == Ok(None) && Unseen(old(View()), run) && run < uuids
          && refusals == old(refusals)
          && var ws := [PutRecord(Ids.Uuid(run), run, OperationStarted(old(leaf))), SetMarker(run)];
             View() == CommitAll(old(View()), ws) && log == old(log) + ws
        case Err(e) =>
          && (refusals == old(refusals) ==> e == Corrupt && Reduce(old(View())) != Ok(None) && View() == old(View())
                                             && log == old(log))
          && entries == old(entries) && old(records) <= records
          && (View() == old(View())
              || exists run: nat :: Unseen(old(View()), run)
                   && View() == Commit(old(View()), PutRecord(Ids.Uuid(run), run, OperationStarted(old(leaf)))))
    {
      hide Chain, SupplyOk, Unseen;
      var open := OpenRun();
      if open.Err? {
        return Err(open.error);
      }
      if open.value.Some? {
        return Err(Corrupt);
      }
      var run := Uuid();
      var started := AppendRecord(Ids.Uuid(run), run, OperationStarted(leaf));
      if started.Err? {
        return Err(started.error);
      }
      var marked := UpdateMarker(run, true);
      if marked.Err? {
        return Err(marked.error);
      }
      R.CommitTwo(old(View()), PutRecord(Ids.Uuid(run), run, OperationStarted(old(leaf))), SetMarker(run));
      r := Ok(run);
    }

    /** `finish_operation`: the finish record, then the marker. */
    method FinishOperation(run: nat, outcome: Outcome) returns (r: Result<(), StoreError>)
      requires Valid() && run < uuids
      modifies this`records, this`nextSeq, this`marker, this`accesses, this`refusals, this`log
      ensures Valid() && entries == old(entries) && old(records) <= records
      ensures r.Err? ==> r.error == Io
      ensures (r.Ok? <==> Grants(old(accesses), 2)) && (r.Ok? ==> accesses == old(accesses) + 2)
      ensures exists k :: 0 <= k <= 2 && (k == 2 <==> r.Ok?)
                && View() == CommitAll(old(View()), R.FinishRun(run, outcome)[..k])
                && log == old(log) + R.FinishRun(run, outcome)[..k]
      ensures refusals == if r.Ok? then old(refusals) else old(refusals) + 1
      ensures FinishOnly(old(records), records, run, outcome)
    {
      hide Chain, SupplyOk;
      var ws := R.FinishRun(run, outcome);
      R.CommitTwo(View(), ws[0], ws[1]);
      assert ws[..0] == [] && ws[..1] == [ws[0]] && ws[..2] == [ws[0], ws[1]];
      var finished := AppendRecord(FinishId(run), run, OperationFinished(outcome));
      if finished.Err? {
        assert View() == CommitAll(old(View()), ws[..0]);
        return Err(finished.error);
      }
      assert HasRecord(old(records), FinishId(run))
        || records == old(records) + [Record(FinishId(run), run, old(nextSeq), OperationFinished(outcome))];
      var cleared := UpdateMarker(run, false);
      if cleared.Err? {
        assert View() == CommitAll(old(View()), ws[..1]);
        return Err(cleared.error);
      }
      assert View() == CommitAll(old(View()), ws[..2]);
      r := Ok(());
    }
  }
}
