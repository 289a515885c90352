/** What every event of the protocol keeps, and what a crash therefore always leaves behind. */
module Invariants {
  import opened Wrappers
  import opened Llm
  import opened Ids
  import opened Sessions
  import opened Recoveries
  import opened Protocols
  import opened Plays

  // ---------------------------------------------------------------- answered tool calls

  /** Entry `j` holds results, nothing else, for distinct calls of the entry just before it: a prefix
      of those calls, in request order. */
  predicate ResultsOk(es: seq<Entry>, j: nat)
    requires j < |es|
  {
    j >= 1 &&
    var m := es[j].message;
    m.role.User? && |m.content| == |AnswersIn(m.content)|
    && AnswersIn(m.content) <= Uses(es[j - 1].message) && NoRepeats(AnswersIn(m.content))
  }

  predicate AnsweredBy(es: seq<Entry>, j: nat, results: Id, use: string) {
    j < |es| && es[j].id == results && ResultsOk(es, j) && use in AnswersIn(es[j].message.content)
  }

  /** A tool intent's results landed at its provisioned entry. */
  ghost predicate Answered(es: seq<Entry>, r: Record) {
    r.payload.ToolStarted? ==>
      exists j: nat :: AnsweredBy(es, j, r.payload.resultsEntry, r.payload.intent.toolUseId)
  }

  predicate CompleteAt(es: seq<Entry>, j: nat, results: Id) {
    1 <= j < |es| && es[j].id == results && AnswersExactly(es[j].message, Uses(es[j - 1].message))
  }

  predicate IntentIs(r: Record, run: nat, results: Id, use: string) {
    r.run == run && r.payload.ToolStarted? && r.payload.resultsEntry == results
    && r.payload.intent.toolUseId == use
  }

  function LastUses(es: seq<Entry>): seq<string> {
    if es == [] then [] else Uses(es[|es| - 1].message)
  }

  /** The records from `from` on are intents of the open run for the first calls of the last message,
      all provisioning one results entry that has not landed. */
  ghost predicate Pending(s: Session, from: nat)
    requires from < |s.records|
  {
    var r, uses := s.records[from], LastUses(s.entries);
    && r.payload.ToolStarted?
    && OnlyOpen(s.records, r.run)
    && !HasEntry(s.entries, r.payload.resultsEntry)
    && |s.records| - from <= |uses|
    && NoRepeats(uses)
    && (forall i :: from <= i < |s.records| ==>
          IntentIs(s.records[i], r.run, r.payload.resultsEntry, uses[i - from]))
  }

  /** Every intent is answered, save those of one interrupted batch at the very end. */
  ghost predicate Suspended(s: Session, from: nat) {
    && from <= |s.records|
    && (forall i :: 0 <= i < from ==> Answered(s.entries, s.records[i]))
    && (from < |s.records| ==> Pending(s, from))
  }

  ghost predicate AtMostOneOpen(rs: seq<Record>) {
    forall i, j :: 0 <= i < |rs| && 0 <= j < |rs| && OpenAt(rs, i) && OpenAt(rs, j) ==> i == j
  }

  /** A closing entry of a run still open is the end of the path, and all its batches are answered. */
  ghost predicate ClosingOk(s: Session, from: nat) {
    forall run: nat :: OnlyOpen(s.records, run) && HasEntry(s.entries, ClosingId(run)) ==>
      !EndsOnUser(s) && from == |s.records|
  }

  ghost predicate Recorded(rs: seq<Record>, results: Id, use: string) {
    exists i :: 0 <= i < |rs| && rs[i].payload.ToolStarted? && rs[i].payload.resultsEntry == results
             && rs[i].payload.intent.toolUseId == use
  }

  /** Every call of the batch is answered, or every call of the batch has its intent. */
  ghost predicate WholeBatch(s: Session, from: nat, results: Id) {
    || (exists j: nat :: CompleteAt(s.entries, j, results))
    || (from < |s.records| && |s.records| - from == |LastUses(s.entries)|
        && s.records[from].payload.ToolStarted? && s.records[from].payload.resultsEntry == results)
  }

  /** A tool that began has its intent on disk, and so has every other call of its batch. */
  ghost predicate EffectsOk(s: Session, from: nat, ran: set<(Id, string)>) {
    forall p :: p in ran ==> Recorded(s.records, p.0, p.1) && WholeBatch(s, from, p.0)
  }

  /** What is true of the rows at every instant, and so after a crash at any instant. */
  ghost predicate Durable(s: Session, from: nat, ran: set<(Id, string)>) {
    Chain(s) && NamedRecords(s.records) && AtMostOneOpen(s.records) && Suspended(s, from)
    && ClosingOk(s, from) && EffectsOk(s, from, ran)
  }

  // ---------------------------------------------------------------- the protocol's invariant

  function Gap(p: Phase): seq<Message> {
    match p
    case Replied(_, _, ask) => [ask]
    case Recording(_, _, ask, _, _, _) => [ask]
    case Executing(_, _, ask, _, _, _, _) => [ask]
    case _ => []
  }

  /** How many records at the end are intents of the batch in progress. */
  function InFlight(p: Phase): nat {
    match p
    case Recording(_, _, _, _, _, done) => done
    case Executing(_, _, _, _, intents, _, _) => |intents|
    case _ => 0
  }

  function From(c: Config): nat {
    if InFlight(c.phase) <= |c.s.records| then |c.s.records| - InFlight(c.phase) else 0
  }

  ghost predicate Running(s: Session, run: nat) {
    OnlyOpen(s.records, run) && !HasEntry(s.entries, ClosingId(run))
  }

  /** The last `n` records are the intents for the first `n` calls of `ask`. */
  ghost predicate BatchTail(s: Session, run: nat, ask: Message, results: nat, n: nat) {
    && n <= |s.records| && n <= |Uses(ask)|
    && !HasEntry(s.entries, Uuid(results))
    && NoRepeats(Uses(ask))
    && (forall i :: |s.records| - n <= i < |s.records| ==>
          IntentIs(s.records[i], run, Uuid(results), Uses(ask)[i - (|s.records| - n)]))
  }

  ghost predicate PhaseOk(s: Session, p: Phase) {
    match p
    case Ready => NoneOpen(s.records)
    case Opening(run, user) => Running(s, run) && user.role.User?
    case Opened(run, user) => Running(s, run) && user.role.User?
    case Turn(run, _) => Running(s, run)
    case Calling(run, _) => Running(s, run)
    case Replied(run, _, ask) => Running(s, run) && ask.role.Assistant? && FreshUses(s.records, run, Uses(ask))
    case Recording(run, _, ask, results, intents, done) =>
      Running(s, run) && IntentsFor(ask, intents) && done < |intents| && BatchTail(s, run, ask, results, done)
      && forall k :: done <= k < |intents| ==> !HasRecord(s.records, ToolId(run, Uses(ask)[k]))
    case Executing(run, _, ask, results, intents, _, _) =>
      Running(s, run) && IntentsFor(ask, intents) && |intents| > 0 && BatchTail(s, run, ask, results, |intents|)
    case Finished(_) => NoneOpen(s.records)
    case Unmarked => NoneOpen(s.records)
  }

  /** The store is the memory plus what the current step still owes it; the run's part of the memory
      is paired; and the rows are what `Durable` says. */
  ghost predicate Inv(c: Config) {
    && Durable(c.s, From(c), c.ran)
    && PhaseOk(c.s, c.phase)
    && c.base <= |c.memory|
    && PairedFrom(c.memory, c.base)
    && Transcript(c.s) == c.memory + Gap(c.phase)
  }

  // ---------------------------------------------------------------- helper facts

  lemma AnsweredGrows(es: seq<Entry>, e: Entry, r: Record)
    requires Answered(es, r)
    ensures Answered(es + [e], r)
  {
    if r.payload.ToolStarted? {
      var j: nat :| AnsweredBy(es, j, r.payload.resultsEntry, r.payload.intent.toolUseId);
      assert AnsweredBy(es + [e], j, r.payload.resultsEntry, r.payload.intent.toolUseId);
    }
  }

  lemma CompleteGrows(es: seq<Entry>, e: Entry, results: Id)
    requires exists j: nat :: CompleteAt(es, j, results)
    ensures exists j: nat :: CompleteAt(es + [e], j, results)
  {
    var j: nat :| CompleteAt(es, j, results);
    assert CompleteAt(es + [e], j, results);
  }

  lemma RecordedGrows(rs: seq<Record>, r: Record, results: Id, use: string)
    requires Recorded(rs, results, use)
    ensures Recorded(rs + [r], results, use)
  {
    var i :| 0 <= i < |rs| && rs[i].payload.ToolStarted? && rs[i].payload.resultsEntry == results
             && rs[i].payload.intent.toolUseId == use;
    assert (rs + [r])[i] == rs[i];
  }

  /** A record that neither opens nor finishes a run leaves the open runs as they are. */
  lemma NeutralRecord(rs: seq<Record>, r: Record)
    requires !r.payload.OperationStarted? && !r.payload.OperationFinished?
    ensures forall i :: 0 <= i < |rs| ==> OpenAt(rs + [r], i) == OpenAt(rs, i)
    ensures AtMostOneOpen(rs) ==> AtMostOneOpen(rs + [r])
    ensures NoneOpen(rs) ==> NoneOpen(rs + [r])
    ensures forall run: nat :: OnlyOpen(rs + [r], run) <==> OnlyOpen(rs, run)
  {
    var all := rs + [r];
    forall i | 0 <= i < |rs|
      ensures OpenAt(all, i) == OpenAt(rs, i)
    {
      FinishedGrows(rs, r, rs[i].run);
    }
    forall run: nat
      ensures OnlyOpen(all, run) <==> OnlyOpen(rs, run)
    {
      if OnlyOpen(rs, run) {
        var i :| 0 <= i < |rs| && OpenAt(rs, i) && rs[i].run == run;
        assert OpenAt(all, i);
      }
      if OnlyOpen(all, run) {
        var i :| 0 <= i < |all| && OpenAt(all, i) && all[i].run == run;
        assert OpenAt(rs, i);
        assert forall k :: 0 <= k < |rs| && OpenAt(rs, k) ==> OpenAt(all, k);
      }
    }
  }

  /** Adding an entry while every intent is answered. */
  lemma PlainEntry(s: Session, id: Id, m: Message, ran: set<(Id, string)>)
    requires Durable(s, |s.records|, ran) && !HasEntry(s.entries, id)
    requires forall run: nat :: OnlyOpen(s.records, run) && (id == ClosingId(run) || HasEntry(s.entries, ClosingId(run)))
               ==> m.role.Assistant?
    ensures Durable(Commit(s, PutEntry(id, m)), |s.records|, ran)
  {
    hide SharedSeq, DistinctEntries, DistinctRecords, Linked;
    var t := Commit(s, PutEntry(id, m));
    var e := Entry(id, s.leaf, s.nextSeq, m);
    CommitChain(s, PutEntry(id, m));
    forall i | 0 <= i < |s.records|
      ensures Answered(t.entries, t.records[i])
    {
      AnsweredGrows(s.entries, e, s.records[i]);
    }
    forall p | p in ran
      ensures Recorded(t.records, p.0, p.1) && WholeBatch(t, |s.records|, p.0)
    {
      assert WholeBatch(s, |s.records|, p.0);
      CompleteGrows(s.entries, e, p.0);
    }
    forall run: nat | OnlyOpen(t.records, run) && HasEntry(t.entries, ClosingId(run))
      ensures !EndsOnUser(t)
    {
      HasEntrySnoc(s.entries, e, ClosingId(run));
    }
  }

  lemma HasEntrySnoc(es: seq<Entry>, e: Entry, id: Id)
    ensures HasEntry(es + [e], id) <==> HasEntry(es, id) || e.id == id
  {
    if HasEntry(es, id) {
      var i :| 0 <= i < |es| && es[i].id == id;
      assert (es + [e])[i].id == id;
    }
    if e.id == id {
      assert (es + [e])[|es|].id == id;
    }
  }

  lemma HasRecordSnoc(rs: seq<Record>, r: Record, id: Id)
    ensures HasRecord(rs + [r], id) <==> HasRecord(rs, id) || r.id == id
  {
    if HasRecord(rs, id) {
      var i :| 0 <= i < |rs| && rs[i].id == id;
      assert (rs + [r])[i].id == id;
    }
    if r.id == id {
      assert (rs + [r])[|rs|].id == id;
    }
  }

  lemma TranscriptSnoc(s: Session, id: Id, m: Message)
    requires !HasEntry(s.entries, id)
    ensures Transcript(Commit(s, PutEntry(id, m))) == Transcript(s) + [m]
  {
    var t := Commit(s, PutEntry(id, m));
    assert t.entries[..|s.entries|] == s.entries;
  }

  /** Adding a record that is not an intent while every intent is answered. */
  lemma PlainRecord(s: Session, w: Write, ran: set<(Id, string)>)
    requires Durable(s, |s.records|, ran) && w.PutRecord? && !w.payload.ToolStarted?
    requires Named(Record(w.id, w.run, 0, w.payload))
    requires AtMostOneOpen(Commit(s, w).records) && ClosingOk(Commit(s, w), |Commit(s, w).records|)
    ensures Durable(Commit(s, w), |Commit(s, w).records|, ran)
  {
    hide SharedSeq, DistinctEntries, DistinctRecords, Linked;
    var t := Commit(s, w);
    CommitChain(s, w);
    forall p | p in ran
      ensures Recorded(t.records, p.0, p.1) && WholeBatch(t, |t.records|, p.0)
    {
      assert WholeBatch(s, |s.records|, p.0);
      if t != s {
        RecordedGrows(s.records, t.records[|s.records|], p.0, p.1);
      }
    }
  }
}
