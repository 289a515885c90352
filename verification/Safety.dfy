/** Every event keeps the invariant, so it holds at every instant of every play. */
module Safety {
  import opened Wrappers
  import opened Llm
  import opened Ids
  import opened Sessions
  import opened Recoveries
  import opened Protocols
  import opened Plays
  import opened Invariants

  lemma One(s: Session, w: Write)
    ensures CommitAll(s, [w]) == Commit(s, w)
  {
    CommitTwo(s, w, w);
  }

  lemma UnseenFresh(s: Session, n: nat)
    requires Unseen(s, n)
    ensures !HasEntry(s.entries, Uuid(n)) && !HasEntry(s.entries, ClosingId(n)) && !HasRecord(s.records, Uuid(n))
    ensures !FinishedIn(s.records, n)
  {}

  lemma StartKeeps(c: Config, e: Event)
    requires Inv(c) && Enabled(c, e) && e.Start?
    ensures Inv(Next(c, e))
  {
    hide SharedSeq, DistinctEntries, DistinctRecords, Linked;
    var s, run := c.s, e.run;
    var w := PutRecord(Uuid(run), run, OperationStarted(s.leaf));
    One(s, w);
    UnseenFresh(s, run);
    var t := Commit(s, w);
    var r := t.records[|s.records|];
    forall i | 0 <= i < |s.records|
      ensures !OpenAt(t.records, i)
    {
      assert !OpenAt(s.records, i);
      FinishedGrows(s.records, r, s.records[i].run);
    }
    FinishedGrows(s.records, r, run);
    assert OpenAt(t.records, |s.records|);
    assert OnlyOpen(t.records, run);
    PlainRecord(s, w, c.ran);
    assert c.memory + [] == c.memory;
  }

  lemma MarkerChain(s: Session, marker: Option<nat>)
    requires Chain(s)
    ensures Chain(s.(marker := marker))
  {}

  lemma MarkerKeeps(s: Session, marker: Option<nat>, from: nat, ran: set<(Id, string)>)
    requires Durable(s, from, ran)
    ensures Durable(s.(marker := marker), from, ran)
  {
    hide SharedSeq, DistinctEntries, DistinctRecords, Linked;
    var t := s.(marker := marker);
    MarkerChain(s, marker);
    assert Suspended(t, from) by {
      if from < |s.records| {
        assert Pending(s, from);
      }
    }
    forall p | p in ran
      ensures Recorded(t.records, p.0, p.1) && WholeBatch(t, from, p.0)
    {
      assert WholeBatch(s, from, p.0);
    }
  }

  lemma MarkKeeps(c: Config, e: Event)
    requires Inv(c) && Enabled(c, e) && (e.Mark? || e.Unmark? || e.Meta?)
    ensures Inv(Next(c, e))
  {
    hide Durable;
    var w := Writes(c, e)[0];
    One(c.s, w);
    var t := Commit(c.s, w);
    assert t == c.s.(marker := t.marker);
    MarkerKeeps(c.s, t.marker, From(c), c.ran);
  }

  lemma PromptKeeps(c: Config, e: Event)
    requires Inv(c) && Enabled(c, e) && e.Prompt?
    ensures Inv(Next(c, e))
  {
    hide Durable, FreshUses, Unseen, HasRecord, BatchTail, IntentsFor, Reduce, MessagesOf;
    var s, user := c.s, c.phase.user;
    One(s, PutEntry(Uuid(e.id), user));
    UnseenFresh(s, e.id);
    OnlyOne(s.records, c.phase.run);
    PlainEntry(s, Uuid(e.id), user, c.ran);
    TranscriptSnoc(s, Uuid(e.id), user);
    HasEntrySnoc(s.entries, Entry(Uuid(e.id), s.leaf, s.nextSeq, user), ClosingId(c.phase.run));
    PairedAppendOne(c.memory, c.base, user);
  }

  lemma OnlyOne(rs: seq<Record>, run: nat)
    requires OnlyOpen(rs, run)
    ensures forall other: nat :: OnlyOpen(rs, other) ==> other == run
  {
    var i :| 0 <= i < |rs| && OpenAt(rs, i) && rs[i].run == run;
  }

  lemma StepKeeps(c: Config, e: Event)
    requires Inv(c) && Enabled(c, e) && e.Step?
    ensures Inv(Next(c, e))
  {
    hide SharedSeq, DistinctEntries, DistinctRecords, Linked;
    var s := c.s;
    var w := Writes(c, e)[0];
    One(s, w);
    NeutralRecord(s.records, Record(w.id, w.run, s.nextSeq, w.payload));
    PlainRecord(s, w, c.ran);
  }

  lemma ReplyKeeps(c: Config, e: Event)
    requires Inv(c) && Enabled(c, e) && e.Reply?
    ensures Inv(Next(c, e))
  {
    hide Durable, FreshUses, PairedFrom, Unseen, HasRecord, BatchTail, IntentsFor, Reduce, MessagesOf;
    var s := c.s;
    One(s, PutEntry(Uuid(e.id), e.ask));
    UnseenFresh(s, e.id);
    OnlyOne(s.records, c.phase.run);
    PlainEntry(s, Uuid(e.id), e.ask, c.ran);
    TranscriptSnoc(s, Uuid(e.id), e.ask);
    HasEntrySnoc(s.entries, Entry(Uuid(e.id), s.leaf, s.nextSeq, e.ask), ClosingId(c.phase.run));
  }

  lemma ProvisionKeeps(c: Config, e: Event)
    requires Inv(c) && Enabled(c, e) && e.Provision?
    ensures Inv(Next(c, e))
  {
    hide Durable;
    UnseenFresh(c.s, e.results);
    assert Next(c, e).s == c.s;
  }

  /** The next intent of a batch lands behind the ones before it. */
  lemma IntentLands(s: Session, from: nat, r: Record, ran: set<(Id, string)>)
    requires Durable(s, from, ran) && Named(r) && r.seqNo == s.nextSeq && !HasRecord(s.records, r.id)
    requires |s.records| - from < |LastUses(s.entries)| && NoRepeats(LastUses(s.entries))
    requires Running(s, r.run) && r.payload.ToolStarted? && !HasEntry(s.entries, r.payload.resultsEntry)
    requires r.payload.intent.toolUseId == LastUses(s.entries)[|s.records| - from]
    requires forall i :: from <= i < |s.records| ==>
               IntentIs(s.records[i], r.run, r.payload.resultsEntry, LastUses(s.entries)[i - from])
    ensures Durable(Commit(s, PutRecord(r.id, r.run, r.payload)), from, ran)
  {
    hide SharedSeq, DistinctEntries, DistinctRecords, Linked;
    var w := PutRecord(r.id, r.run, r.payload);
    var t := Commit(s, w);
    assert t.records == s.records + [r];
    CommitChain(s, w);
    NeutralRecord(s.records, r);
    OnlyOne(t.records, r.run);
    assert Suspended(t, from) by {
      assert forall i :: 0 <= i < from ==> t.records[i] == s.records[i];
      assert IntentIs(t.records[from], r.run, r.payload.resultsEntry, LastUses(s.entries)[0]);
      assert Pending(t, from);
    }
    IntentEffects(s, from, r, ran);
  }

  lemma IntentEffects(s: Session, from: nat, r: Record, ran: set<(Id, string)>)
    requires EffectsOk(s, from, ran) && from <= |s.records|
    requires |s.records| - from < |LastUses(s.entries)|
    ensures EffectsOk(Commit(s, PutRecord(r.id, r.run, r.payload)), from, ran)
  {
    var t := Commit(s, PutRecord(r.id, r.run, r.payload));
    forall q | q in ran
      ensures Recorded(t.records, q.0, q.1) && WholeBatch(t, from, q.0)
    {
      assert WholeBatch(s, from, q.0);
      if t != s {
        RecordedGrows(s.records, t.records[|s.records|], q.0, q.1);
      }
    }
  }

  lemma IntendDurable(c: Config, r: Record)
    requires Inv(c) && Enabled(c, Intend) && [PutRecord(r.id, r.run, r.payload)] == Writes(c, Intend)
    requires r.seqNo == c.s.nextSeq
    ensures Durable(Commit(c.s, PutRecord(r.id, r.run, r.payload)), From(c), c.ran)
    ensures Commit(c.s, PutRecord(r.id, r.run, r.payload))
         == c.s.(records := c.s.records + [r], nextSeq := c.s.nextSeq + 1)
  {
    hide Chain, Suspended, EffectsOk, ClosingOk;
    var p := c.phase;
    assert r.id == ToolId(p.run, Uses(p.ask)[p.done]);
    LastIsAsk(c);
    IntentLands(c.s, From(c), r, c.ran);
  }

  lemma IntendKeeps(c: Config, e: Event)
    requires Inv(c) && Enabled(c, e) && e.Intend?
    ensures Inv(Next(c, e))
  {
    hide Durable;
    var s, w := c.s, Writes(c, e)[0];
    One(s, w);
    var r := Record(w.id, w.run, s.nextSeq, w.payload);
    var d := Next(c, e);
    IntendDurable(c, r);
    NeutralRecord(s.records, r);
    IntendTail(c, r);
    IntendPhase(c, r, d);
    assert From(d) == From(c);
  }

  lemma IntendPhase(c: Config, r: Record, d: Config)
    requires c.phase.Recording? && PhaseOk(c.s, c.phase) && Enabled(c, Intend)
    requires d.s.records == c.s.records + [r] && d.s.entries == c.s.entries && d.phase == NextPhase(c, Intend)
    requires OnlyOpen(d.s.records, c.phase.run)
    requires BatchTail(c.s.(records := d.s.records), c.phase.run, c.phase.ask, c.phase.results, c.phase.done + 1)
    requires forall k :: c.phase.done < k < |c.phase.intents| ==>
               !HasRecord(d.s.records, ToolId(c.phase.run, Uses(c.phase.ask)[k]))
    ensures PhaseOk(d.s, d.phase)
  {
    assert BatchTail(d.s, c.phase.run, c.phase.ask, c.phase.results, c.phase.done + 1);
  }

  lemma LastIsAsk(c: Config)
    requires Inv(c) && Gap(c.phase) != []
    ensures c.s.entries != [] && c.s.entries[|c.s.entries| - 1].message == Gap(c.phase)[0]
  {
    assert |Transcript(c.s)| == |c.memory| + 1;
    assert Transcript(c.s)[|c.memory|] == Gap(c.phase)[0];
  }

  lemma IntendTail(c: Config, r: Record)
    requires Inv(c) && c.phase.Recording?
    requires r.id == ToolId(c.phase.run, Uses(c.phase.ask)[c.phase.done]) && r.run == c.phase.run
    requires r.payload == ToolStarted(c.phase.intents[c.phase.done], Uuid(c.phase.results))
    ensures BatchTail(c.s.(records := c.s.records + [r]), c.phase.run, c.phase.ask, c.phase.results, c.phase.done + 1)
    ensures forall k :: c.phase.done < k < |c.phase.intents| ==>
              !HasRecord(c.s.records + [r], ToolId(c.phase.run, Uses(c.phase.ask)[k]))
  {
    var p := c.phase;
    forall k | p.done < k < |p.intents|
      ensures !HasRecord(c.s.records + [r], ToolId(p.run, Uses(p.ask)[k]))
    {
      HasRecordSnoc(c.s.records, r, ToolId(p.run, Uses(p.ask)[k]));
    }
  }

  lemma EffectBegins(s: Session, from: nat, ran: set<(Id, string)>, i: nat)
    requires Durable(s, from, ran) && from < |s.records| && |s.records| - from == |LastUses(s.entries)|
    requires i < |LastUses(s.entries)|
    ensures Durable(s, from, ran + {(s.records[from].payload.resultsEntry, LastUses(s.entries)[i])})
  {
    hide SharedSeq, DistinctEntries, DistinctRecords, Linked;
    var r := s.records[from];
    assert Pending(s, from);
    assert IntentIs(s.records[from + i], r.run, r.payload.resultsEntry, LastUses(s.entries)[i]);
    assert Recorded(s.records, r.payload.resultsEntry, LastUses(s.entries)[i]);
    assert WholeBatch(s, from, r.payload.resultsEntry);
  }

  lemma EffectKeeps(c: Config, e: Event)
    requires Inv(c) && Enabled(c, e) && (e.Begin? || e.End?)
    ensures Inv(Next(c, e))
  {
    hide Durable;
    var s, p := c.s, c.phase;
    assert Next(c, e).s == s;
    if e.Begin? {
      LastIsAsk(c);
      assert IntentIs(s.records[From(c)], p.run, Uuid(p.results), Uses(p.ask)[0]);
      EffectBegins(s, From(c), c.ran, e.i);
    }
  }

  lemma ResultsDurable(c: Config, m: Message)
    requires Inv(c) && Enabled(c, Results(m))
    ensures Durable(Commit(c.s, PutEntry(Uuid(c.phase.results), m)), |c.s.records|, c.ran)
  {
    hide Chain, Suspended, EffectsOk, ClosingOk;
    var s, p := c.s, c.phase;
    LastIsAsk(c);
    assert IntentIs(s.records[From(c)], p.run, Uuid(p.results), Uses(p.ask)[0]);
    assert Uses(p.ask)[..|s.records| - From(c)] == Uses(p.ask);
    BatchLands(s, From(c), m, c.ran);
  }

  lemma ResultsKeep(c: Config, e: Event)
    requires Inv(c) && Enabled(c, e) && e.Results?
    ensures Inv(Next(c, e))
  {
    hide Durable, IntentIs, AnswersExactly, PairedFrom;
    var s, p := c.s, c.phase;
    var w := PutEntry(Uuid(p.results), e.m);
    One(s, w);
    ResultsDurable(c, e.m);
    TranscriptSnoc(s, w.id, e.m);
    PairedAppend(c.memory, c.base, p.ask, e.m);
    assert (c.memory + [p.ask]) + [e.m] == c.memory + [p.ask, e.m];
    assert Next(c, e).memory + [] == Next(c, e).memory;
    HasEntrySnoc(s.entries, Entry(w.id, s.leaf, s.nextSeq, e.m), ClosingId(p.run));
  }

  lemma LandedAnswers(s: Session, from: nat, e: Entry)
    requires Suspended(s, from) && from < |s.records|
    requires e.id == s.records[from].payload.resultsEntry
    requires AnswersExactly(e.message, LastUses(s.entries)[..|s.records| - from])
    ensures forall i :: 0 <= i < |s.records| ==> Answered(s.entries + [e], s.records[i])
  {
    var es, uses := s.entries + [e], LastUses(s.entries);
    assert Pending(s, from);
    assert AnswersIn(e.message.content) <= uses;
    assert ResultsOk(es, |s.entries|);
    forall i | 0 <= i < |s.records|
      ensures Answered(es, s.records[i])
    {
      if i < from {
        AnsweredGrows(s.entries, e, s.records[i]);
      } else {
        assert IntentIs(s.records[i], s.records[from].run, e.id, uses[i - from]);
        assert AnswersIn(e.message.content)[i - from] == uses[i - from];
        assert AnsweredBy(es, |s.entries|, e.id, uses[i - from]);
      }
    }
  }

  lemma LandedEffects(s: Session, from: nat, t: Session, e: Entry, ran: set<(Id, string)>)
    requires EffectsOk(s, from, ran) && from < |s.records| && s.records[from].payload.ToolStarted?
    requires e.id == s.records[from].payload.resultsEntry && s.entries != []
    requires |s.records| - from <= |LastUses(s.entries)|
    requires AnswersExactly(e.message, LastUses(s.entries)[..|s.records| - from])
    requires t.entries == s.entries + [e] && t.records == s.records
    ensures EffectsOk(t, |t.records|, ran)
  {
    forall p | p in ran
      ensures Recorded(t.records, p.0, p.1) && WholeBatch(t, |t.records|, p.0)
    {
      assert WholeBatch(s, from, p.0);
      if k: nat :| CompleteAt(s.entries, k, p.0) {
        CompleteGrows(s.entries, e, p.0);
      } else {
        assert LastUses(s.entries)[..|s.records| - from] == LastUses(s.entries);
        assert CompleteAt(t.entries, |s.entries|, e.id);
      }
    }
  }

  /** When the provisioned entry lands with results for the intents on record, none is pending. */
  lemma BatchLands(s: Session, from: nat, m: Message, ran: set<(Id, string)>)
    requires Durable(s, from, ran) && from < |s.records|
    requires |s.records| - from <= |LastUses(s.entries)|
    requires AnswersExactly(m, LastUses(s.entries)[..|s.records| - from])
    ensures Durable(Commit(s, PutEntry(s.records[from].payload.resultsEntry, m)), |s.records|, ran)
  {
    hide SharedSeq, DistinctEntries, DistinctRecords, Linked;
    var id := s.records[from].payload.resultsEntry;
    var w := PutEntry(id, m);
    var e := Entry(id, s.leaf, s.nextSeq, m);
    assert Pending(s, from);
    CommitChain(s, w);
    LandedAnswers(s, from, e);
    LandedEffects(s, from, Commit(s, w), e, ran);
    assert ClosingOk(Commit(s, w), |s.records|) by {
      OnlyOne(s.records, s.records[from].run);
      assert Named(s.records[from]);
      HasEntrySnoc(s.entries, e, ClosingId(s.records[from].run));
    }
  }

  lemma FinishKeeps(c: Config, e: Event)
    requires Inv(c) && Enabled(c, e) && e.Finish?
    ensures Inv(Next(c, e))
  {
    hide Durable, PairedFrom, UsesIn;
    var s, p := c.s, c.phase;
    var w := PutRecord(FinishId(p.run), p.run, OperationFinished(e.outcome));
    One(s, w);
    FinishDurable(c, e.outcome);
    var t := Commit(s, w);
    assert t.entries == s.entries;
    if p.Replied? {
      PairedAppendOne(c.memory, c.base, p.ask);
    }
    assert Next(c, e).memory + [] == Next(c, e).memory;
  }

  lemma FinishDurable(c: Config, outcome: Outcome)
    requires Inv(c) && (c.phase.Turn? || c.phase.Calling? || c.phase.Replied?)
    ensures var t := Commit(c.s, PutRecord(FinishId(c.phase.run), c.phase.run, OperationFinished(outcome)));
      Durable(t, |t.records|, c.ran) && NoneOpen(t.records)
  {
    hide Chain, Suspended, EffectsOk, PairedFrom;
    var s, p := c.s, c.phase;
    FinishCloses(s, p.run, outcome);
    PlainRecord(s, PutRecord(FinishId(p.run), p.run, OperationFinished(outcome)), c.ran);
  }

  /** The protocol's inductive step. */
  lemma EventKeeps(c: Config, e: Event)
    requires Inv(c) && Enabled(c, e)
    ensures Inv(Next(c, e))
  {
    hide Inv, Enabled, Next;
    match e
    case Start(_, _) => StartKeeps(c, e);
    case Mark => MarkKeeps(c, e);
    case Prompt(_) => PromptKeeps(c, e);
    case Step => StepKeeps(c, e);
    case Reply(_, _) => ReplyKeeps(c, e);
    case Provision(_, _) => ProvisionKeeps(c, e);
    case Intend => IntendKeeps(c, e);
    case Begin(_) => EffectKeeps(c, e);
    case End(_) => EffectKeeps(c, e);
    case Results(_) => ResultsKeep(c, e);
    case Finish(_) => FinishKeeps(c, e);
    case Unmark => MarkKeeps(c, e);
    case Meta => MarkKeeps(c, e);
  }

  /** Every state a play passes through satisfies the invariant, at every crash point `k`. */
  lemma AlwaysInv(c: Config, es: seq<Event>, k: nat)
    requires Inv(c) && Play(Advance, c, es).Some? && k <= |es|
    ensures Play(Advance, c, es[..k]).Some? && Inv(Play(Advance, c, es[..k]).value)
  {
    PlayPrefix(Advance, c, es, k);
    forall d: Config, e: Event {:trigger Advance(d, e)} | Inv(d) && Advance(d, e).Some?
      ensures Inv(Advance(d, e).value)
    {
      EventKeeps(d, e);
    }
    PlayInvariant(Advance, c, es[..k], Inv);
  }
}
