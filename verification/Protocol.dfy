/** The durability protocol of one process driving one session: every committed transaction and
    every tool effect is one event (crates/agent/src/lib.rs `send`/`drive`, crates/harness/src/lib.rs
    `StoreJournal`). A crash is a run of the protocol that stops; only `s` is left of it. */
module Protocols {
  import opened Wrappers
  import opened Llm
  import opened Ids
  import opened Sessions

  /** Where the owning process stands. Everything but the session is lost in a crash. */
  datatype Phase =
    | Ready
    | Opening(run: nat, user: Message)
    | Opened(run: nat, user: Message)
    | Turn(run: nat, attempt: nat)
    | Calling(run: nat, attempt: nat)
    | Replied(run: nat, attempt: nat, ask: Message)
    | Recording(run: nat, attempt: nat, ask: Message, results: nat, intents: seq<ToolIntent>, done: nat)
    | Executing(run: nat, attempt: nat, ask: Message, results: nat, intents: seq<ToolIntent>,
                begun: set<nat>, ended: set<nat>)
    | Finished(run: nat)
    | Unmarked

  /** `memory` is the in-memory transcript, `base` its length when the current run began, and `ran`
      the ghost log of tool effects: (results entry, tool call) of every tool that began. */
  datatype Config = Config(s: Session, phase: Phase, memory: seq<Message>, base: nat, ghost ran: set<(Id, string)>)

  datatype Event =
    | Start(run: nat, user: Message)
    | Mark
    | Prompt(id: nat)
    | Step
    | Reply(id: nat, ask: Message)
    | Provision(results: nat, intents: seq<ToolIntent>)
    | Intend
    | Begin(i: nat)
    | End(i: nat)
    | Results(m: Message)
    | Finish(outcome: Outcome)
    | Unmark
    | Meta

  /** No row mentions the n-th UUID, in any role. */
  predicate Unseen(s: Session, n: nat) {
    && (forall i :: 0 <= i < |s.entries| ==> Base(s.entries[i].id) != n)
    && (forall i :: 0 <= i < |s.records| ==> Base(s.records[i].id) != n && s.records[i].run != n)
    && (forall i :: 0 <= i < |s.records| && s.records[i].payload.ToolStarted? ==>
          Base(s.records[i].payload.resultsEntry) != n)
  }

  predicate NoRepeats(ids: seq<string>) {
    forall i, j :: 0 <= i < j < |ids| ==> ids[i] != ids[j]
  }

  /** The provider's call ids are new within the run and distinct within the message. */
  predicate FreshUses(rs: seq<Record>, run: nat, ids: seq<string>) {
    && NoRepeats(ids)
    && forall i :: 0 <= i < |ids| ==> !HasRecord(rs, ToolId(run, ids[i]))
  }

  /** One intent per tool call of `ask`, in request order. */
  predicate IntentsFor(ask: Message, intents: seq<ToolIntent>) {
    && |intents| == |Uses(ask)|
    && forall i :: 0 <= i < |intents| ==> intents[i].toolUseId == Uses(ask)[i]
  }

  predicate Enabled(c: Config, e: Event) {
    match e
    case Start(run, user) => c.phase.Ready? && Reduce(c.s) == Ok(None) && Unseen(c.s, run) && user.role.User?
    case Mark => c.phase.Opening?
    case Prompt(id) => c.phase.Opened? && Unseen(c.s, id)
    case Step => c.phase.Turn?
    case Reply(id, ask) => c.phase.Calling? && Unseen(c.s, id) && ask.role.Assistant?
                           && FreshUses(c.s.records, c.phase.run, Uses(ask))
    case Provision(results, intents) => c.phase.Replied? && Uses(c.phase.ask) != []
                                        && Unseen(c.s, results) && IntentsFor(c.phase.ask, intents)
    case Intend => c.phase.Recording? && c.phase.done < |c.phase.intents|
    case Begin(i) => c.phase.Executing? && i < |c.phase.intents| && i !in c.phase.begun
    case End(i) => c.phase.Executing? && i in c.phase.begun && i !in c.phase.ended
    case Results(m) => c.phase.Executing? && (forall i :: 0 <= i < |c.phase.intents| ==> i in c.phase.ended)
                       && AnswersExactly(m, Uses(c.phase.ask))
    case Finish(outcome) =>
      if c.phase.Replied? then Uses(c.phase.ask) == [] && (outcome.Completed? || outcome.Truncated?)
      else (c.phase.Turn? || c.phase.Calling?) && outcome.Failed?
    case Unmark => c.phase.Finished?
    case Meta => c.phase.Unmarked?
  }

  /** The transaction an event commits, if it commits one. */
  function Writes(c: Config, e: Event): seq<Write>
    requires Enabled(c, e)
  {
    match e
    case Start(run, user) => [PutRecord(Uuid(run), run, OperationStarted(c.s.leaf))]
    case Mark => [SetMarker(c.phase.run)]
    case Prompt(id) => [PutEntry(Uuid(id), c.phase.user)]
    case Step => [PutRecord(StepId(c.phase.run, c.phase.attempt + 1), c.phase.run, StepAttempt(c.phase.attempt + 1))]
    case Reply(id, ask) => [PutEntry(Uuid(id), ask)]
    case Intend =>
      var intent := c.phase.intents[c.phase.done];
      [PutRecord(ToolId(c.phase.run, intent.toolUseId), c.phase.run, ToolStarted(intent, Uuid(c.phase.results)))]
    case Results(m) => [PutEntry(Uuid(c.phase.results), m)]
    case Finish(outcome) => [PutRecord(FinishId(c.phase.run), c.phase.run, OperationFinished(outcome))]
    case Unmark => [ClearMarker(c.phase.run)]
    case Meta => [PutMeta]
    case _ => []
  }

  function NextPhase(c: Config, e: Event): Phase
    requires Enabled(c, e)
  {
    var p := c.phase;
    match e
    case Start(run, user) => Opening(run, user)
    case Mark => Opened(p.run, p.user)
    case Prompt(_) => Turn(p.run, 0)
    case Step => Calling(p.run, p.attempt + 1)
    case Reply(_, ask) => Replied(p.run, p.attempt, ask)
    case Provision(results, intents) => Recording(p.run, p.attempt, p.ask, results, intents, 0)
    case Intend =>
      if p.done + 1 < |p.intents| then p.(done := p.done + 1)
      else Executing(p.run, p.attempt, p.ask, p.results, p.intents, {}, {})
    case Begin(i) => p.(begun := p.begun + {i})
    case End(i) => p.(ended := p.ended + {i})
    case Results(_) => Turn(p.run, p.attempt)
    case Finish(_) => Finished(p.run)
    case Unmark => Unmarked
    case Meta => Ready
  }

  /** Messages are pushed once their rows are durable: a prompt at once, an assistant message only
      together with its results, or when it asks for none and the run is about to close. */
  function NextMemory(c: Config, e: Event): seq<Message>
    requires Enabled(c, e)
  {
    match e
    case Prompt(_) => c.memory + [c.phase.user]
    case Results(m) => c.memory + [c.phase.ask, m]
    case Finish(_) => if c.phase.Replied? then c.memory + [c.phase.ask] else c.memory
    case _ => c.memory
  }

  ghost function Next(c: Config, e: Event): Config
    requires Enabled(c, e)
  {
    Config(CommitAll(c.s, Writes(c, e)), NextPhase(c, e), NextMemory(c, e),
           if e.Start? then |c.memory| else c.base,
           if e.Begin? then c.ran + {(Uuid(c.phase.results), c.phase.intents[e.i].toolUseId)} else c.ran)
  }

  ghost function Advance(c: Config, e: Event): Option<Config> {
    if Enabled(c, e) then Some(Next(c, e)) else None
  }
}
