/** The agent loop (crates/agent/src/lib.rs `send`, `drive`) over the store-backed journal. */
module Agents {
  import opened Wrappers
  import opened Llm
  import opened Ids
  import opened Sessions
  import opened Protocols
  import opened Stores
  import opened Journals
  import opened Traces
  import S = Schedulers
  import R = Recoveries
  import Inv = Invariants

  datatype AgentError =
    | Provider
    | TruncatedReply(partial: string)
    | MaxTurns(turns: nat)
    | Journal(error: JournalError)

  /** What the provider did with its n-th request, and a tool with its n-th execution. */
  datatype Reply = Answered(response: Response) | Refused

  datatype ToolReply = Ran(output: string) | ToolFailed(error: string)

  datatype ToolDecl = ToolDecl(parallelSafe: Json -> bool, replaySafe: bool)

  function OutcomeOf(e: AgentError): Outcome {
    if e.TruncatedReply? then Truncated else Outcome.Failed
  }

  /** How one turn of the loop ended. */
  datatype TurnEnd = Continue | Answer(text: string) | Fail(error: AgentError)

  class Agent {
    const journal: StoreJournal
    const registry: map<string, ToolDecl>
    const maxTurns: nat
    const maxParallel: nat
    /** `cap_result` on the text of one result. */
    const cap: string -> string
    const provider: nat -> Reply
    const tool: nat -> ToolReply
    /** In which order the runtime would have the calls of a batch begin and end, by the executions so far. */
    const pace: nat -> seq<S.Tick>
    var messages: seq<Message>
    /** Provider requests and tool executions made so far. */
    var calls: nat
    var executions: nat
    /** Ghost log: (run, tool call) of every tool that began. */
    ghost var began: set<(nat, string)>

    constructor (journal: StoreJournal, registry: map<string, ToolDecl>, maxTurns: nat, maxParallel: nat,
                 cap: string -> string, provider: nat -> Reply, tool: nat -> ToolReply, pace: nat -> seq<S.Tick>,
                 transcript: seq<Message>)
      ensures this.journal == journal && this.registry == registry && this.maxTurns == maxTurns
      ensures this.maxParallel == maxParallel && this.provider == provider && this.tool == tool && this.pace == pace
      ensures messages == transcript && calls == 0 && executions == 0 && began == {}
    {
      this.journal, this.registry, this.maxTurns, this.maxParallel := journal, registry, maxTurns, maxParallel;
      this.cap, this.provider, this.tool, this.pace, messages := cap, provider, tool, pace, transcript;
      calls, executions, began := 0, 0, {};
    }

    ghost predicate Valid()
      reads this, journal, journal.store
    {
      journal.Valid()
    }

    ghost function View(): Session
      reads journal.store
    {
      journal.store.View()
    }

    // -------------------------------------------------------------- calls and intents

    function IntentOf(b: ContentBlock): ToolIntent
      requires b.ToolUse?
    {
      ToolIntent(b.id, b.name, b.input, b.name in registry && registry[b.name].replaySafe)
    }

    /** One intent per call of the reply, in request order. */
    function IntentsOf(content: seq<ContentBlock>): seq<ToolIntent> {
      if content == [] then []
      else
        var last := content[|content| - 1];
        IntentsOf(content[..|content| - 1]) + (if last.ToolUse? then [IntentOf(last)] else [])
    }

    lemma {:induction false} IntentsMatch(content: seq<ContentBlock>)
      ensures |IntentsOf(content)| == |UsesIn(content)|
      ensures forall i :: 0 <= i < |IntentsOf(content)| ==> IntentsOf(content)[i].toolUseId == UsesIn(content)[i]
    {
      if content != [] {
        var init, last := content[..|content| - 1], content[|content| - 1];
        IntentsMatch(init);
        assert content == init + [last];
        UsesInConcat(init, [last]);
      }
    }

    /** The intent of each call of a reply is for that very call: the `j`-th block, if it is a call, is the
        intent behind those of the calls before it. */
    lemma {:induction false} IntentAt(content: seq<ContentBlock>, j: nat)
      requires j < |content| && content[j].ToolUse?
      ensures var i, b := |UsesIn(content[..j])|, content[j];
        && i < |IntentsOf(content)|
        && IntentsOf(content)[i] == ToolIntent(b.id, b.name, b.input, b.name in registry && registry[b.name].replaySafe)
    {
      var init, last := content[..|content| - 1], content[|content| - 1];
      IntentsMatch(init);
      if j < |init| {
        IntentAt(init, j);
        assert init[..j] == content[..j];
      }
    }

    method Intents(content: seq<ContentBlock>) returns (intents: seq<ToolIntent>)
      ensures intents == IntentsOf(content)
    {
      intents := [];
      for i := 0 to |content|
        invariant intents == IntentsOf(content[..i])
      {
        assert content[..i + 1][..i] == content[..i];
        if content[i].ToolUse? {
          intents := intents + [IntentOf(content[i])];
        }
      }
      assert content[..|content|] == content;
    }

    /** An unknown tool and a failed tool answer too, as errors. */
    function RunTool(intent: ToolIntent, n: nat): S.Output {
      if intent.name !in registry then S.Output("unknown tool: " + intent.name, true)
      else match tool(n)
        case Ran(output) => S.Output(output, false)
        case ToolFailed(error) => S.Output(error, true)
    }

    /** The blocks of the n-th reply, and the ids of its calls. */
    function ContentAt(n: nat): seq<ContentBlock> {
      match provider(n)
      case Answered(response) => response.content
      case Refused => []
    }

    function UsesAt(n: nat): seq<string> {
      UsesIn(ContentAt(n))
    }

    /** The tool-use ids of the replies `lo..hi`, in order. */
    function AllUses(lo: nat, hi: nat): seq<string>
      requires lo <= hi
      decreases hi - lo
    {
      if lo == hi then [] else AllUses(lo, hi - 1) + UsesAt(hi - 1)
    }

    /** Which calls may share a group, judged against their concrete input. */
    function ParallelSafe(intents: seq<ToolIntent>): (p: seq<bool>)
      ensures |p| == |intents|
      ensures forall i :: 0 <= i < |intents| ==>
        (p[i] <==> intents[i].name in registry && registry[intents[i].name].parallelSafe(intents[i].input))
    {
      seq(|intents|, i requires 0 <= i < |intents| =>
        intents[i].name in registry && registry[intents[i].name].parallelSafe(intents[i].input))
    }

    /** The results message of a batch whose first call is the `first`-th tool execution. */
    function BatchResults(intents: seq<ToolIntent>, first: nat): Message {
      ToolResults(seq(|intents|, i requires 0 <= i < |intents| =>
        var output := RunTool(intents[i], first + i);
        ToolResult(intents[i].toolUseId, cap(output.text), output.isError)))
    }

    /** The batch runs under the scheduler; every intent gets its own tool's capped output, in request order. */
    method Execute(intents: seq<ToolIntent>) returns (results: Message, ghost trace: seq<S.Tick>)
      modifies this`executions
      ensures results == BatchResults(intents, old(executions)) && executions == old(executions) + |intents|
      ensures S.Schedule(trace, ParallelSafe(intents), if maxParallel > 1 then maxParallel else 1, |ParallelSafe(intents)|)
      ensures S.EachOnce(trace, 0, |intents|)
      ensures var order, cap := pace(old(executions)), if maxParallel > 1 then maxParallel else 1;
        S.Schedule(order, ParallelSafe(intents), cap, |ParallelSafe(intents)|) ==> trace == order
      ensures |results.content| == |intents| && forall i :: 0 <= i < |intents| ==>
                IsResultOf(results.content[i], intents[i].toolUseId, intents[i].name, old(executions) + i)
      ensures forall i :: 0 <= i < |intents|
                && !(intents[i].name in registry && registry[intents[i].name].parallelSafe(intents[i].input))
                ==> S.Alone(trace, i)
    {
      hide S.Schedule;
      var parallel := ParallelSafe(intents);
      var first := executions;
      var run := (i: nat) => if i < |intents| then RunTool(intents[i], first + i) else S.Output("", true);
      var outputs;
      outputs, trace := S.ExecuteBatch(parallel, maxParallel, run, pace(first));
      ScheduleRuns(trace, parallel, if maxParallel > 1 then maxParallel else 1);
      hide S.Alone, S.EachOnce;
      executions := executions + |intents|;
      results := ToolResults(seq(|intents|, i requires 0 <= i < |intents| && |outputs| == |intents| =>
        ToolResult(intents[i].toolUseId, cap(outputs[i].text), outputs[i].isError)));
    }

    /** What the `n`-th tool execution gives the call: its output, its error, or that there is no such tool;
        the last two as errors, and all of it capped. */
    predicate IsResultOf(r: ContentBlock, id: string, name: string, n: nat) {
      && r.ToolResult? && r.toolUseId == id
      && (name !in registry ==> r.isError && r.content == cap("unknown tool: " + name))
      && (name in registry && tool(n).Ran? ==> !r.isError && r.content == cap(tool(n).output))
      && (name in registry && tool(n).ToolFailed? ==> r.isError && r.content == cap(tool(n).error))
    }

    /** The results of a reply's batch, call by call: each has its own, at its place among the calls. */
    lemma ResultAt(content: seq<ContentBlock>, first: nat, j: nat)
      requires j < |content| && content[j].ToolUse?
      ensures var i, m := |UsesIn(content[..j])|, BatchResults(IntentsOf(content), first);
        && m.role.User? && |m.content| == |UsesIn(content)| && i < |m.content|
        && IsResultOf(m.content[i], content[j].id, content[j].name, first + i)
    {
      IntentsMatch(content);
      IntentAt(content, j);
      hide IntentsOf, UsesIn;
    }

    lemma ResultsAnswer(intents: seq<ToolIntent>, first: nat, ask: Message)
      requires IntentsFor(ask, intents)
      ensures AnswersExactly(BatchResults(intents, first), Uses(ask))
    {
      AnswersOfResults(BatchResults(intents, first).content, Uses(ask));
    }

    // -------------------------------------------------------------- one batch

    /** Recording a batch adds intent records for its own calls only. */
    static lemma {:induction false} NewIntents(s: Session, run: nat, intents: seq<ToolIntent>, results: nat, k: nat)
      requires k <= |intents|
      ensures forall use :: HasRecord(CommitAll(s, IntentWrites(run, intents, results)[..k]).records, ToolId(run, use))
                ==> HasRecord(s.records, ToolId(run, use)) || exists i :: 0 <= i < |intents| && intents[i].toolUseId == use
    {
      var iw := IntentWrites(run, intents, results);
      if k == 0 {
        assert iw[..0] == [];
      } else {
        NewIntents(s, run, intents, results, k - 1);
        var before := CommitAll(s, iw[..k - 1]);
        assert iw[..k] == iw[..k - 1] + [iw[k - 1]];
        CommitAllSnoc(s, iw[..k - 1], iw[k - 1]);
        var w := iw[k - 1];
        forall use | HasRecord(Commit(before, w).records, ToolId(run, use))
          ensures HasRecord(before.records, ToolId(run, use)) || intents[k - 1].toolUseId == use
        {
          Inv.HasRecordSnoc(before.records, Record(w.id, w.run, before.nextSeq, w.payload), ToolId(run, use));
        }
      }
    }

    static lemma LandedTranscript(s: Session, t: Session, results: nat, m: Message)
      requires Unseen(s, results) && t.entries == s.entries
      ensures Transcript(Commit(t, PutEntry(Uuid(results), m))) == Transcript(s) + [m]
    {
      Inv.TranscriptSnoc(t, Uuid(results), m);
    }

    static lemma ScheduleRuns(trace: seq<S.Tick>, parallel: seq<bool>, cap: nat)
      requires S.Schedule(trace, parallel, cap, |parallel|)
      ensures S.EachOnce(trace, 0, |parallel|)
      ensures forall i :: 0 <= i < |parallel| && !parallel[i] ==> S.Alone(trace, i)
    {}

    /** Each call of the reply has its own tool's result at its place, and a call that is not parallel-safe on
        its input ran alone. */
    ghost predicate Served(content: seq<ContentBlock>, m: Message, first: nat, trace: seq<S.Tick>) {
      forall j :: 0 <= j < |content| && content[j].ToolUse? ==>
        var b, i := content[j], |UsesIn(content[..j])|;
        && i < |m.content| && IsResultOf(m.content[i], b.id, b.name, first + i)
        && (!(b.name in registry && registry[b.name].parallelSafe(b.input)) ==> S.Alone(trace, i))
    }

    /** What holds of the intents of a reply holds of its calls. */
    lemma CallsServed(content: seq<ContentBlock>, intents: seq<ToolIntent>, m: Message, trace: seq<S.Tick>, first: nat)
      requires intents == IntentsOf(content) && |m.content| == |intents|
      requires forall i :: 0 <= i < |intents| ==>
                 IsResultOf(m.content[i], intents[i].toolUseId, intents[i].name, first + i)
      requires forall i :: 0 <= i < |intents|
                 && !(intents[i].name in registry && registry[intents[i].name].parallelSafe(intents[i].input))
                 ==> S.Alone(trace, i)
      ensures Served(content, m, first, trace)
    {
      hide IntentsOf, UsesIn, IsResultOf, S.Alone;
      forall j | 0 <= j < |content| && content[j].ToolUse?
        ensures var b, i := content[j], |UsesIn(content[..j])|;
          && i < |m.content| && IsResultOf(m.content[i], b.id, b.name, first + i)
          && (!(b.name in registry && registry[b.name].parallelSafe(b.input)) ==> S.Alone(trace, i))
      {
        IntentAt(content, j);
      }
    }

    /** Every effect since the old state has its intent on disk. */
    twostate predicate IntentsFirst()
      reads this, journal.store
    {
      && old(began) <= began && old(View()).records <= View().records
      && forall e :: e in began && e !in old(began) ==> HasRecord(View().records, ToolId(e.0, e.1))
    }

    /** The protocol went from `c` to `d`, committing exactly what the store logged since. */
    twostate predicate Refines(c: Config, es: seq<Event>, d: Config)
      reads this, journal.store
    {
      exists ws :: Follows(c, es, d, ws) && journal.store.log == old(journal.store.log) + ws
    }

    /** Since `before`, only attempts and intents were recorded: no run was opened and none closed. */
    static predicate NoneClosed(before: seq<Record>, after: seq<Record>) {
      && before <= after
      && forall i :: |before| <= i < |after| ==>
           (after[i].payload.StepAttempt? || after[i].payload.ToolStarted?) && !after[i].id.FinishId?
    }

    static lemma NoneClosedTwice(a: seq<Record>, b: seq<Record>, c: seq<Record>)
      requires NoneClosed(a, b) && NoneClosed(b, c)
      ensures NoneClosed(a, c)
    {}

    static lemma {:induction false} IntentsCloseNone(s: Session, run: nat, intents: seq<ToolIntent>, results: nat, k: nat)
      requires k <= |intents|
      ensures NoneClosed(s.records, CommitAll(s, IntentWrites(run, intents, results)[..k]).records)
    {
      var iw := IntentWrites(run, intents, results);
      if k == 0 {
        assert iw[..0] == [];
      } else {
        IntentsCloseNone(s, run, intents, results, k - 1);
        assert iw[..k] == iw[..k - 1] + [iw[k - 1]];
        CommitAllSnoc(s, iw[..k - 1], iw[k - 1]);
      }
    }

    /** The intents of a batch to disk; then its tools may begin. */
    method Announce(intents: seq<ToolIntent>) returns (r: Result<(), AgentError>, ghost results: nat)
      requires Valid() && journal.runId.Some?
      modifies this`began, journal`pendingResults, journal.store
      ensures Valid() && IntentsFirst() && Transcript(View()) == Transcript(old(View()))
      ensures NoneClosed(old(View()).records, View().records)
      ensures journal.store.refusals == if r.Ok? then old(journal.store.refusals) else old(journal.store.refusals) + 1
      ensures match r
        case Ok(_) =>
          var iw := IntentWrites(journal.runId.value, intents, results);
          && Unseen(old(View()), results) && journal.pendingResults == Some(results)
          && View().entries == old(View()).entries
          && View() == CommitAll(old(View()), iw) && journal.store.log == old(journal.store.log) + iw
        case Err(e) => e.Journal?
      ensures forall use :: HasRecord(View().records, ToolId(journal.runId.value, use)) ==>
                HasRecord(old(View()).records, ToolId(journal.runId.value, use))
                || exists i :: 0 <= i < |intents| && intents[i].toolUseId == use
    {
      hide Chain, SupplyOk, Unseen, CommitAll, HasRecord, MessagesOf, NoneClosed;
      ghost var run, s0 := journal.runId.value, View();
      var recorded;
      recorded, results := journal.ToolBatch(intents);
      ghost var k: nat :| k <= |intents| && (recorded.Ok? <==> k == |intents|)
        && View() == CommitAll(s0, IntentWrites(run, intents, results)[..k])
        && journal.store.log == old(journal.store.log) + IntentWrites(run, intents, results)[..k];
      NewIntents(s0, run, intents, results, k);
      IntentsCloseNone(s0, run, intents, results, k);
      if recorded.Err? {
        return Err(Journal(recorded.error)), results;
      }
      ghost var iw := IntentWrites(run, intents, results);
      assert iw[..|intents|] == iw;
      began := began + set i | 0 <= i < |intents| :: (run, intents[i].toolUseId);
      r := Ok(());
    }

    /** Intents to disk, then the tools, then the results to disk, then both messages to memory. */
    method RunBatch(ask: Message, intents: seq<ToolIntent>, ghost attempt: nat, ghost c: Config)
      returns (r: Result<(), AgentError>, ghost d: Config, ghost es: seq<Event>, ghost trace: seq<S.Tick>)
      requires Valid() && journal.runId.Some? && ask.role.Assistant? && Uses(ask) != [] && IntentsFor(ask, intents)
      requires intents == IntentsOf(ask.content)
      requires Transcript(View()) == messages + [ask]
      modifies this`messages, this`executions, this`began, journal`pendingResults, journal.store
      ensures Valid() && IntentsFirst() && NoneClosed(old(View()).records, View().records)
      ensures journal.store.refusals == if r.Ok? then old(journal.store.refusals) else old(journal.store.refusals) + 1
      ensures match r
        case Ok(_) =>
          && messages == old(messages) + [ask, BatchResults(intents, old(executions))]
          && executions == old(executions) + |intents| && Transcript(View()) == messages
        case Err(e) => e.Journal? && messages == old(messages) && Transcript(View()) == messages + [ask]
      ensures r.Ok? ==> Served(ask.content, messages[|messages| - 1], old(executions), trace)
      ensures r.Ok? && AtReply(c, journal.runId.value, attempt, ask, old(View()), old(messages)) ==>
        Refines(c, es, d) && AtTurn(d, journal.runId.value, attempt, View(), messages) && d.base == c.base
      ensures forall use :: HasRecord(View().records, ToolId(journal.runId.value, use)) ==>
                HasRecord(old(View()).records, ToolId(journal.runId.value, use)) || use in Uses(ask)
    {
      hide Chain, SupplyOk, Follows, S.Schedule, S.EachOnce, Unseen, CommitAll, HasRecord, HasEntry, AnswersExactly, UsesIn,
        AnswersIn, MessagesOf, BatchResults, S.Alone, IsResultOf, IntentsOf, Served, NoneClosed;
      d, es, trace := c, [], [];
      ghost var run, s0, first := journal.runId.value, View(), executions;
      var recorded;
      ghost var results;
      recorded, results := Announce(intents);
      if recorded.Err? {
        return Err(recorded.error), d, es, trace;
      }
      ghost var s1, iw := View(), IntentWrites(run, intents, results);
      var outcome;
      outcome, trace := Execute(intents);
      assert View() == s1;
      ResultsAnswer(intents, first, ask);
      CallsServed(ask.content, intents, outcome, trace, first);
      var landed := journal.ToolResults(outcome);
      if landed.Err? {
        return Err(Journal(landed.error)), d, es, trace;
      }
      LandedTranscript(s0, s1, results, outcome);
      messages := messages + [ask];
      messages := messages + [outcome];
      assert messages == old(messages) + [ask, outcome];
      if AtReply(c, run, attempt, ask, s0, old(messages)) {
        d, es := CanBatch(c, results, intents, trace, outcome);
        assert journal.store.log == old(journal.store.log) + (iw + [PutEntry(Uuid(results), outcome)]);
      }
      r := Ok(());
    }

    // -------------------------------------------------------------- one turn

    /** The reply to disk. */
    method KeepReply(ask: Message, ghost attempt: nat, ghost c: Config)
      returns (r: Result<(), AgentError>, ghost d: Config, ghost es: seq<Event>)
      requires Valid() && journal.runId.Some? && Transcript(View()) == messages && ask.role.Assistant?
      modifies journal.store
      ensures Valid() && IntentsFirst() && View().records == old(View()).records
      ensures match r
        case Ok(_) => journal.store.refusals == old(journal.store.refusals) && Transcript(View()) == messages + [ask]
        case Err(e) => e.Journal? && journal.store.refusals == old(journal.store.refusals) + 1 && Transcript(View()) == messages
      ensures journal.store.accesses == old(journal.store.accesses) + 1
      ensures r.Ok? <==> journal.store.disk(old(journal.store.accesses))
      ensures r.Ok? && c.phase == Calling(journal.runId.value, attempt) && c.s == old(View()) && c.memory == messages
              && FreshUses(c.s.records, journal.runId.value, Uses(ask))
        ==> Refines(c, es, d) && d.base == c.base && AtReply(d, journal.runId.value, attempt, ask, View(), messages)
    {
      hide Chain, SupplyOk, Follows, Unseen, HasRecord, HasEntry, UsesIn, MessagesOf, FreshUses;
      d, es := c, [];
      ghost var run, s0 := journal.runId.value, View();
      var put := journal.AssistantMessage(ask);
      ghost var id: nat :| Unseen(s0, id) && View() == (if put.Ok? then Commit(s0, PutEntry(Uuid(id), ask)) else s0)
        && journal.store.log == (if put.Ok? then old(journal.store.log) + [PutEntry(Uuid(id), ask)] else old(journal.store.log));
      if put.Err? {
        return Err(Journal(put.error)), d, es;
      }
      LandedTranscript(s0, s0, id, ask);
      if c.phase == Calling(run, attempt) && c.s == s0 && c.memory == messages && FreshUses(c.s.records, run, Uses(ask)) {
        d := CanReply(c, id, ask);
        es := [Reply(id, ask)];
      }
      r := Ok(());
    }

    /** The step record. */
    method TakeStep(attempt: nat, ghost c: Config) returns (r: Result<(), AgentError>, ghost d: Config, ghost es: seq<Event>)
      requires Valid() && journal.runId.Some? && Transcript(View()) == messages && attempt > 0
      modifies journal.store
      ensures Valid() && IntentsFirst() && Transcript(View()) == messages
      ensures journal.store.accesses == old(journal.store.accesses) + 1
      ensures r.Ok? <==> journal.store.disk(old(journal.store.accesses))
      ensures NoneClosed(old(View()).records, View().records)
      ensures match r
        case Ok(_) => journal.store.refusals == old(journal.store.refusals)
        case Err(e) => e.Journal? && journal.store.refusals == old(journal.store.refusals) + 1
      ensures forall use :: HasRecord(View().records, ToolId(journal.runId.value, use)) ==
                            HasRecord(old(View()).records, ToolId(journal.runId.value, use))
      ensures r.Ok? && AtTurn(c, journal.runId.value, attempt - 1, old(View()), messages)
              && FreshUses(old(View()).records, journal.runId.value, UsesAt(calls))
        ==> Refines(c, es, d) && d.base == c.base
            && d.phase == Calling(journal.runId.value, attempt) && d.s == View() && d.memory == messages
            && FreshUses(View().records, journal.runId.value, UsesAt(calls))
    {
      hide Chain, SupplyOk, Follows, HasRecord, HasEntry, UsesIn, MessagesOf, FreshUses;
      d, es := c, [];
      ghost var run, s0 := journal.runId.value, View();
      var stepped := journal.StepAttempt(attempt);
      forall use
        ensures HasRecord(View().records, ToolId(run, use)) == HasRecord(s0.records, ToolId(run, use))
      {
        StepAddsNoIntent(s0, run, attempt, use);
      }
      if stepped.Err? {
        return Err(Journal(stepped.error)), d, es;
      }
      if AtTurn(c, run, attempt - 1, s0, messages) && FreshUses(s0.records, run, UsesAt(calls)) {
        d := CanStep(c);
        es := [Step];
        StepKeepsFresh(s0, run, attempt, UsesAt(calls));
      }
      r := Ok(());
    }

    /** The step record, the provider request, and its reply to disk. */
    method Consult(attempt: nat, ghost c: Config)
      returns (r: Result<Response, AgentError>, ghost d: Config, ghost es: seq<Event>)
      requires Valid() && journal.runId.Some? && Transcript(View()) == messages && attempt > 0
      modifies this`calls, journal.store
      ensures Valid() && IntentsFirst() && old(calls) <= calls <= old(calls) + 1
      ensures journal.store.refusals == old(journal.store.refusals) ==> calls == old(calls) + 1
      ensures journal.store.Grants(old(journal.store.accesses), 2) && provider(old(calls)).Answered? ==>
        r.Ok? && journal.store.accesses == old(journal.store.accesses) + 2
      ensures NoneClosed(old(View()).records, View().records)
      ensures match r
        case Ok(response) =>
          && journal.store.refusals == old(journal.store.refusals)
          && calls == old(calls) + 1 && provider(old(calls)) == Answered(response)
          && Transcript(View()) == messages + [Message(Assistant, response.content)]
        case Err(e) =>
          && Transcript(View()) == messages && (e.Provider? || e.Journal?)
          && (journal.store.refusals == old(journal.store.refusals) <==> e.Provider?)
          && old(journal.store.refusals) <= journal.store.refusals <= old(journal.store.refusals) + 1
      ensures AtTurn(c, journal.runId.value, attempt - 1, old(View()), messages)
              && FreshUses(old(View()).records, journal.runId.value, UsesAt(old(calls)))
              && journal.store.refusals == old(journal.store.refusals)
        ==> Refines(c, es, d) && d.base == c.base
            && match r
               case Ok(response) => AtReply(d, journal.runId.value, attempt, Message(Assistant, response.content), View(), messages)
               case Err(_) => AtEnd(d, journal.runId.value, Outcome.Failed, View(), messages)
      ensures forall use :: HasRecord(View().records, ToolId(journal.runId.value, use)) ==
                            HasRecord(old(View()).records, ToolId(journal.runId.value, use))
    {
      hide NoneClosed, Store.Grants, Chain, SupplyOk, Follows, Unseen, CommitAll, HasRecord, HasEntry, UsesIn, MessagesOf, FreshUses,
        AnswersIn, Transcript, Commit;
      journal.store.GrantsParts(journal.store.accesses, 1, 1);
      journal.store.GrantsParts(journal.store.accesses + 1, 1, 0);
      d, es := c, [];
      ghost var run, s0, log0 := journal.runId.value, View(), journal.store.log;
      ghost var inStep := AtTurn(c, run, attempt - 1, s0, messages) && FreshUses(s0.records, run, UsesAt(calls));
      var stepped;
      stepped, d, es := TakeStep(attempt, c);
      if stepped.Err? {
        return Err(stepped.error), d, es;
      }
      ghost var log1, es1, c1 := journal.store.log, es, d;
      ghost var ws1: seq<Write>;
      if inStep {
        ws1 :| Follows(c, es1, c1, ws1) && log1 == log0 + ws1;
      }
      var reply := provider(calls);
      calls := calls + 1;
      if reply.Refused? {
        return Err(Provider), d, es;
      }
      var response := reply.response;
      var ask := Message(Assistant, response.content);
      NoUses(response.content);
      var kept;
      ghost var es2;
      kept, d, es2 := KeepReply(ask, attempt, c1);
      if kept.Err? {
        return Err(kept.error), d, es;
      }
      if inStep {
        ghost var ws2 :| Follows(c1, es2, d, ws2) && journal.store.log == log1 + ws2;
        JoinRuns(c, es1, c1, ws1, es2, d, ws2, log0, log1, journal.store.log);
        es := es1 + es2;
      }
      r := Ok(response);
    }

    /** What is on disk beyond the memory: nothing, or an assistant message whose calls were refused
        their intents or their results. */
    static ghost predicate Owed(gap: seq<Message>) {
      gap == [] || (|gap| == 1 && Uses(gap[0]) != [])
    }

    lemma NoUses(content: seq<ContentBlock>)
      ensures Uses(Message(Assistant, content)) == UsesIn(content)
    {}

    static lemma JoinRuns(c: Config, a: seq<Event>, d: Config, v: seq<Write>, b: seq<Event>, f: Config, w: seq<Write>,
                          log0: seq<Write>, log1: seq<Write>, log2: seq<Write>)
      requires Follows(c, a, d, v) && Follows(d, b, f, w) && log1 == log0 + v && log2 == log1 + w
      ensures Follows(c, a + b, f, v + w) && log2 == log0 + (v + w)
    {
      hide Follows;
      FollowsConcat(c, a, d, v, b, f, w);
    }

    /** No call in the reply: the message joins the memory and the run is closed, unless it was cut. */
    method Conclude(response: Response, ghost attempt: nat, ghost c: Config)
      returns (end: TurnEnd, ghost d: Config, ghost es: seq<Event>)
      requires Valid() && journal.runId.Some? && UsesIn(response.content) == []
      requires Transcript(View()) == messages + [Message(Assistant, response.content)]
      modifies this`messages, journal`runId, journal`finishes, journal.store
      ensures Valid() && IntentsFirst() && messages == old(messages) + [Message(Assistant, response.content)]
      ensures Transcript(View()) == messages
      ensures journal.finishes == old(journal.finishes) + (if response.stopReason.MaxTokens? then 0 else 1)
      ensures !response.stopReason.MaxTokens? ==> (end.Answer? <==> journal.store.Grants(old(journal.store.accesses), 4))
      ensures if response.stopReason.MaxTokens? then View().records == old(View()).records
              else FinishOnly(old(View()).records, View().records, old(journal.runId).value, Completed)
      ensures end.Answer? ==> HasRecord(View().records, FinishId(old(journal.runId).value))
      ensures end.Fail? && end.error.TruncatedReply? ==> end.error.partial == TextOf(Message(Assistant, response.content))
      ensures match end
        case Continue => false
        case Answer(text) => !response.stopReason.MaxTokens? && text == TextOf(Message(Assistant, response.content))
                             && journal.runId == None && journal.store.refusals == old(journal.store.refusals)
        case Fail(e) => journal.runId == old(journal.runId)
                        && (e.TruncatedReply? <==> response.stopReason.MaxTokens?) && (e.TruncatedReply? || e.Journal?)
                        && journal.store.refusals == old(journal.store.refusals) + (if e.TruncatedReply? then 0 else 1)
      ensures AtReply(c, old(journal.runId).value, attempt, Message(Assistant, response.content), old(View()), old(messages))
              && journal.store.refusals == old(journal.store.refusals)
        ==> Refines(c, es, d) && d.base == c.base
            && (end.Answer? ==> d.phase.Ready? && d.s == View() && d.memory == messages
                                && es == [Event.Finish(Completed), Unmark, Meta])
            && (end.Fail? ==> AtEnd(d, old(journal.runId).value, OutcomeOf(end.error), View(), messages))
      ensures forall use :: HasRecord(View().records, ToolId(old(journal.runId).value, use)) ==>
                            HasRecord(old(View()).records, ToolId(old(journal.runId).value, use))
    {
      hide Chain, SupplyOk, Follows, HasEntry, UsesIn, TextsIn, Join;
      d, es := c, [];
      ghost var run, s0 := journal.runId.value, View();
      var ask := Message(Assistant, response.content);
      NoUses(response.content);
      var text := TextOf(ask);
      messages := messages + [ask];
      FollowsNothing(c);
      assert journal.store.log == old(journal.store.log) + [];
      if response.stopReason.MaxTokens? {
        return Fail(TruncatedReply(text)), d, es;
      }
      var finished := journal.RunFinished(Completed);
      FinishAddsNoIntent(s0, View(), run);
      if finished.Err? {
        return Fail(Journal(finished.error)), d, es;
      }
      if AtReply(c, run, attempt, ask, s0, old(messages)) {
        d := CanFinish(c, Completed);
        es := [Event.Finish(Completed), Unmark, Meta];
        assert journal.store.log == old(journal.store.log) + (R.FinishRun(run, Completed) + [PutMeta]);
      }
      end := Answer(text);
    }

    function ReplyAt(n: nat): Message {
      Message(Assistant, ContentAt(n))
    }

    /** What a turn with calls adds: the n-th reply and the results of its batch. */
    function Exchange(n: nat, first: nat): seq<Message> {
      [ReplyAt(n), BatchResults(IntentsOf(ContentAt(n)), first)]
    }

    /** A turn called `run_finished`: it answered, or it concluded in vain and kept the reply in memory. */
    static predicate Concluded(end: TurnEnd, before: seq<Message>, after: seq<Message>) {
      end.Answer? || (end.Fail? && end.error.Journal? && after != before)
    }

    /** The n-th reply is complete and asks for nothing. */
    predicate PlainAt(n: nat) {
      provider(n).Answered? && UsesAt(n) == [] && !provider(n).response.stopReason.MaxTokens?
    }

    /** The n-th reply asks for nothing and was cut at the token limit. */
    predicate CutAt(n: nat) {
      provider(n).Answered? && UsesAt(n) == [] && provider(n).response.stopReason.MaxTokens?
    }

    /** Since `before` the run was closed at most once, with `outcome`, and nothing else was opened or closed. */
    static ghost predicate ClosesAs(before: seq<Record>, after: seq<Record>, run: nat, outcome: Outcome) {
      exists mid :: NoneClosed(before, mid) && FinishOnly(mid, after, run, outcome)
    }

    /** What a turn leaves on record: a completed run at most when its reply was complete and asked for
        nothing. A turn reports a cut reply only when there was one. */
    ghost predicate TurnRecords(end: TurnEnd, concluded: bool, n: nat, before: seq<Record>, after: seq<Record>, run: nat) {
      && (if concluded then ClosesAs(before, after, run, Completed) && PlainAt(n) else NoneClosed(before, after))
      && (end.Answer? ==> HasRecord(after, FinishId(run)))
      && (end.Fail? && end.error.TruncatedReply? ==> CutAt(n) && end.error.partial == TextOf(ReplyAt(n)))
    }

    static lemma ClosesNow(before: seq<Record>, after: seq<Record>, run: nat, outcome: Outcome)
      requires FinishOnly(before, after, run, outcome)
      ensures ClosesAs(before, after, run, outcome)
    {
      assert NoneClosed(before, before);
    }

    static lemma ClosesLater(a: seq<Record>, b: seq<Record>, c: seq<Record>, run: nat, outcome: Outcome)
      requires NoneClosed(a, b) && ClosesAs(b, c, run, outcome)
      ensures ClosesAs(a, c, run, outcome)
    {
      hide NoneClosed, FinishOnly;
      var mid :| NoneClosed(b, mid) && FinishOnly(mid, c, run, outcome);
      NoneClosedTwice(a, b, mid);
    }

    lemma TurnRecordsLater(end: TurnEnd, concluded: bool, n: nat, a: seq<Record>, b: seq<Record>, c: seq<Record>, run: nat)
      requires NoneClosed(a, b) && TurnRecords(end, concluded, n, b, c, run)
      ensures TurnRecords(end, concluded, n, a, c, run)
    {
      hide NoneClosed, ClosesAs, PlainAt, CutAt, TextOf;
      if concluded {
        ClosesLater(a, b, c, run, Completed);
      } else {
        NoneClosedTwice(a, b, c);
      }
    }

    lemma PlainMeans(n: nat)
      ensures PlainAt(n) <==> provider(n).Answered? && UsesIn(provider(n).response.content) == []
                              && !provider(n).response.stopReason.MaxTokens?
    {}

    lemma NothingConcluded(end: TurnEnd, n: nat, before: seq<Record>, after: seq<Record>, run: nat)
      requires NoneClosed(before, after) && !end.Answer? && (end.Fail? ==> !end.error.TruncatedReply?)
      ensures TurnRecords(end, false, n, before, after, run)
    {}

    lemma ConcludedRecords(end: TurnEnd, n: nat, response: Response, before: seq<Record>, after: seq<Record>, run: nat,
                           concluded: bool)
      requires provider(n) == Answered(response) && UsesIn(response.content) == [] && !end.Continue?
      requires if response.stopReason.MaxTokens? then after == before else FinishOnly(before, after, run, Completed)
      requires concluded <==> !response.stopReason.MaxTokens?
      requires end.Answer? ==> HasRecord(after, FinishId(run))
      requires end.Fail? && end.error.TruncatedReply? ==>
                 response.stopReason.MaxTokens? && end.error.partial == TextOf(Message(Assistant, response.content))
      ensures TurnRecords(end, concluded, n, before, after, run)
    {
      hide TextOf;
      if concluded {
        ClosesNow(before, after, run, Completed);
      }
    }

    /** The reply is on disk: conclude when it calls no tool, otherwise run its batch. */
    method Respond(response: Response, attempt: nat, ghost base: nat, ghost n: nat, ghost c: Config)
      returns (end: TurnEnd, ghost gap: seq<Message>, ghost d: Config, ghost es: seq<Event>)
      requires Valid() && journal.runId.Some?
      requires Transcript(View()) == messages + [Message(Assistant, response.content)]
      requires base <= |messages| && PairedFrom(messages, base) && provider(n) == Answered(response)
      modifies this`messages, this`executions, this`began, journal, journal.store
      ensures Valid() && IntentsFirst()
      ensures old(messages) <= messages && PairedFrom(messages, base)
      ensures Transcript(View()) == messages + gap && Owed(gap)
      ensures old(journal.store.refusals) <= journal.store.refusals <= old(journal.store.refusals) + 1
      ensures journal.store.refusals == old(journal.store.refusals) ==> gap == []
      ensures journal.finishes == old(journal.finishes) + (if Concluded(end, old(messages), messages) then 1 else 0)
      ensures TurnRecords(end, Concluded(end, old(messages), messages), n, old(View()).records, View().records,
                          old(journal.runId).value)
      ensures end.Fail? ==> messages == old(messages) || messages == old(messages) + [Message(Assistant, response.content)]
      ensures UsesIn(response.content) == [] && !response.stopReason.MaxTokens? ==>
        && !end.Continue? && (end.Answer? <==> journal.store.Grants(old(journal.store.accesses), 4))
        && (end.Fail? ==> end.error.Journal? && messages != old(messages))
      ensures var ask := Message(Assistant, response.content);
        match end
        case Continue => journal.store.refusals == old(journal.store.refusals) && journal.runId == old(journal.runId)
                         && messages == old(messages) + [ask, BatchResults(IntentsOf(response.content), old(executions))]
                         && executions == old(executions) + |IntentsOf(response.content)|
        case Answer(text) => journal.store.refusals == old(journal.store.refusals) && journal.runId == None
                             && messages == old(messages) + [ask] && UsesIn(response.content) == [] && text == TextOf(ask)
        case Fail(e) => journal.runId == old(journal.runId) && (e.TruncatedReply? || e.Journal?)
                        && (e.Journal? <==> journal.store.refusals > old(journal.store.refusals))
      ensures AtReply(c, old(journal.runId).value, attempt, Message(Assistant, response.content), old(View()), old(messages))
              && journal.store.refusals == old(journal.store.refusals)
        ==> Refines(c, es, d) && d.base == c.base
            && match end
               case Continue => AtTurn(d, old(journal.runId).value, attempt, View(), messages)
               case Answer(_) => d.phase.Ready? && d.s == View() && d.memory == messages
               case Fail(e) => AtEnd(d, old(journal.runId).value, OutcomeOf(e), View(), messages)
      ensures forall use :: HasRecord(View().records, ToolId(old(journal.runId).value, use)) ==>
                HasRecord(old(View()).records, ToolId(old(journal.runId).value, use)) || use in UsesIn(response.content)
    {
      hide Chain, SupplyOk, Follows, HasRecord, HasEntry, UsesIn, PairedFrom, TextsIn, Join, MessagesOf, AtEnd, AtTurn,
        AtReply, IntentsFor, AnswersExactly, IntentsOf, BatchResults, NoneClosed, ClosesAs, PlainAt, CutAt, FinishOnly, TextOf,
        TurnRecords, Served;
      ghost var mem, rs, run := messages, View().records, journal.runId.value;
      gap := [];
      var ask := Message(Assistant, response.content);
      NoUses(response.content);
      var intents := Intents(response.content);
      IntentsMatch(response.content);
      if |intents| == 0 {
        end, d, es := Conclude(response, attempt, c);
        assert messages + [] == messages;
        PairedAppendOne(mem, base, ask);
        ConcludedRecords(end, n, response, rs, View().records, run, Concluded(end, mem, messages));
      } else {
        IntentsAreFor(ask, intents);
        ResultsAnswer(intents, executions, ask);
        var batch;
        ghost var trace;
        batch, d, es, trace := RunBatch(ask, intents, attempt, c);
        if batch.Err? {
          gap := [ask];
          NothingConcluded(Fail(batch.error), n, rs, View().records, run);
          return Fail(batch.error), gap, d, es;
        }
        PairedAppend(mem, base, ask, BatchResults(intents, old(executions)));
        assert messages + [] == messages;
        end := Continue;
        NothingConcluded(end, n, rs, View().records, run);
      }
    }

    /** One turn of the loop: consult the provider, then run its batch or conclude. */
    method OneTurn(attempt: nat, ghost base: nat, ghost c: Config)
      returns (end: TurnEnd, ghost gap: seq<Message>, ghost d: Config, ghost es: seq<Event>)
      requires Valid() && journal.runId.Some? && Transcript(View()) == messages && attempt > 0
      requires base <= |messages| && PairedFrom(messages, base)
      modifies this`messages, this`calls, this`executions, this`began, journal, journal.store
      ensures Valid() && IntentsFirst() && old(calls) <= calls <= old(calls) + 1
      ensures old(messages) <= messages && PairedFrom(messages, base)
      ensures Transcript(View()) == messages + gap && Owed(gap)
      ensures old(journal.store.refusals) <= journal.store.refusals <= old(journal.store.refusals) + 1
      ensures journal.store.refusals == old(journal.store.refusals) ==> gap == [] && calls == old(calls) + 1
      ensures journal.finishes == old(journal.finishes) + (if Concluded(end, old(messages), messages) then 1 else 0)
      ensures TurnRecords(end, Concluded(end, old(messages), messages), old(calls), old(View()).records, View().records,
                          old(journal.runId).value)
      ensures messages != old(messages) ==> calls == old(calls) + 1
      ensures end.Fail? ==> messages == old(messages) || messages == old(messages) + [ReplyAt(old(calls))]
      ensures PlainAt(old(calls)) && journal.store.Grants(old(journal.store.accesses), 2) ==>
        && !end.Continue? && (end.Answer? <==> journal.store.Grants(old(journal.store.accesses) + 2, 4))
        && (end.Fail? ==> end.error.Journal? && messages != old(messages))
      ensures match end
        case Continue => journal.store.refusals == old(journal.store.refusals) && calls == old(calls) + 1
                         && journal.runId == old(journal.runId)
                         && messages == old(messages) + Exchange(old(calls), old(executions))
                         && executions == old(executions) + |IntentsOf(ContentAt(old(calls)))|
        case Answer(text) => journal.store.refusals == old(journal.store.refusals) && journal.runId == None
                             && calls == old(calls) + 1 && messages == old(messages) + [ReplyAt(old(calls))]
                             && UsesAt(old(calls)) == [] && text == TextOf(ReplyAt(old(calls)))
        case Fail(e) => journal.runId == old(journal.runId)
                        && (e.Journal? <==> journal.store.refusals > old(journal.store.refusals)) && !e.MaxTurns?
      ensures AtTurn(c, old(journal.runId).value, attempt - 1, old(View()), old(messages)) && c.base == base
              && FreshUses(old(View()).records, old(journal.runId).value, UsesAt(old(calls)))
              && journal.store.refusals == old(journal.store.refusals)
        ==> Refines(c, es, d) && d.base == base
            && match end
               case Continue => AtTurn(d, old(journal.runId).value, attempt, View(), messages)
               case Answer(_) => d.phase.Ready? && d.s == View() && d.memory == messages
               case Fail(e) => AtEnd(d, old(journal.runId).value, OutcomeOf(e), View(), messages)
      ensures forall use :: HasRecord(View().records, ToolId(old(journal.runId).value, use)) ==>
                HasRecord(old(View()).records, ToolId(old(journal.runId).value, use))
                || (calls == old(calls) + 1 && use in UsesAt(old(calls)))
    {
      hide Store.Grants, Served, FinishOnly, Chain, SupplyOk, Follows, HasRecord, HasEntry, UsesIn, FreshUses, PairedFrom, TextsIn, Join,
        MessagesOf, AtEnd, AtTurn, AtReply, IntentsOf, BatchResults, Transcript, TextOf, NoneClosed, ClosesAs, PlainAt, CutAt, TurnRecords;
      ghost var run, s0, log0, n, first := journal.runId.value, View(), journal.store.log, calls, executions;
      ghost var inStep := AtTurn(c, run, attempt - 1, s0, messages) && FreshUses(s0.records, run, UsesAt(n));
      PlainMeans(n);
      gap := [];
      var consulted;
      consulted, d, es := Consult(attempt, c);
      assert messages + [] == messages;
      if consulted.Err? {
        NothingConcluded(Fail(consulted.error), n, s0.records, View().records, run);
        return Fail(consulted.error), gap, d, es;
      }
      ghost var d1, es1, log1, rs1 := d, es, journal.store.log, View().records;
      ghost var ws1: seq<Write>;
      if inStep {
        ws1 :| Follows(c, es1, d1, ws1) && log1 == log0 + ws1;
      }
      ghost var es2;
      end, gap, d, es2 := Respond(consulted.value, attempt, base, n, d1);
      TurnRecordsLater(end, Concluded(end, old(messages), messages), n, s0.records, rs1, View().records, run);
      es := es1 + es2;
      if inStep && journal.store.refusals == old(journal.store.refusals) {
        ghost var ws2 :| Follows(d1, es2, d, ws2) && journal.store.log == log1 + ws2;
        JoinRuns(c, es1, d1, ws1, es2, d, ws2, log0, log1, journal.store.log);
      }
    }

    static lemma IntentsAreFor(ask: Message, intents: seq<ToolIntent>)
      requires ask.role.Assistant? && |intents| == |UsesIn(ask.content)|
      requires forall i :: 0 <= i < |intents| ==> intents[i].toolUseId == UsesIn(ask.content)[i]
      ensures IntentsFor(ask, intents)
    {}

    static lemma FinishAddsNoIntent(s: Session, t: Session, run: nat)
      requires exists outcome :: FinishOnly(s.records, t.records, run, outcome)
      ensures forall use :: HasRecord(t.records, ToolId(run, use)) ==> HasRecord(s.records, ToolId(run, use))
    {
      forall use | HasRecord(t.records, ToolId(run, use))
        ensures HasRecord(s.records, ToolId(run, use))
      {
        if t.records != s.records {
          var outcome :| FinishOnly(s.records, t.records, run, outcome);
          var seqNo: nat :| t.records == s.records + [Record(FinishId(run), run, seqNo, OperationFinished(outcome))];
          Inv.HasRecordSnoc(s.records, Record(FinishId(run), run, seqNo, OperationFinished(outcome)), ToolId(run, use));
        }
      }
    }

    // -------------------------------------------------------------- the loop

    /** Every intent of the run is for a call of a reply since `lo`. */
    ghost predicate IntentsKnown(run: nat, lo: nat)
      requires lo <= calls
      reads this, journal.store
    {
      forall use :: HasRecord(View().records, ToolId(run, use)) ==> use in AllUses(lo, calls)
    }

    lemma FreshNext(rs: seq<Record>, run: nat, lo: nat, n: nat)
      requires lo <= n && NoRepeats(AllUses(lo, n + 1))
      requires forall use :: HasRecord(rs, ToolId(run, use)) ==> use in AllUses(lo, n)
      ensures NoRepeats(AllUses(lo, n)) && FreshUses(rs, run, UsesAt(n))
    {
      var a, b := AllUses(lo, n), UsesAt(n);
      assert AllUses(lo, n + 1) == a + b;
      forall i, j | 0 <= i < j < |b|
        ensures b[i] != b[j]
      {
        assert (a + b)[|a| + i] == b[i] && (a + b)[|a| + j] == b[j];
      }
      forall i, j | 0 <= i < j < |a|
        ensures a[i] != a[j]
      {
        assert (a + b)[i] == a[i] && (a + b)[j] == a[j];
      }
      forall i | 0 <= i < |b|
        ensures !HasRecord(rs, ToolId(run, b[i]))
      {
        forall j | 0 <= j < |a|
          ensures a[j] != b[i]
        {
          assert (a + b)[j] == a[j] && (a + b)[|a| + i] == b[i];
        }
      }
    }

    /** How many tools the batches of the replies `lo..hi` run. */
    function Executed(lo: nat, hi: nat): nat
      requires lo <= hi
      decreases hi - lo
    {
      if lo == hi then 0 else Executed(lo, hi - 1) + |IntentsOf(ContentAt(hi - 1))|
    }

    /** What the turns of the replies `lo..hi` add, each with calls, when `first` tools ran before. */
    function Exchanges(lo: nat, hi: nat, first: nat): seq<Message>
      requires lo <= hi
      decreases hi - lo
    {
      if lo == hi then [] else Exchanges(lo, hi - 1, first) + Exchange(hi - 1, first + Executed(lo, hi - 1))
    }

    /** The transcript of a run that answered with its last reply: the start, every earlier reply with its
        own tools' outputs, and the answer. */
    ghost predicate AnswersAfter(start: seq<Message>, lo: nat, first: nat, text: string)
      reads this
    {
      && lo < calls && messages == start + Exchanges(lo, calls - 1, first) + [ReplyAt(calls - 1)]
      && UsesAt(calls - 1) == [] && text == TextOf(ReplyAt(calls - 1))
    }

    lemma AnsweredNow(start: seq<Message>, mem: seq<Message>, lo: nat, n: nat, first: nat, text: string)
      requires lo <= n && calls == n + 1 && mem == start + Exchanges(lo, n, first) && messages == mem + [ReplyAt(n)]
      requires UsesAt(n) == [] && text == TextOf(ReplyAt(n))
      ensures AnswersAfter(start, lo, first, text)
    {}

    lemma ExchangesSnoc(start: seq<Message>, before: seq<Message>, after: seq<Message>, lo: nat, n: nat, first: nat)
      requires lo <= n && before == start + Exchanges(lo, n, first)
      requires after == before + Exchange(n, first + Executed(lo, n))
      ensures after == start + Exchanges(lo, n + 1, first)
      ensures Executed(lo, n + 1) == Executed(lo, n) + |IntentsOf(ContentAt(n))|
    {}

    lemma UsesSnoc(lo: nat, n: nat)
      requires lo <= n
      ensures AllUses(lo, n + 1) == AllUses(lo, n) + UsesAt(n)
    {}

    lemma NoTurnYet(lo: nat, first: nat, ms: seq<Message>)
      ensures ms + Exchanges(lo, lo, first) == ms && Executed(lo, lo) == 0 && AllUses(lo, lo) == []
    {}

    /** The last message added is the assistant's. */
    static predicate Spoken(before: seq<Message>, after: seq<Message>) {
      after != before && after != [] && after[|after| - 1].role.Assistant?
    }

    static lemma NoneYet(rs: seq<Record>)
      ensures NoneClosed(rs, rs)
    {}

    static lemma TurnCounted(end: TurnEnd, start: seq<Message>, before: seq<Message>, after: seq<Message>, reply: Message)
      requires start <= before && (before == start || !Spoken([], before)) && reply.role.Assistant?
      requires end.Fail? ==> after == before || after == before + [reply]
      ensures !end.Fail? ==> (Concluded(end, before, after) <==> end.Answer?)
      ensures end.Fail? ==> (Concluded(end, before, after) <==> end.error.Journal? && Spoken(start, after))
      ensures end.Fail? ==> (Spoken(start, after) <==> after != before)
    {}

    lemma ExchangeEnds(ms: seq<Message>, n: nat, first: nat)
      ensures !Spoken([], ms + Exchange(n, first)) && |ms + Exchange(n, first)| > |ms|
    {}

    /** The loop after `attempt` turns, all with calls: `start`, `lo`, `first` and `run` are the transcript,
        the requests, the tool executions and the run it began with. */
    ghost predicate Driving(start: seq<Message>, lo: nat, first: nat, run: nat, base: nat, attempt: nat)
      reads this, journal, journal.store
    {
      && Valid() && journal.runId == Some(run) && Transcript(View()) == messages
      && start <= messages && base <= |messages| && PairedFrom(messages, base)
      && calls == lo + attempt && IntentsKnown(run, lo)
      && messages == start + Exchanges(lo, calls, first) && executions == first + Executed(lo, calls)
      && (messages == start || !Spoken([], messages))
    }

    /** The events so far are a run of the protocol that stands at the top of the loop. */
    ghost predicate Following(c: Config, es: seq<Event>, d: Config, ws: seq<Write>, log0: seq<Write>, run: nat, base: nat,
                              attempt: nat)
      reads this, journal.store
    {
      && Follows(c, es, d, ws) && journal.store.log == log0 + ws && d.base == base
      && AtTurn(d, run, attempt, View(), messages)
    }

    /** One more turn of the loop. */
    method NextTurn(attempt: nat, ghost start: seq<Message>, ghost lo: nat, ghost first: nat, ghost run: nat,
                    ghost base: nat, ghost c: Config, ghost es0: seq<Event>, ghost d0: Config, ghost ws0: seq<Write>,
                    ghost log0: seq<Write>, ghost started: bool)
      returns (end: TurnEnd, ghost gap: seq<Message>, ghost d: Config, ghost es: seq<Event>, ghost ws: seq<Write>)
      requires attempt > 0 && Driving(start, lo, first, run, base, attempt - 1)
      requires started && NoRepeats(AllUses(lo, calls)) ==> Following(c, es0, d0, ws0, log0, run, base, attempt - 1)
      modifies this`messages, this`calls, this`executions, this`began, journal, journal.store
      ensures Valid() && IntentsFirst() && old(calls) <= calls <= old(calls) + 1
      ensures start <= messages && PairedFrom(messages, base)
      ensures Transcript(View()) == messages + gap && Owed(gap)
      ensures old(journal.store.refusals) <= journal.store.refusals
      ensures journal.store.refusals == old(journal.store.refusals) ==> gap == []
      ensures journal.finishes == old(journal.finishes)
                + (if end.Answer? || (end.Fail? && end.error.Journal? && Spoken(start, messages)) then 1 else 0)
      ensures PlainAt(old(calls)) && journal.store.Grants(old(journal.store.accesses), 2) ==>
        && !end.Continue? && (end.Answer? <==> journal.store.Grants(old(journal.store.accesses) + 2, 4))
        && (end.Fail? ==> end.error.Journal? && Spoken(start, messages))
      ensures TurnRecords(end, end.Answer? || (end.Fail? && end.error.Journal? && Spoken(start, messages)), old(calls),
                          old(View()).records, View().records, run)
      ensures journal.store.refusals == old(journal.store.refusals) ==> calls == old(calls) + 1
      ensures end.Fail? && Spoken(start, messages) ==> calls == old(calls) + 1
      ensures match end
        case Continue => journal.store.refusals == old(journal.store.refusals) && gap == []
                         && Driving(start, lo, first, run, base, attempt)
        case Answer(text) => journal.store.refusals == old(journal.store.refusals) && journal.runId == None
                             && AnswersAfter(start, lo, first, text)
        case Fail(e) => journal.runId == Some(run)
                        && (e.Journal? <==> journal.store.refusals > old(journal.store.refusals)) && !e.MaxTurns?
      ensures started && NoRepeats(AllUses(lo, calls)) && journal.store.refusals == old(journal.store.refusals)
        ==> Follows(c, es, d, ws) && journal.store.log == log0 + ws && d.base == base
            && match end
               case Continue => Following(c, es, d, ws, log0, run, base, attempt)
               case Answer(_) => d.phase.Ready? && d.s == View() && d.memory == messages
               case Fail(e) => AtEnd(d, run, OutcomeOf(e), View(), messages)
    {
      hide AnswersAfter, Concluded, Store.Grants, Spoken, PlainAt, Chain, SupplyOk, Follows, HasRecord, HasEntry, UsesIn,
        FreshUses, NoRepeats, PairedFrom, TextsIn, Join, MessagesOf, AtEnd, AtTurn, AtReply, IntentsFor, AnswersExactly,
        Exchange, IntentsOf, Transcript, TextOf, Executed, Exchanges, AllUses, UsesAt, OutcomeOf,
        TurnRecords;
      ghost var log1, n, rs, mem := journal.store.log, calls, View().records, messages;
      ghost var es1;
      end, gap, d, es1 := OneTurn(attempt, base, d0);
      RecordsKept(rs, View().records);
      TurnCounted(end, start, mem, messages, ReplyAt(n));
      UsesSnoc(lo, n);
      es, ws := es0 + es1, ws0;
      if started && journal.store.refusals == old(journal.store.refusals) && NoRepeats(AllUses(lo, calls)) {
        FreshNext(rs, run, lo, n);
        ghost var ws1 :| Follows(d0, es1, d, ws1) && journal.store.log == log1 + ws1;
        JoinRuns(c, es0, d0, ws0, es1, d, ws1, log0, log1, journal.store.log);
        ws := ws0 + ws1;
      }
      match end {
        case Continue =>
          ExchangesSnoc(start, mem, messages, lo, n, first);
          ExchangeEnds(mem, n, first + Executed(lo, n));
        case Answer(text) => AnsweredNow(start, mem, lo, n, first, text);
        case Fail(_) =>
      }
    }

    /** What the loop leaves on record, told by its last reply. */
    ghost predicate LoopRecords(r: Result<string, AgentError>, concluded: bool, lo: nat, before: seq<Record>,
                                after: seq<Record>, run: nat)
      reads this
    {
      && (if concluded then lo < calls && PlainAt(calls - 1) && ClosesAs(before, after, run, Completed)
          else NoneClosed(before, after))
      && (r.Ok? ==> HasRecord(after, FinishId(run)))
      && (r.Err? && r.error.TruncatedReply? ==>
            lo < calls && CutAt(calls - 1) && r.error.partial == TextOf(ReplyAt(calls - 1)))
    }

    lemma LoopStops(end: TurnEnd, r: Result<string, AgentError>, concluded: bool, lo: nat, n: nat, a: seq<Record>,
                    b: seq<Record>, c: seq<Record>, run: nat)
      requires NoneClosed(a, b) && TurnRecords(end, concluded, n, b, c, run) && lo <= n
      requires concluded || (end.Fail? && end.error.TruncatedReply?) ==> calls == n + 1
      requires match end case Continue => false case Answer(text) => r == Ok(text) case Fail(e) => r == Err(e)
      ensures LoopRecords(r, concluded, lo, a, c, run)
    {
      hide NoneClosed, ClosesAs, PlainAt, CutAt, TextOf, HasRecord;
      TurnRecordsLater(end, concluded, n, a, b, c, run);
    }

    lemma TurnContinues(n: nat, a: seq<Record>, b: seq<Record>, c: seq<Record>, run: nat)
      requires NoneClosed(a, b) && TurnRecords(Continue, false, n, b, c, run)
      ensures NoneClosed(a, c)
    {
      NoneClosedTwice(a, b, c);
    }

    lemma LoopNotClosed(e: AgentError, lo: nat, before: seq<Record>, after: seq<Record>, run: nat)
      requires NoneClosed(before, after) && !e.TruncatedReply?
      ensures LoopRecords(Err(e), false, lo, before, after, run)
    {}

    lemma LoopBegins(base: nat, c: Config)
      requires Valid() && journal.runId.Some? && Transcript(View()) == messages
      requires base <= |messages| && PairedFrom(messages, base) && IntentsKnown(journal.runId.value, calls)
      ensures Driving(messages, calls, executions, journal.runId.value, base, 0) && Owed([])
      ensures AtTurn(c, journal.runId.value, 0, View(), messages) && c.base == base ==>
        Following(c, [], c, [], journal.store.log, journal.runId.value, base, 0)
    {
      hide Chain, SupplyOk;
      NoTurnYet(calls, executions, messages);
      FollowsNothing(c);
      assert journal.store.log + [] == journal.store.log;
    }

    lemma StillDriving(start: seq<Message>, lo: nat, first: nat, run: nat, base: nat, attempt: nat)
      requires Driving(start, lo, first, run, base, attempt)
      ensures calls == lo + attempt && Valid() && journal.runId == Some(run) && Transcript(View()) == messages + []
      ensures start <= messages && PairedFrom(messages, base) && messages == start + Exchanges(lo, calls, first)
      ensures Owed([])
    {
      hide Chain, SupplyOk;
      assert messages + [] == messages;
    }

    lemma LoopEnds(c: Config, es: seq<Event>, d: Config, ws: seq<Write>, log0: seq<Write>, run: nat, base: nat, attempt: nat)
      requires Following(c, es, d, ws, log0, run, base, attempt)
      ensures Follows(c, es, d, ws) && journal.store.log == log0 + ws && d.base == base
      ensures AtEnd(d, run, Outcome.Failed, View(), messages)
    {
      TurnMayFail(d, run, attempt, View(), messages);
    }

    /** `drive`: at most `maxTurns` turns. Whatever the provider, the tools and the disk do, the run's
        messages stay paired; with no refusal and distinct call ids the run is one of the protocol. */
    method Drive(ghost base: nat, ghost c: Config)
      returns (r: Result<string, AgentError>, ghost gap: seq<Message>, ghost d: Config, ghost es: seq<Event>)
      requires Valid() && journal.runId.Some? && Transcript(View()) == messages
      requires base <= |messages| && PairedFrom(messages, base) && IntentsKnown(journal.runId.value, calls)
      modifies this`messages, this`calls, this`executions, this`began, journal, journal.store
      ensures Valid() && IntentsFirst() && old(calls) <= calls <= old(calls) + maxTurns
      ensures old(messages) <= messages && PairedFrom(messages, base)
      ensures Transcript(View()) == messages + gap && Owed(gap)
      ensures old(journal.store.refusals) <= journal.store.refusals
      ensures journal.store.refusals == old(journal.store.refusals) ==> gap == []
      ensures journal.finishes == old(journal.finishes)
                + (if r.Ok? || (r.error.Journal? && Spoken(old(messages), messages)) then 1 else 0)
      ensures maxTurns > 0 && PlainAt(old(calls)) && journal.store.Grants(old(journal.store.accesses), 2) ==>
        && (r.Ok? <==> journal.store.Grants(old(journal.store.accesses) + 2, 4))
        && (r.Err? ==> r.error.Journal? && Spoken(old(messages), messages))
      ensures LoopRecords(r, r.Ok? || (r.error.Journal? && Spoken(old(messages), messages)), old(calls), old(View()).records,
                          View().records, old(journal.runId).value)
      ensures match r
        case Ok(text) => journal.store.refusals == old(journal.store.refusals) && journal.runId == None
                         && AnswersAfter(old(messages), old(calls), old(executions), text)
        case Err(e) => journal.runId == old(journal.runId)
                       && (e.MaxTurns? ==>
                             && e.turns == maxTurns && calls == old(calls) + maxTurns
                             && messages == old(messages) + Exchanges(old(calls), calls, old(executions)))
                       && (e.Journal? <==> journal.store.refusals > old(journal.store.refusals))
      ensures AtTurn(c, old(journal.runId).value, 0, old(View()), old(messages)) && c.base == base
              && NoRepeats(AllUses(old(calls), calls)) && journal.store.refusals == old(journal.store.refusals)
        ==> Refines(c, es, d) && d.base == base
            && match r
               case Ok(_) => d.phase.Ready? && d.s == View() && d.memory == messages
               case Err(e) => AtEnd(d, old(journal.runId).value, OutcomeOf(e), View(), messages)
    {
      hide AnswersAfter, Store.Grants, Spoken, PlainAt, Chain, SupplyOk, Follows, HasRecord, HasEntry, UsesIn, FreshUses,
        NoRepeats, PairedFrom, MessagesOf, AtEnd, AtTurn, Transcript, Executed, Exchanges, AllUses, UsesAt, Driving,
        Following, IntentsKnown, LoopRecords, TurnRecords, NoneClosed;
      ghost var rs0 := View().records;
      assert NoneClosed(rs0, rs0) by { NoneYet(rs0); }
      ghost var run, log0, lo, first := journal.runId.value, journal.store.log, calls, executions;
      ghost var started := AtTurn(c, run, 0, View(), messages) && c.base == base;
      ghost var ws: seq<Write> := [];
      gap, d, es := [], c, [];
      LoopBegins(base, c);
      ghost var plain := PlainAt(lo) && journal.store.Grants(journal.store.accesses, 2);
      var attempt := 1;
      while attempt <= maxTurns
        invariant 1 <= attempt <= maxTurns + 1 && gap == [] && calls == lo + attempt - 1
        invariant Driving(old(messages), lo, first, run, base, attempt - 1)
        invariant journal.store.refusals == old(journal.store.refusals) && journal.finishes == old(journal.finishes)
        invariant IntentsFirst() && NoneClosed(rs0, View().records)
        invariant plain ==> attempt == 1 && journal.store.accesses == old(journal.store.accesses)
        invariant started && NoRepeats(AllUses(lo, calls)) ==> Following(c, es, d, ws, log0, run, base, attempt - 1)
      {
        ghost var rs, n := View().records, calls;
        var end;
        end, gap, d, es, ws := NextTurn(attempt, old(messages), lo, first, run, base, c, es, d, ws, log0, started);
        RecordsKept(rs, View().records);
        match end {
          case Continue =>
            StillDriving(old(messages), lo, first, run, base, attempt);
            TurnContinues(n, rs0, rs, View().records, run);
          case Answer(text) =>
            LoopStops(end, Ok(text), true, lo, n, rs0, rs, View().records, run);
            return Ok(text), gap, d, es;
          case Fail(e) =>
            LoopStops(end, Err(e), e.Journal? && Spoken(old(messages), messages), lo, n, rs0, rs, View().records, run);
            return Err(e), gap, d, es;
        }
        attempt := attempt + 1;
      }
      StillDriving(old(messages), lo, first, run, base, attempt - 1);
      if started && NoRepeats(AllUses(lo, calls)) {
        LoopEnds(c, es, d, ws, log0, run, base, attempt - 1);
      }
      LoopNotClosed(MaxTurns(maxTurns), lo, rs0, View().records, run);
      r := Err(MaxTurns(maxTurns));
    }

    static lemma RecordsKept(rs: seq<Record>, after: seq<Record>)
      requires rs <= after
      ensures forall id :: HasRecord(rs, id) ==> HasRecord(after, id)
    {
      forall id | HasRecord(rs, id)
        ensures HasRecord(after, id)
      {
        var i :| 0 <= i < |rs| && rs[i].id == id;
        assert after[i].id == id;
      }
    }

    static lemma TurnMayFail(d: Config, run: nat, attempt: nat, s: Session, memory: seq<Message>)
      requires AtTurn(d, run, attempt, s, memory)
      ensures AtEnd(d, run, Outcome.Failed, s, memory)
    {}

    /** The run is recorded and marked, and the prompt is on disk and in memory. */
    method Open(user: Message, ghost c: Config)
      returns (r: Result<(), AgentError>, ghost d: Config, ghost es: seq<Event>)
      requires Valid() && Transcript(View()) == messages && user.role.User?
      modifies this`messages, journal`runId, journal.store
      ensures Valid() && IntentsFirst() && old(journal.store.refusals) <= journal.store.refusals
      ensures Transcript(View()) == messages
      ensures r.Ok? <==> Reduce(old(View())) == Ok(None) && journal.store.Grants(old(journal.store.accesses), 4)
      ensures r.Ok? ==> journal.store.accesses == old(journal.store.accesses) + 4
      ensures OpenedOnly(old(View()).records, View().records)
      ensures r.Ok? ==> journal.runId.Some? && Unseen(old(View()), journal.runId.value)
                        && !HasRecord(View().records, FinishId(journal.runId.value))
      ensures match r
        case Ok(_) =>
          && journal.runId.Some? && messages == old(messages) + [user] && IntentsKnown(journal.runId.value, calls)
          && journal.store.refusals == old(journal.store.refusals)
        case Err(e) => e.Journal? && messages == old(messages)
      ensures c.phase.Ready? && c.s == old(View()) && c.memory == old(messages)
              && journal.store.refusals == old(journal.store.refusals)
        ==> Refines(c, es, d)
            && (r.Ok? ==> AtTurn(d, journal.runId.value, 0, View(), messages) && d.base == |old(messages)|)
            && (r.Err? ==> d == c && d.s == View())
    {
      hide Chain, SupplyOk, Follows, HasEntry, HasRecord, Unseen, Reduce, MessagesOf, Store.Grants;
      ghost var s0, log0, before := View(), journal.store.log, messages;
      d, es := c, [];
      FollowsNothing(c);
      assert log0 + [] == log0;
      var started := journal.RunStarted(user);
      if started.Err? {
        return Err(Journal(started.error)), d, es;
      }
      ghost var run := journal.runId.value;
      ghost var id: nat :| Unseen(Opened(s0, run), id) && View() == Commit(Opened(s0, run), PutEntry(Uuid(id), user))
        && journal.store.log == log0 + OpeningWrites(s0, run, id, user);
      RunOpened(s0, run, id, user);
      messages := messages + [user];
      assert AllUses(calls, calls) == [];
      if c.phase.Ready? && c.s == s0 && c.memory == before {
        d := CanStart(c, run, user, id);
        es := [Start(run, user), Mark, Prompt(id)];
      }
      r := Ok(());
    }

    /** Best effort: a refusal here leaves the operation open, and recovery closes it. */
    method CloseFailed(e: AgentError, ghost c: Config) returns (ghost d: Config, ghost es: seq<Event>)
      requires Valid() && journal.runId.Some?
      modifies journal`runId, journal`finishes, journal.store
      ensures Valid() && IntentsFirst() && View().entries == old(View()).entries
      ensures journal.finishes == old(journal.finishes) + 1
      ensures FinishOnly(old(View()).records, View().records, old(journal.runId).value,
                         if e.TruncatedReply? then Truncated else Outcome.Failed)
      ensures journal.store.refusals == old(journal.store.refusals) ==>
        HasRecord(View().records, FinishId(old(journal.runId).value))
      ensures old(journal.store.refusals) <= journal.store.refusals
      ensures AtEnd(c, old(journal.runId).value, OutcomeOf(e), old(View()), messages)
              && journal.store.refusals == old(journal.store.refusals)
        ==> Refines(c, es, d) && d.phase.Ready? && d.s == View() && d.memory == messages
    {
      hide Chain, SupplyOk, Follows, HasRecord;
      ghost var run, s0, log0 := journal.runId.value, View(), journal.store.log;
      d, es := c, [];
      var outcome := OutcomeOf(e);
      var finished := journal.RunFinished(outcome);
      if AtEnd(c, run, outcome, s0, messages) && finished.Ok? {
        d := CanFinish(c, outcome);
        es := [Event.Finish(outcome), Unmark, Meta];
        assert journal.store.log == log0 + (R.FinishRun(run, outcome) + [PutMeta]);
      }
    }

    /** How often `send` calls `run_finished`: never when the run could not be started, twice when its
        completing call fails - the reply is then in memory all the same - and otherwise once. */
    static function FinishCalls(r: Result<string, AgentError>, before: seq<Message>, after: seq<Message>): nat {
      if after == before then 0 else if r.Err? && r.error.Journal? && Spoken(before, after) then 2 else 1
    }

    /** How a run is closed: as completed only behind a reply that was complete and asked for nothing, as
        truncated only when the reply was cut, and otherwise as failed; when nothing was refused (`clean`)
        that is what the caller was told. */
    ghost predicate RunRecords(r: Result<string, AgentError>, clean: bool, lo: nat, before: seq<Record>,
                               after: seq<Record>, run: nat)
      reads this
    {
      && (r.Err? && r.error.TruncatedReply? ==>
            lo < calls && CutAt(calls - 1) && r.error.partial == TextOf(ReplyAt(calls - 1)))
      && exists outcome ::
           && ClosesAs(before, after, run, outcome)
           && (if outcome.Completed? then lo < calls && PlainAt(calls - 1)
               else r.Err? && outcome == if r.error.TruncatedReply? then Truncated else Outcome.Failed)
           && (clean ==> (outcome.Completed? <==> r.Ok?) && HasRecord(after, FinishId(run)))
    }

    lemma RunAnswered(r: Result<string, AgentError>, clean: bool, lo: nat, before: seq<Record>, after: seq<Record>, run: nat)
      requires r.Ok? && LoopRecords(r, true, lo, before, after, run)
      ensures RunRecords(r, clean, lo, before, after, run)
    {
      hide ClosesAs, PlainAt, HasRecord;
      assert ClosesAs(before, after, run, Completed);
    }

    lemma RunFailed(r: Result<string, AgentError>, concluded: bool, clean: bool, lo: nat, a: seq<Record>, b: seq<Record>,
                    c: seq<Record>, run: nat)
      requires r.Err? && LoopRecords(r, concluded, lo, a, b, run) && (concluded ==> r.error.Journal?) && (clean ==> !concluded)
      requires FinishOnly(b, c, run, if r.error.TruncatedReply? then Truncated else Outcome.Failed)
      requires clean ==> HasRecord(c, FinishId(run))
      ensures RunRecords(r, clean, lo, a, c, run)
    {
      hide PlainAt, CutAt, TextOf;
      var outcome := if r.error.TruncatedReply? then Truncated else Outcome.Failed;
      if concluded {
        ClosedTwice(a, b, c, run);
        assert ClosesAs(a, c, run, Completed) || ClosesAs(a, c, run, Outcome.Failed);
      } else {
        assert ClosesAs(a, c, run, outcome);
      }
    }

    static lemma ClosedTwice(a: seq<Record>, b: seq<Record>, c: seq<Record>, run: nat)
      requires ClosesAs(a, b, run, Completed) && FinishOnly(b, c, run, Outcome.Failed)
      ensures ClosesAs(a, c, run, Completed) || ClosesAs(a, c, run, Outcome.Failed)
    {
      hide NoneClosed;
      var mid :| NoneClosed(a, mid) && FinishOnly(mid, b, run, Completed);
      if b != mid {
        assert b[|mid|].id == FinishId(run);
        assert HasRecord(b, FinishId(run));
      }
    }

    /** The loop, and the closing of a run that failed. */
    method Settle(ghost base: nat, ghost c: Config)
      returns (r: Result<string, AgentError>, ghost gap: seq<Message>, ghost d: Config, ghost es: seq<Event>)
      requires Valid() && journal.runId.Some? && Transcript(View()) == messages
      requires base <= |messages| && PairedFrom(messages, base) && IntentsKnown(journal.runId.value, calls)
      modifies this`messages, this`calls, this`executions, this`began, journal, journal.store
      ensures Valid() && IntentsFirst() && old(calls) <= calls <= old(calls) + maxTurns
      ensures old(messages) <= messages && PairedFrom(messages, base)
      ensures Transcript(View()) == messages + gap && Owed(gap)
      ensures old(journal.store.refusals) <= journal.store.refusals
      ensures journal.store.refusals == old(journal.store.refusals) ==> gap == []
      ensures journal.finishes == old(journal.finishes)
                + (if r.Err? && r.error.Journal? && Spoken(old(messages), messages) then 2 else 1)
      ensures maxTurns > 0 && PlainAt(old(calls)) && journal.store.Grants(old(journal.store.accesses), 2) ==>
        journal.finishes == old(journal.finishes)
          + (if journal.store.Grants(old(journal.store.accesses) + 2, 4) then 1 else 2)
      ensures RunRecords(r, journal.store.refusals == old(journal.store.refusals), old(calls), old(View()).records,
                         View().records, old(journal.runId).value)
      ensures r.Ok? ==> journal.store.refusals == old(journal.store.refusals)
                        && AnswersAfter(old(messages), old(calls), old(executions), r.value)
      ensures AtTurn(c, old(journal.runId).value, 0, old(View()), old(messages)) && c.base == base
              && NoRepeats(AllUses(old(calls), calls)) && journal.store.refusals == old(journal.store.refusals)
        ==> Refines(c, es, d) && d.phase.Ready? && d.s == View() && d.memory == messages
    {
      hide Store.Grants, Spoken, PlainAt, Chain, SupplyOk, Follows, HasEntry, HasRecord, FreshUses, NoRepeats, PairedFrom,
        TextsIn, Join, AtEnd, AtTurn, Owed, AllUses, OutcomeOf, MessagesOf, UsesIn, Commit, IntentsKnown, AnswersAfter,
        RunRecords, LoopRecords, FinishOnly, NoneClosed, ClosesAs;
      ghost var s0, log0, refusals0, run := View(), journal.store.log, journal.store.refusals, journal.runId.value;
      ghost var started := AtTurn(c, run, 0, s0, messages) && c.base == base;
      r, gap, d, es := Drive(base, c);
      ghost var log2, d2, rs2, es2 := journal.store.log, d, View().records, es;
      ghost var inStep := started && NoRepeats(AllUses(old(calls), calls)) && journal.store.refusals == refusals0;
      ghost var ws2: seq<Write>;
      if inStep {
        ws2 :| Follows(c, es2, d2, ws2) && log2 == log0 + ws2;
      }
      if r.Err? {
        ghost var es3;
        d, es3 := CloseFailed(r.error, d2);
        RecordsKept(rs2, View().records);
        RunFailed(r, r.error.Journal? && Spoken(old(messages), messages), journal.store.refusals == refusals0, old(calls),
                  s0.records, rs2, View().records, run);
        es := es2 + es3;
        if inStep && journal.store.refusals == refusals0 {
          ghost var ws3 :| Follows(d2, es3, d, ws3) && journal.store.log == log2 + ws3;
          JoinRuns(c, es2, d2, ws2, es3, d, ws3, log0, log2, journal.store.log);
        }
      } else {
        RunAnswered(r, journal.store.refusals == refusals0, old(calls), s0.records, View().records, run);
      }
    }

    /** The rows a `send` leaves, told by its result and by the last reply. A run it closed is closed last
        and once: as completed only if the last reply was complete and asked for nothing, as truncated only
        if the reply was cut. `clean` says that no access was refused; then a run that was started is closed,
        and the record says what the caller is told. */
    ghost predicate Outcomes(r: Result<string, AgentError>, started: bool, clean: bool, lo: nat, s: Session, after: seq<Record>)
      reads this
    {
      && (clean && started ==>
            |s.records| < |after| && var last := after[|after| - 1];
            && last.id == FinishId(last.run) && Unseen(s, last.run)
            && last.payload == OperationFinished(
                 if r.Ok? then Completed else if r.error.TruncatedReply? then Truncated else Outcome.Failed))
      && (forall i :: |s.records| <= i < |after| && after[i].payload.OperationFinished? ==>
            && i == |after| - 1
            && (after[i].payload.outcome.Completed? ==>
                  && lo < calls && provider(calls - 1).Answered?
                  && UsesIn(provider(calls - 1).response.content) == []
                  && !provider(calls - 1).response.stopReason.MaxTokens?)
            && (after[i].payload.outcome.Truncated? ==> r.Err? && r.error.TruncatedReply?)
            && !after[i].payload.outcome.Aborted?)
      && (r.Err? && r.error.TruncatedReply? ==>
            && lo < calls && provider(calls - 1).Answered?
            && UsesIn(provider(calls - 1).response.content) == []
            && provider(calls - 1).response.stopReason.MaxTokens?
            && r.error.partial == TextOf(Message(Assistant, provider(calls - 1).response.content)))
    }

    lemma NotStarted(e: AgentError, clean: bool, lo: nat, s: Session, after: seq<Record>)
      requires OpenedOnly(s.records, after) && e.Journal?
      ensures Outcomes(Err(e), false, clean, lo, s, after)
    {}

    lemma RunOutcome(r: Result<string, AgentError>, clean: bool, lo: nat, s: Session, opened_: seq<Record>,
                     after: seq<Record>, run: nat)
      requires OpenedOnly(s.records, opened_) && RunRecords(r, clean, lo, opened_, after, run)
      requires Unseen(s, run) && !HasRecord(opened_, FinishId(run))
      ensures Outcomes(r, true, clean, lo, s, after)
    {
      hide UsesIn, TextOf, Unseen;
      var outcome :| ClosesAs(opened_, after, run, outcome)
        && (if outcome.Completed? then lo < calls && PlainAt(calls - 1)
            else r.Err? && outcome == if r.error.TruncatedReply? then Truncated else Outcome.Failed)
        && (clean ==> (outcome.Completed? <==> r.Ok?) && HasRecord(after, FinishId(run)));
      var mid := ClosedRows(opened_, after, run, outcome);
      assert forall i :: |s.records| <= i < |mid| ==> !mid[i].payload.OperationFinished?;
      if clean {
        assert after != mid;
      }
    }

    static lemma ClosedRows(before: seq<Record>, after: seq<Record>, run: nat, outcome: Outcome) returns (mid: seq<Record>)
      requires ClosesAs(before, after, run, outcome) && !HasRecord(before, FinishId(run))
      ensures NoneClosed(before, mid) && !HasRecord(mid, FinishId(run))
      ensures after == mid || (|after| == |mid| + 1 && after[..|mid|] == mid && after[|mid|].id == FinishId(run)
                               && after[|mid|].run == run && after[|mid|].payload == OperationFinished(outcome))
    {
      mid :| NoneClosed(before, mid) && FinishOnly(mid, after, run, outcome);
      forall i | 0 <= i < |mid|
        ensures mid[i].id != FinishId(run)
      {
        if i < |before| {
          assert mid[i] == before[i];
        }
      }
    }

    static lemma NoRun(e: AgentError, ms: seq<Message>)
      ensures FinishCalls(Err(e), ms, ms) == 0
    {}

    static lemma FinishCount(r: Result<string, AgentError>, before: seq<Message>, user: Message, after: seq<Message>)
      requires before + [user] <= after && user.role.User?
      ensures FinishCalls(r, before, after) == if r.Err? && r.error.Journal? && Spoken(before + [user], after) then 2 else 1
    {}

    /** `send`: one run from prompt to outcome.

        Whatever the provider, the tools and the disk do: the run's messages are paired, at most
        `maxTurns` provider requests are made, no tool begins before its intent is on disk, and the disk
        holds the memory, plus one unanswered assistant message if a refused write caused the failure.
        When no access is refused and the call ids of the run are distinct, memory and disk agree and the
        whole run - every transaction and every tool effect, in order - is a run of the protocol. */
    method Send(text: string, ghost c: Config)
      returns (r: Result<string, AgentError>, ghost gap: seq<Message>, ghost d: Config, ghost es: seq<Event>)
      requires Valid() && Transcript(View()) == messages
      modifies this`messages, this`calls, this`executions, this`began, journal, journal.store
      ensures Valid() && IntentsFirst() && old(calls) <= calls <= old(calls) + maxTurns
      ensures old(messages) <= messages && PairedFrom(messages, |old(messages)|)
      ensures Transcript(View()) == messages + gap && Owed(gap)
      ensures journal.store.refusals == old(journal.store.refusals) ==> gap == []
      ensures journal.finishes == old(journal.finishes) + FinishCalls(r, old(messages), messages)
      ensures Reduce(old(View())) == Ok(None) && maxTurns > 0 && PlainAt(old(calls))
              && journal.store.Grants(old(journal.store.accesses), 6)
        ==> journal.finishes == old(journal.finishes)
              + (if journal.store.Grants(old(journal.store.accesses) + 6, 4) then 1 else 2)
      ensures Outcomes(r, messages != old(messages), journal.store.refusals == old(journal.store.refusals), old(calls),
                       old(View()), View().records)
      ensures r.Ok? ==> journal.store.refusals == old(journal.store.refusals)
                        && AnswersAfter(old(messages) + [Message(User, [Text(text)])], old(calls), old(executions), r.value)
      ensures c.phase.Ready? && c.s == old(View()) && c.memory == old(messages)
              && NoRepeats(AllUses(old(calls), calls)) && journal.store.refusals == old(journal.store.refusals)
        ==> Refines(c, es, d) && d.phase.Ready? && d.s == View() && d.memory == messages
    {
      hide Store.Grants, Spoken, FinishCalls, PlainAt, Reduce, Chain, SupplyOk, Follows, HasEntry, HasRecord, FreshUses,
        NoRepeats, PairedFrom, TextsIn, Join, AtEnd, AtTurn, Owed, AllUses, OutcomeOf, MessagesOf, UsesIn, Commit,
        IntentsKnown, AnswersAfter, RunRecords, Outcomes, OpenedOnly, Unseen, Valid;
      ghost var s0, log0, before := View(), journal.store.log, messages;
      ghost var refusals0, access0 := journal.store.refusals, journal.store.accesses;
      ghost var ready := c.phase.Ready? && c.s == s0 && c.memory == messages;
      gap := [];
      NothingYet(messages);
      var user := UserText(text);
      var begun;
      begun, d, es := Open(user, c);
      NothingYet(messages);
      journal.store.GrantsParts(access0, 4, 2);
      if begun.Err? {
        NoRun(begun.error, before);
        NotStarted(begun.error, journal.store.refusals == refusals0, old(calls), s0, View().records);
        return Err(begun.error), gap, d, es;
      }
      PairedAppendOne(before, |before|, user);
      ghost var log1, d1, es1, rs1 := journal.store.log, d, es, View().records;
      ghost var ws1: seq<Write>;
      ghost var run := journal.runId.value;
      if ready {
        ws1 :| Follows(c, es1, d1, ws1) && log1 == log0 + ws1;
      }
      ghost var es2;
      r, gap, d, es2 := Settle(|before|, d1);
      RecordsKept(rs1, View().records);
      es := es1 + es2;
      if ready && NoRepeats(AllUses(old(calls), calls)) && journal.store.refusals == refusals0 {
        ghost var ws2 :| Follows(d1, es2, d, ws2) && journal.store.log == log1 + ws2;
        JoinRuns(c, es1, d1, ws1, es2, d, ws2, log0, log1, journal.store.log);
      }
      FinishCount(r, before, user, messages);
      RunOutcome(r, journal.store.refusals == refusals0, old(calls), s0, rs1, View().records, run);
    }

    static lemma NothingYet(ms: seq<Message>)
      ensures PairedFrom(ms, |ms|) && Owed([]) && ms + [] == ms
    {}

    /** The session once the run is recorded and marked. */
    static ghost function Opened(s: Session, run: nat): Session {
      Commit(Commit(s, PutRecord(Uuid(run), run, OperationStarted(s.leaf))), SetMarker(run))
    }

    static ghost function OpeningWrites(s: Session, run: nat, id: nat, user: Message): seq<Write> {
      [PutRecord(Uuid(run), run, OperationStarted(s.leaf)), SetMarker(run), PutEntry(Uuid(id), user)]
    }

    /** A run just opened has its prompt at the end of the path and no intent on record. */
    static lemma RunOpened(s: Session, run: nat, id: nat, user: Message)
      requires Unseen(s, run) && Unseen(Opened(s, run), id)
      ensures var t := Commit(Opened(s, run), PutEntry(Uuid(id), user));
        Transcript(t) == Transcript(s) + [user] && !HasRecord(t.records, FinishId(run))
        && forall use :: !HasRecord(t.records, ToolId(run, use))
    {
      var u := Opened(s, run);
      LandedTranscript(u, u, id, user);
      assert u.entries == s.entries;
      assert !HasRecord(s.records, FinishId(run));
      Inv.HasRecordSnoc(s.records, Record(Uuid(run), run, s.nextSeq, OperationStarted(s.leaf)), FinishId(run));
      forall use
        ensures !HasRecord(Commit(u, PutEntry(Uuid(id), user)).records, ToolId(run, use))
      {
        assert !HasRecord(s.records, Uuid(run)) && !HasRecord(s.records, ToolId(run, use));
        Inv.HasRecordSnoc(s.records, Record(Uuid(run), run, s.nextSeq, OperationStarted(s.leaf)), ToolId(run, use));
      }
    }
  }

  /** The input on which `run_finished` is called twice: a new session, a complete first reply without
      calls, and a disk that refuses one of the four accesses of the completing call - its record, its
      marker, its path read or its metadata. With a later refusal, or none, it is called once. */
  method FinishedTwice(text: string, reply: Response, refused: nat) returns (journal: StoreJournal)
    requires UsesIn(reply.content) == [] && !reply.stopReason.MaxTokens? && refused >= 6
    ensures journal.finishes == if refused < 10 then 2 else 1
  {
    hide Chain, SupplyOk, TextsIn, Join, UsesIn, PairedFrom, NoRepeats, Agent.Owed, Agent.IntentsFirst, Agent.Refines;
    var store := new Store(n => n != refused);
    journal := new StoreJournal(store);
    var agent := new Agent(journal, map[], 1, 1, s => s, n => Answered(reply), n => ToolFailed(""), n => [], []);
    assert Reduce(EMPTY) == Ok(None) && Transcript(EMPTY) == [];
    assert agent.PlainAt(0);
    assert store.Grants(0, 6) && (store.Grants(6, 4) <==> refused >= 10) by {
      assert store.disk(refused) <==> false;
    }
    ghost var c := Config(EMPTY, Ready, [], 0, {});
    var r, gap, d, es := agent.Send(text, c);
  }
}
