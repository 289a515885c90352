# Bullpen: the durability model

Bullpen runs agents whose every step is on disk the moment it happens: a run can be killed anywhere and the
next process picks the session up. This project states that promise, and the other promises the hard parts of
the repository make, over Dafny models of the code, and proves them.

The parts, from the rows up:

- **Rows and ids** (`Session.dfy`, `Ids.dfy`, `Llm.dfy`). A session is its entries, its records, the lane's leaf
  and marker, and one sequence counter. A write is one committed transaction; a write whose id exists already
  changes nothing.
- **The run protocol** (`Protocol.dfy`, `Invariants.dfy`, `Safety.dfy`). One process driving one session, as a
  machine whose every event commits at most one transaction or begins or ends one tool. A crash is a run that
  stops; only the rows are left. A ghost log remembers which tools began.
- **Recovery** (`Recovery.dfy`, `Synthesis.dfy`, `CrashSafety.dfy`, `Guarantees.dfy`). Recovery is the list of transactions it
  commits, so a crash of recovery is a prefix of that list. `Endings.dfy`, `RepeatedCalls.dfy` and `Windows.dfy`
  say where its guarantees end, and that runs of the protocol get there.
- **The code that runs the protocol** (`Store.dfy`, `Journal.dfy`, `RecoveryRun.dfy`, `Scheduler.dfy`,
  `Traces.dfy`, `Agent.dfy`). The store, the journal, `recover`, the batch scheduler and the agent loop as classes
  and methods over mutable fields, each proved against the machine. Here the disk may also refuse any access
  without killing the process. Provider, tools and disk are arbitrary functions of how often they were asked.
- **Many processes** (`Worker.dfy`, `System.dfy`). The session lock and the worker row, and any number of
  processes acquiring, recovering, running, stopping and crashing around one session.
- **Delegation** (`Pen.dfy`, `PenRuns.dfy`, `SystemRuns.dfy`, `PenTool.dfy`). One parent's children, each with its
  own many-process machine; which acts are the pen's own jobs and which are another process's is kept apart.
- **Patches** (`Hashline.dfy`, `TextLines.dfy`, `Patch.dfy`, `PatchApply.dfy`). Content anchors, hunks, splices.
- **Truncation** (`Utf8.dfy`) and **migration** (`Migration.dfy`).
- **Wire formats** (`JsonRead.dfy`, `Anthropic.dfy`, `Framing.dfy`, `AnthropicRequest.dfy`,
  `ChatCompletions.dfy`, `Codex.dfy`, `CodexStream.dfy`, `CodexPairing.dfy`).

Two fault models are kept apart. `Protocol.dfy` and `System.dfy` know fail-stop crashes and cancellation at await
points, where every write succeeds until the process is gone. The classes know refused writes after which the
process goes on. `Agents.Agent.Send` connects them: without refusals and with call ids that are distinct within
the run, what it writes is a run of the protocol, so the crash theorems speak about it.

Where the code and its prose disagree, the model follows the code:

- ARCHITECTURE.md says a crash in a batch synthesizes the whole batch. Only calls whose intent record was written
  are answered, a prefix of the batch. It is the whole batch whenever any tool ran
  (`Guarantees.InterruptedBatchAnswered`, `Guarantees.NoEffectUnanswered`, `Guarantees.PairedAfterCrash`); a run
  that crashes with fewer is `Windows.TwoCallsOneAnswered`.
- The harness calls a retried batch write idempotent, because intent ids are deterministic. A provider that reuses a
  call id within a run meets the earlier record instead, and a crash then loses the results of the whole later
  reply: its calls are answered exactly when their ids are new to the run (`RepeatedCalls.BatchAnsweredExactly`,
  `Windows.RepeatedIdLosesBatch`).
- crates/store/src/recovery.rs says the transcript never ends on a dangling user message. That holds when recovery
  had a run to close; a run closed as failed is not recovered (`Guarantees.EndsOnUserExactly`,
  `Endings.FailedCallEndsOnPrompt`).
- crates/agent/src/journal.rs says `run_finished` is called exactly once on every path. `send` calls it never when
  `run_started` fails, and twice when the completing call fails at its record, its marker, its path read or its
  metadata (`Agents.Agent.Send`, `Agents.FinishedTwice`); the first outcome on record stays
  (`Guarantees.FirstOutcomeSticks`).
- crates/tools/src/fs.rs says a hash collision degrades to an error, never a wrong edit. The anchor is applied to
  other content exactly when a different line with its hash stands in the anchored place, or nothing there has it and
  the one line that has it is different (`Hashlines.MisappliedExactly`); and with four hex digits such lines exist
  (`Hashlines.SomeAnchorsMisapply`).
- crates/harness/src/pen.rs says a replayed spawn of a completed child returns its recorded answer without touching
  the provider. For the pen alone that is so (`Pens.ReplayReturnsAnswer`). It reads the last finished run's outcome
  and the path's last reply, which belong to different runs once another process has opened a run on the child
  (`Pens.ReplayAnswersExactly`, `PenRuns.OpenRunAnswers`); the pen runs a completed child again exactly when a
  background task of it was waiting, which takes two calls of one id in a reply (`PenRuns.RunAgainExactly`,
  `PenRuns.RepeatedSpawnRunsAgain`); and a child whose spawn died between its two inserts never answers
  (`PenRuns.AnswersExactlyWithLane`).
- The streaming and the buffered form of one Anthropic response differ on empty text blocks and on a missing stop
  reason (`Anthropic.StreamingRefinesBuffering`).
- A patch rewrites the CRLF line endings of the whole file (`TextLines.UntouchedFile`).

## Model

| member | source | states |
|---|---|---|
| Guarantees.CrashAnywhere | crates/store/src/recovery.rs:29-109 | Any run, killed after any event, then recovered, with the recovery itself killed and restarted any number of times at any of its writes: the rows are those of one uninterrupted recovery, no run is open, no earlier row was changed, every tool that ever began is answered in a complete batch, and the run is fully paired exactly when the crash missed the window between the assistant entry and the last intent record |
| Recoveries.RecoveryConverges | crates/store/src/recovery.rs:5-9 | From any rows whose ids are built as the code builds them, recovery cut at any writes and restarted any number of times reaches the rows of one uninterrupted recovery (all but the lane's marker column, which no decision reads) |
| Recoveries.RecoveredState | crates/store/src/recovery.rs:29-109 | After recovery no run is open, nothing that was on the path or in the records is changed or removed, and the path ends on a user message if and only if it still does once the batches are filled and a closing entry of that run exists already |
| Recoveries.FillResumes | crates/store/src/recovery.rs:54-78 | A recovery cut inside its synthesized entries is taken up by the next one exactly where it stopped |
| Recoveries.FinishCloses | crates/store/src/recovery.rs:103 | The finish record closes the one open run and leaves none open |
| Recoveries.OwnMarkerOnly | crates/store/src/lib.rs:679-709 | Starting a run marks the lane with it; finishing one clears the marker where it names that run and leaves any other alone |
| Recoveries.CutOnce | crates/store/src/recovery.rs:29-109 | Recovery killed once, after any number of its transactions, and run again gives the same rows |
| Syntheses.RecoveryWritesExactly | crates/store/src/recovery.rs:54-103 | What recovery writes, for any rows with one open run, told from the records: for each results entry that an intent of the run provisions and that is not there, that entry, with an error result for each of its calls in record order that says it was interrupted; then the closing note, exactly if such an entry was missing or the path ended on a user message; last the finish as aborted and the marker; nothing else |
| Syntheses.GroupingExact | crates/store/src/recovery.rs:34-52 | Grouping loses no intent, keeps record order, and makes one batch for each results entry |
| Guarantees.NeverCorrupt | crates/store/src/lib.rs:712-759 | In every reachable state the reducer reports idle or one open run, never corruption |
| Guarantees.NoEffectUnanswered | crates/agent/src/lib.rs:228-276 | After recovery every tool that ever began executing has its result, in an entry that answers every call of the assistant message just before it |
| Guarantees.InterruptedBatchAnswered | crates/store/src/recovery.rs:34-78 | Recovery of an interrupted batch appends exactly two entries: at the provisioned id, right behind the assistant message, results for the recorded calls - a prefix of its calls, in request order, each once - each an error that says the tool was interrupted, and then the closing note |
| Guarantees.NothingInterrupted | crates/store/src/recovery.rs:83-101 | With no intent pending recovery adds only the closing note, and only behind a user message |
| Guarantees.PairedAfterCrash | crates/agent/src/lib.rs:226-276 | After a crash in any state and a recovery, every call of the run has exactly one result if and only if the process was not between the assistant entry and the last intent record |
| Guarantees.NothingRanInWindow | crates/harness/src/lib.rs:123-147 | While the intents of a batch are being recorded no tool of the batch has begun |
| Guarantees.CancelledRunsPair | crates/harness/src/pen.rs:498-543 | A run stopped inside the provider call or the tool batch is fully paired by the next recovery |
| Guarantees.StoreRefinesMemory | crates/agent/src/lib.rs:172-280 | At every point of every run the durable path is the in-memory transcript plus at most the one assistant message whose batch is incomplete; between runs and at every provider request the two are equal |
| Guarantees.EndsOnUserExactly | crates/store/src/recovery.rs:80-101 | The path ends on a user message after recovery if and only if recovery had nothing to do and it ended so before |
| Endings.FailedCallEndsOnPrompt | crates/agent/src/lib.rs:172-188 | From any idle state, a run whose provider fails at its first request is a run of the protocol that is closed as failed, leaves recovery nothing to do, and leaves the path ending on the prompt |
| Endings.FailedRunEndsOnPrompt | crates/harness/src/lib.rs:333-352 | The concrete first case: a new session, one prompt, one failing request, recovered, ends on that prompt |
| Guarantees.ClosedAfterRefusal | crates/agent/src/lib.rs:178-185 | A run closed as failed after a refused write needs no recovery, and is paired on disk if and only if no assistant message with calls was waiting for its batch. (A refused `run_started` returns before anything is closed: of a run not yet prompted the statement only says what a close would leave) |
| Guarantees.FirstOutcomeSticks | crates/agent/src/lib.rs:248-254 | Finishing a run a second time, with any outcome, changes nothing; when the second call happens is `Agents.Agent.Send` |
| Guarantees.RepeatedCallIdLosesIntent | crates/harness/src/lib.rs:127-144 | Two calls with one id in a run share an intent record, so the second batch's results entry is named by no record; what that costs is `RepeatedCalls.BatchAnsweredExactly` |
| RepeatedCalls.BatchAnsweredExactly | crates/harness/src/lib.rs:123-147 | With a reply on disk and `tool_batch` back, so that its tools may begin, a crash is followed by a recovery that answers the batch's calls if and only if their ids are distinct and none had an intent record in the run before; otherwise no call of the reply is answered |
| Windows.RecordedIdUnanswered | crates/store/src/recovery.rs:34-78 | One call whose id already has a record in the run costs every call of its reply the results |
| Windows.RepeatedIdLosesBatch | crates/harness/src/lib.rs:129-134 | It is reached: from a new session a run of the protocol answers a call and asks the provider again; a reply that repeats the id has its record on disk, and recovery does not answer it |
| Windows.WindowReached | crates/harness/src/lib.rs:127-144 | From any idle session, any reply with distinct call ids and any k below their number, a run of the protocol ends with k intents on disk; it stands in the window, recovery answers exactly the first k calls, and the run is not paired |
| Windows.TwoCallsOneAnswered | ARCHITECTURE.md:234-238 | The smallest such crash: a new session, a reply with two calls, one intent recorded; recovery answers the first call alone, not the whole batch |
| Safety.EventKeeps | crates/agent/src/lib.rs:172-280 | Every step of the run protocol keeps the invariant that ties rows, phase, memory and the log of tool effects together |
| Safety.AlwaysInv | crates/agent/src/lib.rs:172-280 | The invariant holds after every prefix of every run, that is, wherever a crash can fall |
| CrashSafety.RecoverySettles | crates/store/src/recovery.rs:29-109 | Recovery of any crash state ends in a durable state with every intent answered and no run open |
| CrashSafety.RecoveryStep | crates/store/src/recovery.rs:29-109 | Whatever transaction recovery commits next, the rows it leaves are rows recovery can take up again, and no row is lost |
| CrashSafety.TailBatch | crates/store/src/recovery.rs:34-52 | Grouping the run's intents by results entry yields the landed batches followed by the one interrupted batch, its intents in order |
| Systems.ReachableInv | crates/harness/src/pen.rs:424-432 | The system invariant holds over every interleaving of any number of processes that acquire, start, recover, run, stop, finish, drop and crash on one session |
| Systems.ActKeeps | crates/store/src/worker.rs:39-99 | Every act of every process keeps the system invariant |
| Systems.SingleOpenRun | crates/store/src/lib.rs:656-759 | Over all those interleavings at most one run is open, the reducer never reports corruption although starting a run takes two transactions, and each run has at most one finish record |
| Systems.HistoryOnlyGrows | crates/store/src/lib.rs:506-652 | No sequence of acts rewrites or removes a record or an entry, so a run's first outcome never changes |
| Systems.EveryEffectAnswered | crates/store/src/recovery.rs:54-78 | In every reachable state of the system each tool that ever began is answered in a complete batch by the next recovery |
| Systems.CancelledRunPairs | crates/harness/src/pen.rs:498-543 | Whichever process stops a run by cancellation or timeout, the recovery that follows pairs every call of that run |
| Systems.StopsExactly | crates/harness/src/pen.rs:498-512 | A dropped run stops inside the provider call, among the tools of a batch, or when it is over, and nowhere between two writes |
| Systems.Ownership | crates/store/src/worker.rs:39-99 | At most one process holds the lock; a started holder's generation is the row's with status running, so its own finish is never stale; a row that is not running carries no pid and no generation |
| Systems.CrashFreesTheSession | crates/store/src/worker.rs:5-6 | After a crash the rows are untouched and another process can acquire the session at once, whatever the row still says |
| Workers.WorkerStore.StartWorker | crates/store/src/lib.rs:375-392 | The row is claimed with a new generation, or the write is refused, or there is no such session; then the row is unchanged and the error says which |
| Workers.WorkerStore.FinishWorker | crates/store/src/lib.rs:396-414 | The row becomes terminal, without pid and generation, only for its own generation; a stale one changes nothing and says so |
| Workers.SessionWorker.Acquire | crates/store/src/worker.rs:40-69 | Succeeds exactly when nobody holds the lock and the lock file can be opened and written, and then holds it; a held lock is told apart from a failing file, and a failed acquire leaves the lock as it was |
| Workers.SessionWorker.Start | crates/store/src/worker.rs:71-77 | A second start before a finish is refused and changes nothing; a refused write leaves the worker not started |
| Workers.SessionWorker.Finish | crates/store/src/worker.rs:79-87 | Not started, stale and refused are told apart and change nothing; success spends the generation |
| Workers.SessionWorker.Drop | crates/store/src/worker.rs:90-99 | A worker dropped before it finished ends its own row as failed if the store allows, never another's, and always unlocks |
| Sessions.CommitChain | crates/store/src/lib.rs:506-550 | Every transaction, with any ids, keeps the entries one chain in append order ending at the leaf, ids distinct, and one strictly increasing number sequence shared by both tables |
| Sessions.CommitAllChain | crates/store/src/lib.rs:506-652 | So does any sequence of transactions, with any ids and in any order |
| Sessions.NumbersDense | crates/store/src/lib.rs:877-886 | Every entry and every record takes the next number of one counter, and nothing else takes one |
| Sessions.AppendExtendsPath | crates/store/src/lib.rs:503-550 | Appending a new id extends the root-to-leaf path by exactly that entry; an existing id changes nothing |
| Sessions.PathIsEntries | crates/store/src/lib.rs:573-604 | On a chain the walk from the leaf terminates without a corruption error and yields every entry, root first |
| Sessions.ReduceMeaning | crates/store/src/lib.rs:712-759 | The reducer answers idle exactly when no run is open, a run exactly when it alone is open, and corruption otherwise |
| Ids.RenderInjective | crates/harness/src/lib.rs:96-147 | Ids as the code spells them (`{run}:step:n`, `{run}:tool:id`, `{run}:finished`, `{run}:closing`) never collide, so idempotence by id never merges two writes |
| Ids.Spelled | crates/harness/src/lib.rs:96-147 | How the ids look in the database |
| Stores.Store.constructor | crates/store/src/lib.rs:283-299 | A new session is an empty chain with no open run |
| Stores.Store.AppendEntry | crates/store/src/lib.rs:506-550 | One transaction: all of it or nothing, the whole new state being the model's commit, with a refused one leaving no trace |
| Stores.Store.AppendRecord | crates/store/src/lib.rs:618-652 | The same for a record |
| Stores.Store.UpdateMarker | crates/store/src/lib.rs:668-709 | Sets the lane's marker, or clears it where it still names the run |
| Stores.Store.EntryExists | crates/store/src/lib.rs:564-570 | Says whether an entry has the id and changes no row |
| Stores.Store.DrainPath | crates/store/src/lib.rs:573-604 | The map-draining cursor loop computes the declarative path, including the missing-entry error |
| Stores.Store.Path | crates/store/src/lib.rs:573-604 | Reads the path, or reports corruption exactly when the declarative path is undefined, and changes no row |
| Stores.Store.PathMessages | crates/store/src/lib.rs:607-613 | On a valid store it is the whole transcript in order and never a corruption error |
| Stores.Store.OpenRun | crates/store/src/lib.rs:712-759 | The three-row query with its grouping loop computes the reduction of all records |
| Stores.Store.StartOperation | crates/store/src/lib.rs:656-684 | Succeeds exactly when no run is open and the disk grants its three accesses, and then a fresh run is recorded and marked; otherwise nothing changed, or exactly the run's record is there without the marker |
| Stores.Store.FinishOperation | crates/store/src/lib.rs:687-709 | Commits a prefix of finish record and marker, all of it on success; at most one finish record with this outcome is added and no entry changes |
| Migrations.MigrateSession | crates/store/src/lib.rs:900-922 | One session of flat messages becomes a chain that reads back as exactly those messages in order, each with its content and the user's exactly where the old row says user, with no open run; it fails exactly when some content is not JSON |
| Migrations.Migrate | crates/store/src/lib.rs:890-924 | All sessions migrate, each to its own message list, or none does |
| Journals.StoreJournal.RunStarted | crates/harness/src/lib.rs:78-94 | The run record, the marker and the prompt, in that order, with fresh ids; on failure no entry is added and the run is not adopted |
| Journals.StoreJournal.StepAttempt | crates/harness/src/lib.rs:96-108 | One record named by run and attempt, or an error without effect |
| Journals.StoreJournal.AssistantMessage | crates/harness/src/lib.rs:110-121 | One entry with a fresh id, or an error without effect |
| Journals.StoreJournal.ToolBatch | crates/harness/src/lib.rs:123-147 | On success every intent is on disk and all name the one provisioned entry; on failure exactly the intents before the refused one are |
| Journals.StoreJournal.ToolResults | crates/harness/src/lib.rs:149-163 | The results land at the id the intents provisioned; without a pending batch nothing is written |
| Journals.StoreJournal.RunFinished | crates/harness/src/lib.rs:165-187 | Finish record, marker, path read and metadata; it succeeds exactly when the disk grants all four accesses, and the run id is forgotten only then, which is what lets a failure finish a run twice |
| RecoveryRuns.GroupIntents | crates/store/src/recovery.rs:34-52 | The search-and-push loop groups intents by results entry, groups and members in first-appearance order |
| RecoveryRuns.FillBatches | crates/store/src/recovery.rs:54-78 | Appends one synthesized entry for each batch that has none and counts the interrupted calls; a refusal leaves a prefix of the plan |
| RecoveryRuns.CloseTranscript | crates/store/src/recovery.rs:83-103 | The closing note exactly when the path ends on a user message, then the finish |
| RecoveryRuns.Recover | crates/store/src/recovery.rs:29-109 | The store's rows are always a prefix of the recovery plan applied, all of it on success; the report names the run, counts the run's intents whose results entry was missing, and says a note was added exactly if there were any or the path ended on a user message |
| Agents.Agent.Send | crates/agent/src/lib.rs:172-188 | Whatever provider, tools and disk do: the run's messages are paired, at most max_turns requests are made, no tool begins before its intent is on disk, the disk holds the memory plus at most one unanswered assistant message, and that only after a refused write. On success the transcript is the prompt, every earlier reply with its own tools' outputs, and the final reply, whose text is the answer. A run is closed last and once: on record as completed only if its last reply was complete and asked for nothing, as truncated only if the reply was cut; with no access refused a run that was started is closed, and the record says what the caller is told. `run_finished` is called never if the run could not be started, twice if the completing call failed, and else once. Without refusals and with distinct call ids the writes are a run of the protocol |
| Agents.FinishedTwice | crates/agent/src/journal.rs:60-63 | The input on which `run_finished` is called twice: a new session, a first reply that is complete and calls nothing, and a disk that refuses any one of the four accesses of the completing call; with none of them refused it is called once |
| Agents.Agent.Settle | crates/agent/src/lib.rs:177-187 | The loop and the closing of a run that failed: as truncated behind a cut reply and otherwise as failed, unless it was completed before; `run_finished` is called once, or twice exactly when the completing call failed and the reply stands in memory |
| Agents.Agent.Drive | crates/agent/src/lib.rs:190-280 | The turn loop: the same, turn by turn, and running out of turns leaves exactly max_turns complete exchanges |
| Agents.Agent.NextTurn | crates/agent/src/lib.rs:191-276 | One more turn: the transcript stays the start plus the complete exchanges so far, the tool executions add up, and the events so far stay a run of the protocol |
| Agents.Agent.OneTurn | crates/agent/src/lib.rs:191-276 | One turn adds the reply and the results of its own calls, or the final reply, or nothing |
| Agents.Agent.Respond | crates/agent/src/lib.rs:228-276 | The reply with calls joins the memory only together with its results |
| Agents.Agent.Consult | crates/agent/src/lib.rs:191-226 | The step record precedes the request, one request is made, and the reply is on disk before it is used |
| Agents.Agent.TakeStep | crates/agent/src/lib.rs:192 | The step record of the attempt, or an error without effect; no intent is recorded by it |
| Agents.Agent.Open | crates/agent/src/lib.rs:179-182 | The run is recorded, marked and prompted on disk before the prompt joins the memory; on failure the memory is unchanged |
| Agents.Agent.KeepReply | crates/agent/src/lib.rs:222-226 | The reply is appended as the next entry of the path, or nothing is |
| Agents.Agent.Conclude | crates/agent/src/lib.rs:243-257 | A reply without calls ends the run: on record as completed, with its text, or, at the token limit, not closed here and reported as truncated with its text |
| Agents.Agent.RunBatch | crates/agent/src/lib.rs:259-276 | Intents, then tools, then results on disk, then both messages in memory; each call of the reply has its own result at its place among the calls, and ran alone unless its tool is parallel-safe on its input |
| Agents.Agent.Announce | crates/agent/src/lib.rs:258-260 | All intents are on disk before any tool may begin; on a refusal no tool may, and in either case no run is closed |
| Agents.Agent.Execute | crates/agent/src/lib.rs:263-274 | Each intent's result carries its own call id and its own tool's capped output, or as an error its capped error or the complaint of an unknown tool, in request order; a call whose tool is unknown or not parallel-safe on its input runs alone; and every schedule the runtime may take is possible |
| Agents.Agent.ResultAt | crates/agent/src/lib.rs:263-273 | The results message of a reply has one result per call; each call's is at its place among the calls, with its id and its own tool's capped output or error |
| Agents.Agent.IntentAt | crates/agent/src/lib.rs:228-241 | The intent of each call of a reply carries that call's id, name and input, and whether its tool is safe to replay |
| Agents.Agent.Intents | crates/agent/src/lib.rs:228-241 | One intent per call of the reply, in order, with the replay flag of its tool |
| Agents.Agent.CloseFailed | crates/agent/src/lib.rs:178-185 | Closing after an error is best effort, keeps every entry, and adds at most the run's finish record: truncated for a cut reply, failed for any other error |
| Llm.PairedAppend | crates/agent/src/lib.rs:259-276 | Appending a reply with exactly its results keeps a transcript paired |
| Schedulers.ExecuteBatch | crates/agent/src/lib.rs:291-327 | In every interleaving each call runs exactly once, at most max(1, max_parallel_tools) at a time, a call that is not parallel-safe begins after all earlier calls ended and ends before any later one begins, and the outputs are in request order. And every such schedule can happen: whatever order the runtime would have calls begin and end in, if it is one, is the order they do |
| Schedulers.RunGroup | crates/agent/src/lib.rs:306-319 | A group under the semaphore, tasks starting and finishing in any order the permits allow and in every such order, returns every output at its own index within the permit bound |
| Schedulers.ScheduleConcat | crates/agent/src/lib.rs:304-325 | Schedules of consecutive groups compose into a schedule of the batch |
| Pens.BudgetHolds | crates/harness/src/pen.rs:296-310 | Whatever is spawned, launched, replayed, killed and restarted, by the pen and by processes outside, in any order, a parent never has more children than its budget |
| Pens.SpawnExactly | crates/harness/src/pen.rs:296-320 | The budget is exact: a spawn of a new child makes it, with its lane row, empty, and waiting or acquired, if and only if there are fewer children than the budget; otherwise nothing changes and the answer is how many there are |
| Pens.BudgetReached | crates/harness/src/pen.rs:296-310 | Every number of children up to the budget is reached, by as many calls that name different ids |
| Pens.RepliesExactly | crates/harness/src/pen.rs:283-342 | What a spawn answers, case by case: running already, budget used up and how much of it, the text of the last assistant message of a child whose last run that ended completed, or that the child will run |
| Pens.OneChildPerCall | crates/harness/src/pen.rs:172-180 | The children are among the ids the calls name, however often calls are replayed; no child disappears and none loses history |
| Pens.ReplayReturnsAnswer | crates/harness/src/pen.rs:8-12 | For a parent's pen alone, from its first spawn: once a child's run completed, whatever the pen does then - replays, its own death, recoveries - no run of the child is started and no provider asked again, and spawning the call returns the text that run returned and changes nothing |
| Pens.ReplayAnswersExactly | crates/harness/src/pen.rs:320-342 | With any processes from outside: after a run completed, a replay returns its text if and only if no run that ended since ended otherwise than completed, and no assistant message was appended since or the last one has the same text; and the child is run again if and only if the last run that ended since ended otherwise |
| PenRuns.RunAgainExactly | crates/harness/src/pen.rs:357-371 | With no process from outside, the pen itself starts a completed child again and asks its provider if and only if a background task of the child was still waiting to acquire it when its run completed |
| PenRuns.RepeatedSpawnRunsAgain | crates/harness/src/pen.rs:284-290 | That is reached, from a new family: a foreground and a background spawn of one call in the same reply both find the child not completed, and the background task launches once the other has completed |
| PenRuns.OpenRunAnswers | crates/harness/src/pen.rs:330-338 | The other exception is reached, from a new family and for any two replies: the child completes with the first, a process outside opens a run and gets the second, and a replay returns the second |
| PenRuns.AnswersExactlyWithLane | crates/store/src/lib.rs:315-324 | From any state a child can come to answer a replay if and only if its lane row was inserted: then, once whoever holds it is gone, a spawn can recover, run and complete it |
| PenRuns.BackgroundAnswers | crates/harness/src/pen.rs:357-371 | A background spawn gets there too: its task launches, runs the child to a reply and completes it; until the child has left the registry a replay answers that it is running, and then the reply |
| PenTools.RunIsSpawn | crates/harness/src/pen.rs:283-371 | What the tool decides and leaves in rows, lanes and registry is the delegation machine's spawn: the same reply, and the family after it |
| Pens.CompletionRests | crates/agent/src/lib.rs:246-257 | Completing a run leaves the completed outcome on record and its reply's text as the last answer of the path |
| Pens.QuietActKeeps | crates/harness/src/pen.rs:424-437 | While no run is open, only the start of another run changes any row |
| PenRuns.HalfCreatedChildIsStuck | crates/store/src/lib.rs:304-325 | A spawn that dies between the session row and the lane row leaves a child that every later spawn reuses, that keeps its place in the budget, and whose transcript stays empty with no run ever completing |
| Pens.LanelessPromptRefused | crates/store/src/lib.rs:525-529 | A prompt for a child without a lane row is refused; its process stops and the run stays open |
| Pens.ParentDeathFrees | crates/harness/src/pen.rs:357-371 | When the pen's process dies, its registry, its tasks and its hold on every child it ran are gone; no row changes and no child that someone else holds is touched |
| Pens.LockKeepsOthersOut | crates/harness/src/pen.rs:424-432 | While the pen runs a child, another process can only try to acquire it, which changes nothing |
| PenTools.PenTool.Run | crates/harness/src/pen.rs:263-355 | Whatever the disk does no child row is lost or altered and the budget holds. Input errors are told apart. With a sound disk and valid input the budget error comes exactly for a new child when there are max or more, with their number; a new child below that is made, with its lane; a completed child answers its last assistant text; any other runs |
| PenTools.PenStore.Exists | crates/harness/src/pen.rs:298 | Never finds a child that is not there; misses one that is only when the read is refused |
| PenTools.PenStore.CountChildren | crates/store/src/lib.rs:341-347 | The number of child rows, whatever their state |
| PenTools.PenStore.CreateChildSession | crates/store/src/lib.rs:304-325 | Idempotent on the id; two transactions, of which the second may be refused alone |
| PenTools.PenStore.LastRunOutcome | crates/store/src/lib.rs:350-368 | The outcome of the latest finish record, found from the end |
| PenTools.PenStore.RecordedAnswer | crates/harness/src/pen.rs:330-338 | The text of the last assistant message on the path, or empty |
| Hashlines.AnchorParses | crates/tools/src/fs.rs:342-358 | The anchor printed for a line parses back to its line number and hash |
| Hashlines.AnchorsExactly | crates/tools/src/fs.rs:342-358 | Which texts are anchors, and of what: "0" of the top, and a line number from 1 on, a hash sign and four hex digits of either case; anything else is complained of |
| Hashlines.NumbersExactly | crates/tools/src/fs.rs:352 | Which texts are line numbers: decimal, perhaps behind a plus sign, within a 64-bit word |
| Hashlines.RowStartsWithAnchor | crates/tools/src/fs.rs:29-37 | A printed row is its anchor up to the first tab |
| Hashlines.AnchorRoundTrip | crates/tools/src/fs.rs:364-367 | Against the unchanged file every line's anchor resolves to that very line, duplicates included |
| Hashlines.ResolveMeaning | crates/tools/src/fs.rs:364-391 | A resolution names a line with the anchor's hash; it is the numbered line when that one still matches, else the only line that does; it fails exactly when the numbered line changed and the hash is on no line or on several |
| Hashlines.StaleShowsContext | crates/tools/src/fs.rs:378-390 | A stale anchor is answered with the rows of the numbered line, or of the last one, and of the three lines before and behind it |
| Hashlines.AnchorsNeverMisapply | crates/tools/src/fs.rs:29-37 | If no other line of the changed file has the anchored hash, a success names a line with the anchored content |
| Hashlines.MisappliedExactly | crates/tools/src/fs.rs:364-391 | An anchor of one version is applied to other content in another if and only if a different line with its hash stands in the anchored place, or nothing there has the hash and the only line that has it is a different one |
| Hashlines.SomeAnchorsMisapply | crates/tools/src/fs.rs:18-26 | Whatever the four-digit hash, two different lines share one: an anchor of the first is accepted in place of the second, and is followed to the second elsewhere |
| Hashlines.CollisionIsFollowed | crates/tools/src/fs.rs:364-376 | The anchored line was edited away, and the anchor is followed to another line that alone has its hash |
| Hashlines.CollisionIsAccepted | crates/tools/src/fs.rs:18-21 | A changed line whose new content has the old hash is accepted as unchanged: the injectivity is needed |
| Patches.ResolvedInRange | crates/tools/src/fs.rs:409-493 | Every resolved hunk addresses lines or a gap that exist |
| Patches.HunkOnReadFile | crates/tools/src/fs.rs:405-493 | Hunks written with the anchors of the file just read replace or delete exactly the line named, or insert right behind it or at the top, and count no move |
| Patches.SpanHunkOnReadFile | crates/tools/src/fs.rs:450-481 | With a second anchor they replace or delete exactly the lines between the two, both included, and are refused when the second is above the first |
| Patches.HunkLands | crates/tools/src/fs.rs:405-481 | Where any hunk lands, however its anchor moved: a replacement or deletion takes exactly the line the anchor names, an insertion the gap right behind it, and the report counts the anchor if it moved |
| Patches.SpanLands | crates/tools/src/fs.rs:450-481 | With a second anchor, exactly the lines from the one to the other, both included; the moved anchors are counted; refused when the second is above the first |
| Patches.HunkResolvesExactly | crates/tools/src/fs.rs:403-493 | A hunk resolves if and only if it has a known shape, its anchors read, and each names a line, the second not above the first; or it inserts at the top |
| Patches.HunkComplaints | crates/tools/src/fs.rs:405-493 | What is complained of in a hunk that has no anchor, a bad one, or the wrong fields for what it asks |
| Patches.OverlapCheckComplete | crates/tools/src/fs.rs:496-503 | The test on adjacent sorted splices passes exactly when all splices are pairwise disjoint with distinct starts |
| Patches.Sort | crates/tools/src/fs.rs:497 | Sorting permutes the splices into (start, end) order |
| Patches.ParseHunks | crates/tools/src/fs.rs:400-505 | Fails exactly with the first hunk that does not resolve, or when two resolved hunks touch; otherwise returns the resolved splices, sorted, in range and disjoint, and the number of moved anchors |
| Patches.SortedUnique | crates/tools/src/fs.rs:496-503 | There is only one accepted order of a set of splices |
| Patches.PermutedHunks | crates/tools/src/fs.rs:400-505 | The order of the hunks changes neither whether they resolve nor the splices nor the count of moved anchors |
| PatchApplication.ApplySplices | crates/tools/src/fs.rs:595-598 | Splicing in place from the last to the first equals one left-to-right merge of the original with every span replaced |
| PatchApplication.LineSurvives | crates/tools/src/fs.rs:595-598 | Every uncovered line is in the result, at its index plus the net growth of the splices that end at or before it |
| PatchApplication.SurvivorsKeepOrder | crates/tools/src/fs.rs:595-598 | Surviving lines keep their order |
| PatchApplication.ContentLands | crates/tools/src/fs.rs:595-598 | Every splice's content stands where its span stood, moved by the growth of the splices before it |
| PatchApplication.MergedLength | crates/tools/src/fs.rs:595-598 | The result has no further lines |
| PatchApplication.EditPatch | crates/tools/src/fs.rs:589-608 | An empty patch, an unresolved hunk and an overlap are errors that yield no text; otherwise the text is the merge of the resolved splices, the hunk count and the moved count are reported, and the final newline is kept |
| PatchApplication.OneHunkEdits | crates/tools/src/fs.rs:580-603 | One hunk, end to end and however its anchor moved: the new file is the old one with exactly the line the anchor names replaced or taken out, or with the new lines right behind it |
| PatchApplication.OneSpanEdits | crates/tools/src/fs.rs:580-603 | With a second anchor, exactly the lines between the two, both included |
| PatchApplication.HunkOrderIrrelevant | crates/tools/src/fs.rs:400-505 | Two patches with the same hunks in any order are accepted alike and give the same file and report |
| PatchApplication.PatchedFileRereads | crates/tools/src/fs.rs:594-602 | Reading the new file back gives the merged lines if and only if no newline-terminated line ends in a carriage return and the last line is visible in the text |
| TextLines.SplitJoin | crates/tools/src/fs.rs:416 | Splitting hunk content at newlines loses nothing |
| TextLines.FileRereads | crates/tools/src/fs.rs:594-602 | The same characterisation for any list of lines |
| TextLines.UntouchedFile | crates/tools/src/fs.rs:594-602 | Taking a file apart and writing it back restores it if and only if it has no CRLF ending and is not a single newline |
| Utf8.BoundarySplits | crates/tools/src/lib.rs:154-159 | Text splits into two well-formed parts at a position if and only if it is a character boundary (UTF-8 as in section 4 of RFC 3629) |
| Utf8.EncodedIsCharacter | crates/tools/src/lib.rs:152-160 | The bytes of every Unicode scalar value, as RFC 3629 builds them, are one well-formed character |
| Utf8.CharacterIsEncoded | crates/tools/src/lib.rs:152-160 | And every well-formed character is the bytes of one scalar value: no overlong forms, no surrogates, nothing above the last code point |
| Utf8.Utf8Concat | crates/tools/src/lib.rs:160-167 | Well-formed texts concatenate, and every character stays whole |
| Utf8.LastBoundaryNear | crates/tools/src/lib.rs:153-156 | The search downwards for a boundary stops within three bytes |
| Utf8.FirstBoundaryNear | crates/tools/src/lib.rs:157-160 | The search upwards for a boundary stops within three bytes |
| Utf8.TruncateMiddle | crates/tools/src/lib.rs:148-168 | A text that fits is returned as it is; otherwise the largest whole-character head and tail within half the budget each, around a marker |
| Utf8.TruncationBounds | crates/tools/src/lib.rs:148-168 | For every limit the cuts do not pass each other, the kept bytes total between max - 7 and max, head, elided middle and tail are whole characters of the original, the reported count is exact and the result is well-formed; the marker's two numbers read back as the bytes left out and the bytes there were |
| Utf8.NoticeSays | crates/tools/src/lib.rs:161-167 | The marker says in decimal how many bytes are left out, and of how many |
| Utf8.CapResult | crates/agent/src/lib.rs:363-373 | The longest whole-character prefix within 262144 bytes and the marker: at most three bytes below the limit, never more than limit plus marker, always well-formed |
| Anthropic.StreamAccumulator.Handle | crates/llm/src/anthropic.rs:277-359 | Each JSON event moves the fields and the forwarded fragments exactly as the event step does |
| Anthropic.StreamAccumulator.Finish | crates/llm/src/anthropic.rs:361-396 | Collects the blocks in order; the first tool whose arguments do not parse is the error |
| Anthropic.NoiseIgnored | crates/llm/src/anthropic.rs:277-359 | Pings and unknown events change nothing, wherever they come |
| Anthropic.ScriptAccumulates | crates/llm/src/anthropic.rs:277-359 | A message's events accumulate exactly its blocks, stop reason and counts, and forward exactly its text fragments, in order |
| Anthropic.StreamingRefinesBuffering | crates/llm/src/anthropic.rs:535-568 | `finish` on a message's events is `from_wire` on the whole message less empty text blocks; it fails exactly when some tool's arguments do not parse; a missing stop reason is malformed when buffered and an ended turn when streamed |
| Anthropic.StopReasons | crates/llm/src/anthropic.rs:381-386 | What each documented stop reason becomes; any other is handed on as it is |
| Anthropic.FragmentsApply | crates/llm/src/anthropic.rs:312-338 | A text fragment is forwarded always and added to its block if that holds text, an argument fragment to its block if that is a call; no other block changes |
| Anthropic.LastWordCounts | crates/llm/src/anthropic.rs:339-357 | A later stop reason or count replaces the earlier one and a missing one does not; an error event is a stop reason of its own |
| Framing.FramesExtend | crates/llm/src/anthropic.rs:229-236 | Text that arrives later never changes a frame that is complete |
| Framing.Drain | crates/llm/src/anthropic.rs:234-236 | Draining the buffer handles the events of exactly its complete frames and leaves the rest |
| Framing.HandleFrame | crates/llm/src/anthropic.rs:236-247 | The `data:` lines of a frame in order, skipping empty and unparsable ones |
| Framing.LinesExactly | crates/llm/src/anthropic.rs:236-247 | A line carries an event exactly if it starts with the field name and holds JSON behind it |
| Framing.ReceivedExactly | crates/llm/src/anthropic.rs:229-232 | What counts as received is every chunk up to the transport error, if there is one |
| Framing.ReadStream | crates/llm/src/anthropic.rs:225-251 | However the text is cut into chunks, outcome and forwarded fragments are those of the whole text; a transport error ends it |
| Framing.EventReadsBack | crates/llm/src/anthropic.rs:277-359 | Every event the server can send is read back from its JSON form |
| Framing.StreamReadsBack | crates/llm/src/anthropic.rs:229-251 | Framed events are read back one by one, each under its own event name |
| Framing.StreamedMessage | crates/llm/src/anthropic.rs:225-251 | A message sent as framed events, each under its own name, in any chunks gives the response of the message received whole, less empty text, and forwards exactly its text fragments |
| AnthropicRequest.RequestKeepsPairing | crates/llm/src/anthropic.rs:460-478 | Dropping foreign blocks and the messages they leave empty never separates calls from their results |
| AnthropicRequest.BlockCarried | crates/llm/src/anthropic.rs:504-525 | Every block that belongs to no particular provider is sent, at its place among those, with the same text, call or result, an error exactly if it was one; no other block is |
| AnthropicRequest.BlocksReturn | crates/llm/src/anthropic.rs:504-525 | Texts and calls sent and read back are the same, in order |
| ChatCompletions.ToWire | crates/llm/src/chatcompletions.rs:171-251 | The pushing loops build the flattened entry list |
| ChatCompletions.Push | crates/llm/src/chatcompletions.rs:182-232 | One message: tool entries first and then the text for a user, one entry with text and calls for an assistant, nothing when there is nothing to say |
| ChatCompletions.FlatteningKeepsPairing | crates/llm/src/chatcompletions.rs:171-251 | For every well-formed transcript each assistant entry with calls is followed at once by one tool entry per call, in order, and tool entries stand nowhere else |
| ChatCompletions.RequestPaired | crates/llm/src/chatcompletions.rs:171-251 | The same for the whole request, with or without a system prompt |
| ChatCompletions.PairedIsWellFormed | crates/agent/src/lib.rs:259-276 | The transcripts the agent keeps, without stray results, are well-formed in that sense |
| ChatCompletions.UserReaches | crates/llm/src/chatcompletions.rs:217-249 | A user's message on the wire: its tool results first, each its own text under its call's id and marked exactly if an error, then all its text in one entry, if any; nothing else |
| ChatCompletions.FinishReasons | crates/llm/src/chatcompletions.rs:311-320 | What each finish reason of a choice without calls becomes; with calls none of them matters |
| ChatCompletions.FromWire | crates/llm/src/chatcompletions.rs:279-334 | The first choice only: its text, its calls in order, and errors for no choice or bad arguments |
| ChatCompletions.AssistantReturns | crates/llm/src/chatcompletions.rs:184-219 | An assistant message sent and read back is its joined text and its calls, and stops for tools exactly when it calls some |
| Codex.ToInput | crates/llm/src/codex.rs:169-244 | The flushing loops build the item list |
| Codex.PushAssistant | crates/llm/src/codex.rs:173-209 | Texts are gathered until a call or a replayable reasoning item flushes them, and at the end |
| Codex.PushUser | crates/llm/src/codex.rs:211-240 | Outputs as they come, then one message with the texts, if any |
| Codex.UserReaches | crates/llm/src/codex.rs:211-240 | A user's message as items: its tool results first, each its own text under its call's id and marked exactly if an error, then one message with all its texts, if any; nothing else |
| Codex.ToResponse | crates/llm/src/codex.rs:328-432 | The response a body stands for: error, content item by item, stop reason and usage |
| Codex.PartsSay | crates/llm/src/codex.rs:352-372 | A text says itself, a refusal its reason or a stock sentence, an empty text no block, any other part nothing |
| Codex.BodyReads | crates/llm/src/codex.rs:408-432 | A body's counts are read as they are; it stops for tools as soon as one item is a call, else at the limit exactly when status and reason say so, else at the end of the turn |
| Codex.ReasoningReplays | crates/llm/src/codex.rs:249-266 | Reasoning is kept as it came and goes back to its own backend exactly if it has an id, its encrypted content, and no summary that is not a list |
| Codex.BareItems | crates/llm/src/codex.rs:345-406 | Fields that are missing are read as empty: a call, a text part, a refusal, the counts |
| Codex.ReplayKeepsOrder | crates/llm/src/codex.rs:169-266 | A response read and replayed reproduces its items in order - texts, calls, and replayable reasoning verbatim - and nothing else |
| Codex.ReplayMerges | crates/llm/src/codex.rs:174-209 | Adjacent texts are merged into one message item and nothing further: no two message items stand side by side and none is empty |
| CodexStream.ParseStream | crates/llm/src/codex.rs:270-326 | The first failure event is the error; otherwise the last terminal body, with the finished items as output unless it brought its own |
| CodexStream.FailureSays | crates/llm/src/codex.rs:292-306 | Where a failure event carries its message, in which order these are looked at, and the stock message |
| CodexStream.DataLines | crates/llm/src/sse.rs:8-20 | Which lines carry data: those with the field name, after any blanks, and more behind it than blanks or the end mark |
| CodexStream.FilledExactly | crates/llm/src/codex.rs:313-326 | The finished items become the output of a body without output of its own, its other fields kept; a body that is neither object nor null has none |
| CodexStream.StreamedItemsReplay | crates/llm/src/codex.rs:313-326 | Items streamed one by one come back on the next turn in the order they finished |
| CodexPairing.ReplayKeepsPairing | crates/llm/src/codex.rs:169-244 | In the items of every well-formed transcript each batch of calls is answered, one output per call in order, before the next call and before the end |

## Left out

- SQLite, JSON, UUID and SHA-256: a transaction is one atomic step, serialization is the identity (the wire
  adapters take a parser and a printer as parameters), version 4 ids are drawn fresh, version 5 ids and line hashes
  are functions. Injectivity is assumed only where a contract says so.
- Sessions beside the modelled one: a store object holds one session's rows. The code tests a row id against all
  sessions, which is the same because ids are fresh or derived from fresh ones.
- Usage, titles and timestamps, which recovery and reduction never read: the metadata update is a write without
  effect on the modelled columns.
- Entries of a kind other than "message", and lanes other than the main one: nothing in the repository writes them.
- The order in which the semaphore serves waiting calls, and the order in which concurrent tools see the world:
  the scheduler allows every order, and a tool's outcome is a function of its place in request order.
- Provider retries, delays, HTTP, timers, process liveness, detached spawning and the sandbox.
- Worktrees: where a child runs is filesystem and git behaviour, so `place_child` is not modelled.
- Systems.Ownership: a process that crashes leaves its row running; who reports such a row, and pid checks, are presentation.
- Pens.BudgetHolds: spawns under one parent are taken one at a time, as the parent's own lock and the code without an await between count and insert make them; two owners of one parent are not modelled.
- PenTools.PenTool.Run: ends where `run_child` begins; the child's run is a job of the machine in `Pen.dfy`, over that of `System.dfy`. Refused writes inside it are `Agents.Agent.Send`.
- Agents.Agent.Send: with a refused write or repeated call ids it promises pairing and bounds but no run of the protocol, because then there is none.
- Agents.Agent.Execute: the cap on a result is a function of its text here; its bytes are `Utf8.CapResult`.
- Stores.Store.StartOperation: of the record's payload only the source leaf is kept; the code passes no other field.
- Framing.ReadStream: chunks are text; the code decodes each chunk of bytes on its own, so a chunk that ends inside a character is replaced by replacement characters before framing starts.
- CodexStream.ParseStream: where the code panics on a terminal body that is neither object nor null the model returns an error value.
- Exact-string edits, file reading, directory listing, grep, glob, archives, SQLite files, URLs and shell tools.
- Request fields beside messages: model, tools, limits, cache markers and headers are copied through.
- Todos, session prefixes, the dashboard, the command line and authentication: true but small, or presentation.
