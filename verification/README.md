# Verified model of the aifluxon runtime, streams and credential store

This project models three parts of aifluxon in Dafny and proves what they promise.

**The run lifecycle.** A run is a conversation between a model, tools and a host.
`Operations` is the store of approvals and deferred commits, `RunLog` and `RunTable`
are the run table with its event logs, `Protocol` and `RunProtocol` are the whole run
as a transition system: the model/tool loop, the calls of a batch in parallel or in
sequence, the finisher that ends the run after the loop, and the host, which may decide, commit,
expire, emit or cancel between any two steps. Each locked method of the source is one
atomic step. The main results hold for every interleaving: nothing a run registered is
left open when its loop exits, the finisher is never refused, every finished run
has exactly one terminal event (`RunProtocol`), no tool call is started twice
(`AtMostOnce`), and none is started that the policy or the host did not permit (`Approvals`). `Forwarder` copies the log to the run's handle, which reports a result.
`WholeRun` runs the protocol and the forwarder side by side: a run whose loop has exited
ends, and a handle that is kept reports what the table says; it also shows that the
protocol's finisher is the table's `finish`. `ModelLoop` and `Conversation` follow the messages
instead: how often the provider is asked, and that calls and results stay paired in
every request and under one id in both wire encodings. `Transcript` and `Dialogue` follow
what is said: every text, call, result and prompt goes into the conversation and out on
both wires. `Turns` shows that what the stream assemblers finish meets the premises.

**Provider streams.** `Utf8`, `Sse` with `SseWire`, `Tags` with `Kimi` and `Gemini`, `Delta` and
`Assembler` are incremental decoders. Each is a stateful fast form, modelled as a class
with its loops, and each is proved equal to a function of the whole input, for every
way to cut the input into chunks. `Retry` is the attempt, refresh and fallback logic
above them.

**The credential store.** `Manifest` splits a secret into slots and names them;
`Keyring` stores it over a backend whose every call may fail, and proves that replacing
a value is one atomic switch at every moment and for every fault schedule.

`Wrappers` and `Texts` hold optional values, results and the two string operations that
several modules share.

## Premises

- `RunTable.Runs` methods take what other parties do while no lock is held as parameters:
  any calls on the table and the store.
- Run and operation ids are fresh when they are registered; ids derived from stable
  keys are abstract values.
- In `RunProtocol` only the coordinator registers operations of its run and only the
  spawned finisher ends it; operations are not removed during the run.
- Waiting is a step that is enabled when the state is no longer pending; results are
  about safety, apart from the step bounds of `ExitedRunsFinish` and `WholeRun`.
- The policy, the tools, the provider, clocks, budgets inside a protocol step and the
  choice between parallel and sequential batches are free choices.
- A failed backend call changes nothing, the hash is a function to 64 lower-case
  hexadecimal digits, and the random generation differs from the listed one.
- `Forwarder` and `WholeRun` results assume a log of fewer than 2^64 events, since numbers saturate.
- Executors' ledger entries behave as a set with lookup and record.

Where code and documentation could be read differently the code was followed: `emit`
may append a state change without changing the state, blank short secrets read as
absent, and the event parser's own boundary grammar (two line feeds, or two CR LF
pairs) is the specification.

## Model

| member | source | states |
|---|---|---|
| `RunProtocol.ExitLeavesNothingOpen` | crates/aifluxon-runtime/src/coordinator.rs:174-258 | under every interleaving of the loop, a sequential or parallel batch, the host and cancellation: once the loop has exited, every operation the run registered is terminal, or the run was cancelled and the loop exited with an error |
| `RunProtocol.FinishedRunsEnd` | crates/aifluxon-api/src/backend.rs:210-296 | in every reachable state the finisher was never refused for pending operations, and once it has ended the run is terminal and its log holds exactly one terminal event |
| `RunProtocol.ExitedRunsFinish` | crates/aifluxon-api/src/backend.rs:210-296 | after the loop exits, five steps of the finisher, with anything interleaved, are enough to end it |
| `WholeRun.FinisherIsTheTablesFinish` | crates/aifluxon-runtime/src/run_table.rs:315-342 | the finisher's check, write and closing with any actions of others in between are the table's `finish` with those actions as interference: refused together, too late together, else the same table and store |
| `WholeRun.ActionsSeen` | crates/aifluxon-runtime/src/run_table.rs:315-371 | after the loop, any actions of the other parties are exactly a list of table calls and store calls |
| `WholeRun.WholeRunEnds` | crates/aifluxon-api/src/backend.rs:210-296 | run and forwarder in any interleaving: a launched run whose loop has exited is over after five steps of its finisher, and enough steps of the forwarder give a kept handle the whole log; the run is completed only if its loop ended well |
| `WholeRun.ReportWholeRun` | crates/aifluxon-api/src/run.rs:35-63 | the handle of such a run reports exactly the table's outcome: success only if the loop ended well, cancellation exactly for a cancelled run, and the log has one terminal event |
| `WholeRun.ForwarderFinishes` | crates/aifluxon-api/src/backend.rs:510-530 | once the run is over, a forwarder with a kept handle stops at the end of the log within a bound on its own steps, whatever else happens |
| `WholeRun.ExecExtends` | crates/aifluxon-runtime/src/run_table.rs:239-371 | every atomic step of every party extends the run's log, and only the finisher of a loop that ended well completes the run |
| `WholeRun.DoAllKeeps` | crates/aifluxon-api/src/backend.rs:498-531 | protocol, forwarder and their shared record keep the joint invariant, and nothing is lost while the handle is kept |
| `RunProtocol.ExecKeeps` | crates/aifluxon-runtime/src/coordinator.rs:174-258 | the global invariant (every unfinished operation has a responsible call in the batch, each call knows what its place needs, sequential batches run in order, the finisher only ends settled runs) survives every atomic step of every party |
| `RunProtocol.ExecAllKeeps` | crates/aifluxon-runtime/src/coordinator.rs:174-258 | the invariant over whole runs |
| `RunProtocol.WorkKeeps` | crates/aifluxon-runtime/src/coordinator.rs:261-411 | a step of one tool call keeps the invariant for itself and for every call running beside it |
| `RunProtocol.JoinKeeps` | crates/aifluxon-runtime/src/coordinator.rs:218-256 | leaving a batch, by `collect` over a parallel one or by the first error of a sequential one, leaves no operation behind |
| `RunProtocol.FinishKeeps` | crates/aifluxon-runtime/src/run_table.rs:315-342 | the non-atomic `finish` (operation check, terminal write, closing the operations) keeps the invariant |
| `RunProtocol.HostKeeps` | crates/aifluxon-runtime/src/run_table.rs:344-371 | host calls on the store and the table, and both halves of a cancellation, keep the invariant at any moment |
| `RunProtocol.JoinedHoldsNothing` | crates/aifluxon-runtime/src/coordinator.rs:218-256 | when a batch can be left, none of its calls is responsible for an operation any more |
| `RunProtocol.LoopChanges` | crates/aifluxon-runtime/src/coordinator.rs:134-256 | every change of the loop's place has its cause: a batch holds exactly the calls of its turn, the top is reached after a continuation or a batch that succeeded, and the loop ends well only after a turn without calls |
| `RunProtocol.LoopGoesOn` | crates/aifluxon-runtime/src/coordinator.rs:134-256 | the loop leaves every place but a batch, and a batch exactly when it is decided |
| `RunProtocol.NoRoundAfterCancel` | crates/aifluxon-runtime/src/coordinator.rs:134-141 | once the run is cancelled the loop begins no further round |
| `RunProtocol.CancelCloses` | crates/aifluxon-runtime/src/run_table.rs:344-371 | an accepted cancellation closes the operations with its second half, whatever happens in between: none of the run's is pending or approved from then on |
| `RunProtocol.EndsAsDecided` | crates/aifluxon-api/src/backend.rs:210-290 | a run that was not cancelled ends as its finisher decided: completed with the loop's output when it was saved, failed with the message otherwise |
| `Protocol.WorkerKeeps` | crates/aifluxon-runtime/src/coordinator.rs:261-411 | every step of `execute_registered_tool`: shared invariants hold, the call knows what it needs next, a new operation is the one it now holds, and it lets go of one only when that is over or the run is terminal and the call failed |
| `Protocol.PcInvStable` | crates/aifluxon-runtime/src/coordinator.rs:318-372 | what a call knows about its operation survives the steps of all other parties |
| `Protocol.SettleStep` | crates/aifluxon-runtime/src/coordinator.rs:443-462 | settling a granted operation always ends it, whether the store accepts the call or something else already ended it |
| `Protocol.WaitStep` | crates/aifluxon-runtime/src/operations.rs:195-264 | a waiter that stops waiting without an approval sees a finished operation; with one, an operation it may settle |
| `Approvals.StartsArePermitted` | crates/aifluxon-runtime/src/coordinator.rs:314-385 | whenever a step of any run starts an executor, it is one of a call of the batch that was not started before and was announced, and the policy allowed the call or its registered operation has the host's consent in the store: a stored approval if blocking, a begun commit if deferred |
| `Approvals.RefusedNeverStarts` | crates/aifluxon-runtime/src/coordinator.rs:300-358 | at no moment has a call started that the policy denied, that failed or was invalid, or whose operation is rejected, expired, pending, or cancelled before an approval |
| `Approvals.ConsentIsTheHosts` | crates/aifluxon-runtime/src/operations.rs:164-193 | in every run an operation of the run has that consent only after the host approved it or began its commit |
| `Approvals.CallsAreSound` | crates/aifluxon-runtime/src/coordinator.rs:261-411 | at any moment every call was started at most once, entered the ledger only with a result, and logged a beginning of its script; a call that returned a result was in the ledger already, or denied, or failed validation and logged that, or was rejected, or ran to a recorded result whose operation is committed, with exactly the events of its script |
| `Approvals.SettlesTruly` | crates/aifluxon-runtime/src/coordinator.rs:386-409 | a call ends only the operation registered for it, as committed when its executor returned a result and as failed otherwise |
| `Approvals.CallsFailForAReason` | crates/aifluxon-runtime/src/coordinator.rs:261-411 | a call returns an error only when the budget or the preparation refused it, the run is over, the registration was refused, its operation is over, or its executor failed |
| `Approvals.CallsGoOn` | crates/aifluxon-runtime/src/coordinator.rs:261-411 | each step of a call brings it nearer to its return, unless it waits for the host |
| `Approvals.NoteKeeps` | crates/aifluxon-runtime/src/coordinator.rs:261-411 | one step of a call keeps what an observer has noted of it at every place |
| `AtMostOnce.StartedAtMostOnce` | crates/aifluxon-runtime/src/coordinator.rs:373-410 | over all runs and interleavings no invocation id starts its executor twice, if turns that run in parallel repeat only ids the ledger holds when they are launched; sequential turns may repeat ids freely |
| `AtMostOnce.RepeatedIdStartsTwice` | crates/aifluxon-runtime/src/coordinator.rs:218-237 | the premise is exact: from any live run, a parallel turn that repeats an id the ledger does not hold starts it twice under an interleaving that is given |
| `AtMostOnce.StartsKept` | crates/aifluxon-runtime/src/coordinator.rs:269-278 | every started id is in the ledger, or at work in the batch, or the loop has failed; a call past its ledger check has not been started |
| `AtMostOnce.WorkStarts` | crates/aifluxon-runtime/src/coordinator.rs:373-410 | a step of one call keeps that, for repeated ids in a sequential batch too |
| `Operations.ApplyKeeps` | crates/aifluxon-runtime/src/operations.rs:110-383 | every call keeps the mode discipline (approved only blocking and with a stored approval, committing only deferred, decisions only where taken, nothing pending or approved in a closed run), removes nothing, and moves records only forward with terminal states absorbing |
| `Operations.RunKeeps` | crates/aifluxon-runtime/src/operations.rs:110-383 | the same over every sequence of calls |
| `Operations.TerminalRunStaysClosed` | crates/aifluxon-runtime/src/operations.rs:328-353 | once a run is marked terminal none of its operations is pending or approved again, whatever is called later |
| `Operations.DecidedAtMostOnce` | crates/aifluxon-runtime/src/operations.rs:164-193 | at most one call in an operation's life approves, rejects or begins to commit it |
| `Operations.CommitRespectsMode` | crates/aifluxon-runtime/src/operations.rs:310-326 | `finish_commit` without its mode check still only commits deferred operations, and a blocking one is only committed after an approval |
| `Operations.RegisteredAs` | crates/aifluxon-runtime/src/operations.rs:110-141 | a registered operation is pending, undecided and as it was asked for, with a deadline still to come |
| `Operations.ResolvedAs` | crates/aifluxon-runtime/src/operations.rs:164-193 | a decision is stored as taken, on a pending operation of the caller's run, and approves only blocking ones |
| `Operations.BegunAs` | crates/aifluxon-runtime/src/operations.rs:266-288 | a commit begins for a pending deferred operation of the caller's run, without a decision |
| `Operations.SettledAs` | crates/aifluxon-runtime/src/operations.rs:290-326 | an effect that succeeded commits the operation, one that broke fails it with its message |
| `Operations.ClosedAs` | crates/aifluxon-runtime/src/operations.rs:328-353 | closing a run cancels its pending and approved operations and nothing else |
| `Operations.ExpiredAs` | crates/aifluxon-runtime/src/operations.rs:355-383 | time expires exactly the pending operations whose deadline has come |
| `Operations.ExpiryNeedsDeadline` | crates/aifluxon-runtime/src/operations.rs:355-383 | over every sequence of calls an operation expires only if it has a deadline and some call came at or after it |
| `Operations.OneAtATime` | crates/aifluxon-runtime/src/operations.rs:110-326 | a call about one operation leaves all others and the closed runs alone |
| `Operations.WaitRefuses` | crates/aifluxon-runtime/src/operations.rs:195-264 | waiting on an operation that is missing, of another run or of the other mode fails at once |
| `Operations.PollMeaning` | crates/aifluxon-runtime/src/operations.rs:195-264 | what each answer of the two waits implies about the operation's state |
| `Operations.InMemoryOperationStore.Register` | crates/aifluxon-runtime/src/operations.rs:110-134 | performs the registration step in place, with the source's order of refusals; the new store is the specified one and keeps the invariant |
| `Operations.InMemoryOperationStore.Resolve` | crates/aifluxon-runtime/src/operations.rs:164-193 | performs the decision step in place; a deferred operation cannot be plainly approved; the new store is the specified one and keeps the invariant |
| `Operations.InMemoryOperationStore.BeginCommit` | crates/aifluxon-runtime/src/operations.rs:266-288 | performs the commit step in place, deferred operations only; the new store is the specified one and keeps the invariant |
| `Operations.InMemoryOperationStore.FinishBlockingApproval` | crates/aifluxon-runtime/src/operations.rs:290-308 | settles an approved blocking operation in place; the new store is the specified one and keeps the invariant |
| `Operations.InMemoryOperationStore.FinishCommit` | crates/aifluxon-runtime/src/operations.rs:310-326 | settles a committing operation in place; the new store is the specified one and keeps the invariant |
| `Operations.InMemoryOperationStore.CancelRun` | crates/aifluxon-runtime/src/operations.rs:328-353 | closes a run in place and counts exactly the operations it cancelled; the new store is the specified one and keeps the invariant |
| `Operations.InMemoryOperationStore.Expire` | crates/aifluxon-runtime/src/operations.rs:355-379 | expires exactly the overdue pending operations and counts them; the new store is the specified one and keeps the invariant |
| `RunLog.ReachableTables` | crates/aifluxon-runtime/src/run_table.rs:147-371 | in every reachable table each log begins with its only start event, is numbered from one (saturating as u64), has a terminal event only at its end and exactly when the state is that terminal state, and the token is set exactly for cancelled runs; logs only grow and terminal runs never change |
| `RunLog.TableStepKeeps` | crates/aifluxon-runtime/src/run_table.rs:239-371 | one call on the table keeps all logs well formed and only extends them |
| `RunLog.AppendSucceeds` | crates/aifluxon-runtime/src/run_table.rs:573-592 | the append that follows an overwritten state cannot fail, and yields the next number |
| `RunLog.AppendKeeps` | crates/aifluxon-runtime/src/run_table.rs:573-592 | state and event written together keep the log invariant |
| `RunLog.StepsKeepLog` | crates/aifluxon-runtime/src/run_table.rs:239-371 | `set_state`, `emit`, `finish`, `cancel` and hook registration each keep the log invariant and only extend the record |
| `RunLog.StepAnswers` | crates/aifluxon-runtime/src/run_table.rs:239-371 | exactly when each of them succeeds, and what state it then leaves |
| `RunLog.OneTerminalEvent` | crates/aifluxon-runtime/src/run_table.rs:573-599 | a terminal run has exactly one terminal event, a live one has none |
| `RunLog.StepsAppend` | crates/aifluxon-runtime/src/run_table.rs:239-371 | each successful step appends exactly its event with the next number and leaves exactly its state and token |
| `RunTable.Runs.CancelTree` | crates/aifluxon-runtime/src/run_table.rs:373-404 | for any parent relation, cycles included, and with any calls of other parties before each cancel and between its halves: every run reachable from the root ends terminal, records only extend, the reports name distinct reachable runs that were live and are now cancelled, the store is closed for each of them and none of its operations is pending or approved, and every run that is not reported is exactly what the other parties alone would have left, so an unreported target was ended by somebody else |
| `RunTable.SweepMeaning` | crates/aifluxon-runtime/src/run_table.rs:395-403 | the same of the table for the loop of cancels over any list of distinct runs |
| `RunTable.SweepCloses` | crates/aifluxon-runtime/src/run_table.rs:395-403 | after that loop the store takes no more operations of any reported run and has none that is pending or approved, whatever others called in between |
| `RunTable.UndisturbedSweep` | crates/aifluxon-runtime/src/run_table.rs:395-403 | when nobody else acts, exactly the live targets are cancelled and reported and every other run is unchanged |
| `RunTable.CallsAreLocal` | crates/aifluxon-runtime/src/run_table.rs:239-371 | a table call touches one run: two tables that agree on a run still agree on it after any calls |
| `RunTable.CollectTargets` | crates/aifluxon-runtime/src/run_table.rs:373-404 | the worklist ends for every parent relation and yields exactly the runs reachable from the root, each once |
| `RunTable.ClosedHoldsAll` | crates/aifluxon-runtime/src/run_table.rs:373-404 | a set with the root that is closed under children holds every run with a path from the root |
| `RunTable.Runs.Cancel` | crates/aifluxon-runtime/src/run_table.rs:344-371 | the table write and the closing of the operations as two steps with any calls of others between them: cancels a live run, closes its operations and reports its hooks; otherwise changes nothing |
| `RunTable.Runs.Finish` | crates/aifluxon-runtime/src/run_table.rs:315-342 | the operation check, the terminal write and the closing as three steps with any calls of others between them: refuses exactly while an operation is unfinished at the check, and otherwise ends the run if it is still live and closes its operations |
| `RunTable.Runs.Register` | crates/aifluxon-runtime/src/run_table.rs:147-177 | an id that is taken is refused without change; otherwise exactly one run is added, live, under the given parent, without hooks, with an unset token and a log that begins with its start |
| `RunTable.Runs.RegisterHook` | crates/aifluxon-runtime/src/run_table.rs:218-233 | adds one hook to a live run and nothing else |
| `RunTable.StartedUnder` | crates/aifluxon-runtime/src/run_table.rs:147-177 | whatever is called later, a run stays a child of the parent it was started under |
| `RunTable.RegisterAndCancelTree` | crates/aifluxon-runtime/src/run_table.rs:373-404 | runs registered one under the other, with others acting in between, all end when the tree of the first is cancelled |
| `RunTable.Runs.ChangeState` | crates/aifluxon-runtime/src/run_table.rs:239-271 | performs the state step in place, keeping all logs well formed |
| `RunTable.Runs.EmitEvent` | crates/aifluxon-runtime/src/run_table.rs:273-292 | performs the emit step in place, keeping all logs well formed |
| `RunTable.AfterIsDrop` | crates/aifluxon-runtime/src/run_table.rs:557-570 | while numbers have not saturated, filtering by number is dropping that many events |
| `Forwarder.DeliversThePrefix` | crates/aifluxon-api/src/backend.rs:498-531 | with appends interleaved anywhere, what the sink got is a prefix of the log numbered 1..n without gap or repeat, the channel got the same save at most the event it failed on, and a forwarder that saw a terminal event has delivered the whole log of a finished run |
| `Forwarder.CatchesUp` | crates/aifluxon-api/src/backend.rs:510-530 | one fetch and its deliveries bring a live forwarder to the end of the log, and it stops exactly if the run is terminal |
| `Forwarder.HandleSeesTheTable` | crates/aifluxon-api/src/backend.rs:498-531 | a handle whose forwarder stopped at the terminal event and lost nothing holds the table's whole log, ready for `AwaitResult` |
| `Forwarder.AwaitResult` | crates/aifluxon-api/src/run.rs:35-63 | reading a finished run's log reports exactly the table's terminal outcome, the last usage and the text of the last assistant message; a stream that ends early is reported as failed; the internal-error branch is never taken |
| `Forwarder.ReportRun` | crates/aifluxon-api/src/run.rs:35-63 | the two together: for every interleaving of appends and deliveries, a handle whose forwarder stopped at the terminal event and lost nothing reports exactly the table's outcome |
| `Forwarder.LastAssistantSpeaks` | crates/aifluxon-api/src/result.rs:17-33 | the result's text is that of the last assistant message, image parts skipped, and empty without one |
| `Forwarder.PartsJoin` | crates/aifluxon-api/src/result.rs:17-33 | a text part says its text, an image nothing, and parts one after the other what each says |
| `Utf8.DecodeStream` | crates/aifluxon-providers/src/common/utf8.rs:7-42 | for every byte sequence and every cut into chunks the delivered text is a lossy decode of the whole input, and well-formed input comes through unchanged |
| `Utf8.LossyDecodeExact` | crates/aifluxon-providers/src/common/utf8.rs:7-42 | the lossy decode with one U+FFFD per maximal ill-formed subpart exists, is unique, and is what the automaton computes |
| `Utf8.ChunkingIsInvisible` | crates/aifluxon-providers/src/common/utf8.rs:7-42 | feeding chunks gives what feeding their concatenation gives |
| `Utf8.FrontMeaning` | crates/aifluxon-providers/src/common/utf8.rs:11-18 | the byte-range automaton agrees with the arithmetic definition of characters, character prefixes and maximal ill-formed subparts (section 4 of RFC 3629, section 3.9 of the Unicode Standard) |
| `Utf8.ValidateMeaning` | crates/aifluxon-providers/src/common/utf8.rs:11-31 | what `valid_up_to` and `error_len` of the validator say about the text still to be decoded |
| `Utf8.DrainSplit` | crates/aifluxon-providers/src/common/utf8.rs:7-33 | draining in two steps is draining at once: what is held back is enough and no more |
| `Utf8.ScalarOfEncode` | crates/aifluxon-providers/src/common/utf8.rs:11-18 | decoding undoes encoding |
| `Utf8.WellFormedUnchanged` | crates/aifluxon-providers/src/common/utf8.rs:7-42 | well-formed text has itself as its decode |
| `Utf8.Utf8ChunkDecoder.Push` | crates/aifluxon-providers/src/common/utf8.rs:7-33 | each push delivers exactly the text newly owed, the loop terminates, and what stays pending is empty or a proper prefix of a character |
| `Utf8.Utf8ChunkDecoder.Finish` | crates/aifluxon-providers/src/common/utf8.rs:35-42 | all deliveries together are the whole lossy decode; the decoder is empty again |
| `Sse.ParseStream` | crates/aifluxon-providers/src/common/sse.rs:25-59 | for every chunking of a byte stream the events are those of cutting the whole decoded text at its leftmost boundaries and parsing each block |
| `Sse.IncrementalSseParser.Push` | crates/aifluxon-providers/src/common/sse.rs:25-28 | each push yields exactly the newly owed events and keeps the resume index sound |
| `Sse.IncrementalSseParser.Finish` | crates/aifluxon-providers/src/common/sse.rs:30-38 | the tail is parsed as a last block; all events together are those of the whole input |
| `Sse.IncrementalSseParser.DrainCompleteEvents` | crates/aifluxon-providers/src/common/sse.rs:40-59 | the buffer is cut at its leftmost boundaries although the search starts at the resume index |
| `Sse.ScanStart` | crates/aifluxon-providers/src/common/sse.rs:52-58 | the new resume index lies on a character boundary and skips no boundary that later text could complete |
| `Sse.ResumeSound` | crates/aifluxon-providers/src/common/sse.rs:40-59 | searching from an index with no earlier boundary finds the leftmost boundary |
| `Sse.ResumeAfterAppend` | crates/aifluxon-providers/src/common/sse.rs:40-59 | appending text creates no boundary before the resume index, so one that straddles chunks is not skipped |
| `Sse.FindFromMeaning` | crates/aifluxon-providers/src/common/sse.rs:62-73 | the search finds the leftmost `\n\n` or `\r\n\r\n` |
| `Sse.LeftmostStable` | crates/aifluxon-providers/src/common/sse.rs:62-73 | a leftmost boundary found in a prefix stays the leftmost one when text is appended |
| `Sse.BoundaryMeaning` | crates/aifluxon-providers/src/common/sse.rs:62-73 | a boundary is two line feeds or CR LF CR LF, and as long as that |
| `Sse.SplitMeaning` | crates/aifluxon-providers/src/common/sse.rs:40-59 | the cut loses nothing, each block ends with its only boundary and none is left in the tail |
| `Sse.SplitExtend` | crates/aifluxon-providers/src/common/sse.rs:40-59 | cutting in two steps is cutting at once |
| `Sse.ParseEventBlock` | crates/aifluxon-providers/src/common/sse.rs:75-102 | the line loop gives the block's last event, id and retry fields and its joined data, and no event exactly for a block without fields |
| `Sse.SummarizeSnoc` | crates/aifluxon-providers/src/common/sse.rs:75-102 | adding one field changes the summary as one turn of the loop does |
| `Sse.DataDeviation` | crates/aifluxon-providers/src/common/sse.rs:76-100 | the data of a parsed block differs from section 9.2.6 of the WHATWG HTML Standard exactly when its first data line is empty and another follows |
| `Sse.EmptyLineIsLost` | crates/aifluxon-providers/src/common/sse.rs:88-93 | the block `data:`, `data:x` is such a block: its data is `x`, without the line feed |
| `SseWire.SpacedField` | crates/aifluxon-providers/src/common/sse.rs:79-86 | the line `name: value` carries exactly that name and value: one space after the colon is not part of the value, nor is one CR at the end |
| `SseWire.PlainField` | crates/aifluxon-providers/src/common/sse.rs:79-86 | so does `name:value` when the value does not begin with a space |
| `SseWire.BareName` | crates/aifluxon-providers/src/common/sse.rs:83-86 | a line without a colon is a name with an empty value |
| `SseWire.NoField` | crates/aifluxon-providers/src/common/sse.rs:79-82 | blank lines and comments carry nothing |
| `SseWire.TrailingCr` | crates/aifluxon-providers/src/common/sse.rs:79 | one CR at the end changes nothing |
| `SseWire.LinesMeaning` | crates/aifluxon-providers/src/common/sse.rs:78 | the lines are the pieces between the line feeds |
| `SseWire.BomDropped` | crates/aifluxon-providers/src/common/sse.rs:78 | all byte order marks at the beginning of a block are dropped, and nothing else |
| `SseWire.BlockParses` | crates/aifluxon-providers/src/common/sse.rs:75-105 | a block written field by field, with either newline, means what its fields mean |
| `SseWire.RoundTrip` | crates/aifluxon-providers/src/common/sse.rs:75-105 | writing an event line by line and parsing the block gives the event back exactly when its data does not begin with a line feed |
| `SseWire.WireParses` | crates/aifluxon-providers/src/common/sse.rs:25-73 | events written one after the other, with either newline, are the events of the text |
| `SseWire.DeliverEvents` | crates/aifluxon-providers/src/common/sse.rs:25-105 | whatever chunks such a stream arrives in, exactly these events are delivered |
| `Tags.PiecesAreReading` | crates/aifluxon-providers/src/kimi/mod.rs:44-128 | the reference reading loses nothing but complete tags and obeys the tag grammar |
| `Tags.ReadingUnique` | crates/aifluxon-providers/src/kimi/mod.rs:44-128 | a text has one such reading |
| `Tags.DrainSplit` | crates/aifluxon-providers/src/kimi/mod.rs:44-98 | filtering in two steps is filtering at once: the held-back suffix is enough |
| `Tags.DrainThenFlush` | crates/aifluxon-providers/src/kimi/mod.rs:100-113 | draining and flushing gives the whole reading |
| `Tags.FirstHitStable` | crates/aifluxon-providers/src/kimi/mod.rs:44-98 | a tag found in a prefix stays the first one when text is appended |
| `Tags.FirstHitShift` | crates/aifluxon-providers/src/kimi/mod.rs:130-141 | a tag that straddles the cut is found at the same place in the held-back suffix plus the new text |
| `Tags.SuffixTagPrefixLen` | crates/aifluxon-providers/src/kimi/mod.rs:130-141 | the longest suffix that some tag could begin with |
| `Kimi.ThinkTagFilter.PushDelta` | crates/aifluxon-providers/src/kimi/mod.rs:45-98 | each delta delivers exactly the newly owed visible and reasoning text |
| `Kimi.ThinkTagFilter.Finish` | crates/aifluxon-providers/src/kimi/mod.rs:100-113 | all deliveries together are the whole-text reading |
| `Kimi.EarlierOpen` | crates/aifluxon-providers/src/kimi/mod.rs:68-86 | the comparison of the two opening tags picks the first tag of the text |
| `Kimi.StreamToHost` | crates/aifluxon-providers/src/kimi/mod.rs:143-199 | what the host receives through the sink is the reading of the concatenated deltas, however they were cut |
| `Kimi.ApplyThinkTagsToTurn` | crates/aifluxon-providers/src/kimi/mod.rs:201-221 | the batch form gives the same visible text and appends the same reasoning |
| `Delta.StreamKimiTurn` | crates/aifluxon-providers/src/openai_compatible/mod.rs:492-496 | the visible text streamed to a Kimi host and the text of the finished turn are both the visible reading of the reconciled contents, for every sequence of deltas and snapshots |
| `Gemini.ThoughtStream.Push` | crates/aifluxon-providers/src/gemini/mod.rs:112-155 | each unmarked chunk delivers exactly what is newly owed; a chunk marked as thought only moves the text of a tag-free chunk to the reasoning side |
| `Gemini.ThoughtStream.Finish` | crates/aifluxon-providers/src/gemini/mod.rs:157-165 | all deliveries together are the whole-text reading |
| `Gemini.DrainPending` | crates/aifluxon-providers/src/gemini/mod.rs:118-155 | the loop over the pending text computes the drain of the reference |
| `Gemini.SplitStream` | crates/aifluxon-providers/src/gemini/mod.rs:111-165 | without thought marks the chunking does not matter |
| `Delta.MissingIsShortest` | crates/aifluxon-providers/src/common/delta.rs:63-81 | the returned suffix is the shortest text that makes the current text end with the snapshot |
| `Delta.StrictMeaning` | crates/aifluxon-providers/src/common/delta.rs:83-94 | accepted exactly when the snapshot extends the current text, and then completes it exactly |
| `Delta.ReconcileTerminalText` | crates/aifluxon-providers/src/common/delta.rs:96-107 | the delivered rest completes the text, and divergence after a done event is refused |
| `Delta.TextDeltaReconciler.PushCompatible` | crates/aifluxon-providers/src/common/delta.rs:21-43 | the returned deltas concatenate to the emitted text |
| `Delta.TextDeltaReconciler.Complete` | crates/aifluxon-providers/src/common/delta.rs:45-52 | on success the emitted text is the complete text; on refusal nothing changes |
| `Delta.GrowingSnapshots` | crates/aifluxon-providers/src/common/delta.rs:21-43 | a growing chain of texts, marked as snapshots or only detected as such, ends with the last one emitted |
| `Delta.PlainFragments` | crates/aifluxon-providers/src/common/delta.rs:21-43 | without snapshots and detection the emitted text is the fragments in order |
| `Keyring.SystemKeyringStore.Set` | crates/aifluxon-auth/src/keyring_store.rs:278-327 | for every fault schedule the answer a fault-free read would give switches once from the old value to the new over the whole backend history, and has switched exactly when the call succeeded; unrelated keys read the same throughout; a short non-blank secret is read back exactly when it does not start with the manifest prefix or lists itself; for any short secret the content after every backend call is given exactly, through the clean-up of the previous slots; for a chunked secret the content afterwards is the written slots and the manifest, less the previous slots that were removed; a call that fails leaves the old content plus exactly the written slots whose removal failed, so the old content if nothing else failed; it fails only if a backend call failed or the secret is too large, which happens never up to 65472 and always above 65536 units |
| `Keyring.LookalikeReads` | crates/aifluxon-auth/src/keyring_store.rs:284-291 | a short secret that is itself a manifest: while the previous slots go its answer changes only if it names that same generation and one of its slots was removed, and then it is damaged |
| `Keyring.SystemKeyringStore.SetChunked` | crates/aifluxon-auth/src/keyring_store.rs:292-327 | the chunked part of that, including the clean-up after a failed write; the exact content after a success, a failed slot write and a failed manifest write |
| `Keyring.SystemKeyringStore.Commit` | crates/aifluxon-auth/src/keyring_store.rs:316-327 | storing the manifest commits the written slots; if it fails each of them is removed again unless its removal fails |
| `Keyring.SystemKeyringStore.DeleteWritten` | crates/aifluxon-auth/src/keyring_store.rs:309-312 | removes the written slots in order, best effort: exactly those whose call failed stay |
| `Keyring.UndoneMeans` | crates/aifluxon-auth/src/keyring_store.rs:307-323 | after a failed write the slots that stay are exactly those whose removal failed, with their chunks, and everything else is as it was |
| `Keyring.UndoneCompletely` | crates/aifluxon-auth/src/keyring_store.rs:307-323 | if only the write failed and the generation is fresh, the content is what it was |
| `Keyring.SystemKeyringStore.WriteChunks` | crates/aifluxon-auth/src/keyring_store.rs:306-316 | on success the slots of the new generation hold the chunks; it fails only on a fault, and nothing else is ever touched |
| `Keyring.SystemKeyringStore.CleanUp` | crates/aifluxon-auth/src/keyring_store.rs:287-326 | dropping the previous generation never disturbs the committed value, whatever fails |
| `Keyring.SystemKeyringStore.DeleteManifestChunks` | crates/aifluxon-auth/src/keyring_store.rs:230-242 | the exact content after each call; only slots of the given generation are touched, and it fails exactly if a call failed |
| `Keyring.SystemKeyringStore.Get` | crates/aifluxon-auth/src/keyring_store.rs:245-276 | answers exactly what a fault-free read of the content says, and fails only if a backend call failed |
| `Keyring.SystemKeyringStore.Delete` | crates/aifluxon-auth/src/keyring_store.rs:329-342 | the exact answer after every backend call for every fault schedule: old until the entry is removed, then absent; if that removal fails, damaged from the first slot that is removed, else old; it fails exactly if a call failed, on success all listed slots are gone, and unrelated keys read the same throughout |
| `Keyring.CommittedReads` | crates/aifluxon-auth/src/keyring_store.rs:245-276 | a committed value is read back |
| `Keyring.ForeignSlots` | crates/aifluxon-auth/src/keyring_store.rs:245-276 | writes to the slots of an unlisted generation do not change what is read |
| `Keyring.ShortRoundTrip` | crates/aifluxon-auth/src/keyring_store.rs:286-291 | a stored non-blank secret is read back exactly when it does not start with the manifest prefix, or is a manifest that lists itself under its own hash; with the prefix and no first slot it reads as damaged |
| `Keyring.StoreLookalike` | crates/aifluxon-auth/src/keyring_store.rs:278-291 | a run of `set` without any fault that stores a short secret which cannot be read back |
| `Keyring.DeleteIsAtomicIff` | crates/aifluxon-auth/src/keyring_store.rs:329-342 | deleting keeps the old answer or none at every moment and under every fault schedule exactly when the key does not hold a readable chunked secret |
| `Keyring.DamageByDelete` | crates/aifluxon-auth/src/keyring_store.rs:329-342 | a run of `delete` on any readable chunked secret in which only the removal of the entry fails and the secret is left damaged |
| `Keyring.RemovedReads` | crates/aifluxon-auth/src/keyring_store.rs:230-242 | losing any listed slot damages the entry, losing none leaves it |
| `Keyring.UnrelatedReads` | crates/aifluxon-auth/src/keyring_store.rs:185-187 | writes to one key's entry and slots never change what an unrelated key reads, because slot names are injective |
| `Manifest.SplitSecretChunks` | crates/aifluxon-auth/src/keyring_store.rs:163-183 | lossless; every chunk has at most 1024 UTF-16 units and every one but the last at least 1023 |
| `Manifest.SizeBound` | crates/aifluxon-auth/src/keyring_store.rs:292-298 | up to 65472 units always fit in 64 chunks, above 65536 never do |
| `Manifest.UnitsAreUtf16` | crates/aifluxon-auth/src/keyring_store.rs:159-161 | the length counted is that of the text in UTF-16 |
| `Manifest.ChunkAccountInjective` | crates/aifluxon-auth/src/keyring_store.rs:185-187 | slot names are injective in account, generation and index |
| `Manifest.ParseUndoesEncode` | crates/aifluxon-auth/src/keyring_store.rs:189-228 | parsing an encoded manifest gives it back |
| `Manifest.EncodeUndoesParse` | crates/aifluxon-auth/src/keyring_store.rs:189-228 | encoding a parsed manifest gives the text back exactly when its count and hash were written canonically |
| `Manifest.NumberOfDecimal` | crates/aifluxon-auth/src/keyring_store.rs:189-194 | reading a printed count gives it back |
| `Texts.CaseMeaning` | crates/aifluxon-providers/src/kimi/mod.rs:49 | lower-casing forgets the case of ASCII letters and nothing else |
| `ModelLoop.RunModelToolLoop` | crates/aifluxon-runtime/src/coordinator.rs:174-258 | the loop over its budget and counters: the requests sent and the outcome, their number bounded and every conversation well paired |
| `ModelLoop.ProviderCallBound` | crates/aifluxon-runtime/src/coordinator.rs:174-258 | every bounded run calls the provider at most min(M, 3T + 8) times, u32::MAX meaning no limit on that side, and therefore ends |
| `ModelLoop.BoundIsReached` | crates/aifluxon-runtime/src/continuation.rs:13-40 | the bound is exact: for every tool limit some run reaches 3T + 8 calls |
| `ModelLoop.UnlimitedContinues` | crates/aifluxon-runtime/src/continuation.rs:13-40 | a run without limits is granted every continuation |
| `ModelLoop.LimitedContinues` | crates/aifluxon-runtime/src/continuation.rs:13-40 | any other run is granted each reason its own number of times in a row, and then fails |
| `ModelLoop.DriveCounts` | crates/aifluxon-runtime/src/continuation.rs:13-40 | the bound from any state of the counters, by the measure over remaining tools, per-run slots and the slots each tool round resets |
| `ModelLoop.ConversationStaysPaired` | crates/aifluxon-runtime/src/coordinator.rs:195-257 | from a well-paired history every request and every successful result is well paired and extends the history |
| `ModelLoop.IteratePaired` | crates/aifluxon-runtime/src/coordinator.rs:195-257 | an iteration keeps the conversation well paired exactly when its turn has no calls, or they are answered, or its assistant message is not appended |
| `ModelLoop.RequestsStayOnTheWire` | crates/aifluxon-runtime/src/coordinator.rs:174-258 | from a history that can be sent, both wire encodings of every request and of a successful result name each call and its result alike and in order |
| `ModelLoop.TurnsMeetThePremise` | crates/aifluxon-providers/src/openai_compatible/continuation.rs:5-19 | turns finished by either assembler, and hidden summaries without calls, carry calls only with the tool-call terminal, also after the continuation rewrite, and so keep conversations paired; the rewrite asks to continue exactly for a stopped turn without calls that did not end or promised work, and touches nothing else |
| `Turns.FinishedTurnsAreSendable` | crates/aifluxon-providers/src/openai_compatible/responses.rs:668-753 | every turn either assembler finishes with validated calls, also after the think-tag or the hidden-summary rewrite of its family and the continuation rewrite, keeps conversations paired and encodes on both wires: only reasoning and search items are kept for replay and validated calls have native ids |
| `Turns.RewriteKeeps` | crates/aifluxon-providers/src/qwen/mod.rs:366-389 | a family's rewrite keeps calls and what is replayed, changes the words as it says, and asks to continue exactly when a hidden summary was all a turn without calls said |
| `Turns.AssembledTurns` | crates/aifluxon-providers/src/openai_compatible/responses.rs:690-753 | what a finished turn of either stream holds: its words, calls and terminal, and the items kept for replay |
| `Turns.RunsSayTheSameOnBothWires` | crates/aifluxon-runtime/src/coordinator.rs:174-258 | a run answered with finished turns: every request says on both wires exactly the reference, each turn's call ids and then the same ids for its results |
| `Turns.RunsSayTheSameWords` | crates/aifluxon-runtime/src/coordinator.rs:134-256 | every request of such a run says on both wires exactly what its conversation says: every text, every call with its name and arguments, every result and every prompt, in order |
| `Turns.AllAreKept` | crates/aifluxon-providers/src/openai_compatible/responses.rs:202-214 | every reasoning and search item is kept for replay, and nothing else |
| `Turns.ValidatedCallsAreNamed` | crates/aifluxon-providers/src/openai_compatible/reliability.rs:80-97 | calls that pass the turn's tool checks have a native id |
| `ModelLoop.ContinuationPaired` | crates/aifluxon-runtime/src/continuation.rs:42-77 | continuation messages keep a conversation well paired |
| `ModelLoop.TakeTurn` | crates/aifluxon-runtime/src/coordinator.rs:195-256 | what the loop does with a turn, in place on the budget and the counters |
| `Dialogue.ConversationIsTold` | crates/aifluxon-runtime/src/coordinator.rs:134-256 | in every request of every run, and in its successful outcome, each role has said exactly what the history says and what the answers so far added: the texts, calls and states of the turns that are kept, the results the tools gave, and the continuation prompts |
| `Dialogue.RequestsArePlain` | crates/aifluxon-runtime/src/coordinator.rs:134-256 | from a plain history plain turns make plain requests |
| `ModelLoop.ExecuteBatch` | crates/aifluxon-runtime/src/coordinator.rs:218-256 | succeeds exactly when every call is granted in time and gives a result; the results are in call order |
| `ModelLoop.AgentLoopBudget.ConsumeModelRound` | crates/aifluxon-runtime/src/budget.rs:70-78 | grants until the limit, counts saturating, and fails on time without refunding the round |
| `ModelLoop.AgentLoopBudget.ConsumeToolInvocation` | crates/aifluxon-runtime/src/budget.rs:80-90 | grants until the limit, counts saturating, and fails on time without refunding the invocation |
| `ModelLoop.ContinuationCounts.TryBegin` | crates/aifluxon-runtime/src/continuation.rs:21-35 | grants 2, 1 and 4 continuations per reason, any number in unlimited runs |
| `ModelLoop.ContinuationCounts.ResetIncomplete` | crates/aifluxon-runtime/src/continuation.rs:37-39 | resets one counter only |
| `Conversation.ChatPairsIds` | crates/aifluxon-providers/src/openai_compatible/chat_completions.rs:29-96 | the chat encoding of a well-paired conversation names each call and then its result by the same id, in order |
| `Conversation.ResponsesPairsIds` | crates/aifluxon-providers/src/openai_compatible/responses.rs:57-137 | so does the Responses encoding, for replayed items that rebuild a turn, that stand for a turn with its calls, or that hold a persisted turn with its own pairs, from any state of the id table |
| `Conversation.BuildResponsesInput` | crates/aifluxon-providers/src/openai_compatible/responses.rs:12-27 | the loop over the messages with its id table and leading instructions; its output pairs every call with its output and, without persisted pairs, says exactly what the chat encoding says |
| `Conversation.ResolvesIff` | crates/aifluxon-providers/src/openai_compatible/responses.rs:118-137 | a result is sent under its call's id exactly when the call has a native id or the table does not map its canonical id elsewhere |
| `Conversation.ResolvableIff` | crates/aifluxon-providers/src/openai_compatible/responses.rs:94-137 | in a turn rebuilt from its canonical calls that is the case exactly when the call has a native id or the last call of the turn with its canonical id goes by that id |
| `Conversation.TurnEncodesIff` | crates/aifluxon-providers/src/openai_compatible/responses.rs:57-137 | a turn with calls and its results are sent as the calls' ids and then the same ids exactly when its replayed items fit and all its results resolve |
| `Conversation.ExpectedIsPaired` | crates/aifluxon-providers/src/openai_compatible/responses.rs:57-105 | the reference is a list of groups of calls, each followed by its outputs under the same ids |
| `Conversation.AlwaysFits` | crates/aifluxon-providers/src/openai_compatible/responses.rs:57-105 | messages whose replay fits and whose calls are named, or resolvable in a rebuilt turn, can be sent after any history |
| `Conversation.ClashIsNotResolved` | crates/aifluxon-providers/src/openai_compatible/responses.rs:94-137 | a concrete turn where that fails |
| `Conversation.FilteredTurnIsDropped` | crates/aifluxon-providers/src/openai_compatible/responses.rs:139-151 | a persisted turn whose items are all filtered away fits no table: its calls are not sent, their outputs are |
| `Conversation.RecordedIs` | crates/aifluxon-providers/src/openai_compatible/responses.rs:238-257 | a replayed call is known by its id, unless a later one has the same canonical id |
| `Conversation.ReasoningIsSent` | crates/aifluxon-providers/src/openai_compatible/responses.rs:71-84 | a turn's stored reasoning is sent, trimmed, exactly when nothing of the turn is replayed |
| `Transcript.ChatSaysAll` | crates/aifluxon-providers/src/openai_compatible/chat_completions.rs:29-110 | the chat encoding says exactly what the conversation says: words, calls with name and arguments, results, in order |
| `Transcript.ResponsesSayAll` | crates/aifluxon-providers/src/openai_compatible/responses.rs:12-137 | so does the Responses encoding of a plain conversation, the leading instructions included |
| `Transcript.BothSayTheSame` | crates/aifluxon-providers/src/openai_compatible/responses.rs:12-137 | the two together |
| `Conversation.ResultKeepsId` | crates/aifluxon-runtime/src/coordinator.rs:484-501 | a tool message carries its call's wire id for both encoders |
| `Conversation.WellPairedAppend` | crates/aifluxon-runtime/src/coordinator.rs:195-257 | well-paired conversations concatenate |
| `Conversation.DanglingCall` | crates/aifluxon-runtime/src/coordinator.rs:471-482 | an assistant message that the messages after it do not answer breaks every conversation |
| `Assembler.IndexIndependence` | crates/aifluxon-providers/src/tool_deltas.rs:62-145 | with explicit indices the call at an index is what its own deltas build, each under the contract in force when it arrived, whatever else is interleaved and wherever the stream switches the contract |
| `Assembler.InterleavingIff` | crates/aifluxon-providers/src/tool_deltas.rs:32-145 | two streams with the same deltas per index assemble the same calls exactly when, for every index, the place of the contract switch among its own deltas is the same or immaterial |
| `Assembler.PlaceIff` | crates/aifluxon-providers/src/tool_deltas.rs:97-145 | two places of the switch among an index's deltas build the same call exactly when neither its last id nor its last nested name arrives between them as a fragment that the two contracts treat differently |
| `Assembler.IdIff` | crates/aifluxon-providers/src/tool_deltas.rs:107-113 | for the id: exactly when the last delta with an id arrives between the places, is no snapshot, and text came before it |
| `Assembler.PlainNamesIff` | crates/aifluxon-providers/src/tool_deltas.rs:114-131 | for the name, when names come nested: exactly when the last one arrives between the places, is no snapshot, and text came before it |
| `Assembler.InterleavingCanShow` | crates/aifluxon-providers/src/openai_compatible/chat_completions.rs:301-311 | three chunks whose order decides: a later call's `google` extra before or after a second id fragment gives call 0 the id `1` or `call_1` |
| `Assembler.PresetContract` | crates/aifluxon-providers/src/openai_compatible/mod.rs:476-484 | a family that presets the replacing contract never sees a difference |
| `Assembler.InterleavingIsInvisible` | crates/aifluxon-providers/src/tool_deltas.rs:62-145 | in particular two such streams agree when the switch stands at the same place among each index's own deltas |
| `Assembler.SnapshotOverrides` | crates/aifluxon-providers/src/tool_deltas.rs:62-145 | after any stream, switching or not, a complete snapshot decides id, name and arguments of its call alone, outer fields before nested ones, merges its extension object, and changes no other call |
| `Assembler.MergeTwice` | crates/aifluxon-providers/src/gemini/mod.rs:86-103 | merging the same extension object again changes nothing |
| `Assembler.LaterWins` | crates/aifluxon-providers/src/gemini/mod.rs:86-103 | every scalar of the later extension object is in the merge, and fields it does not name stay |
| `Assembler.ArgumentsAreJoined` | crates/aifluxon-providers/src/tool_deltas.rs:62-145 | without snapshots the arguments are the fragments joined in order, wherever the contract switches |
| `Assembler.MissingIndexIsPosition` | crates/aifluxon-providers/src/tool_deltas.rs:184-200 | a stream without indices assembles as if each delta named its position in its chunk |
| `Assembler.IdsFindCalls` | crates/aifluxon-providers/src/tool_deltas.rs:75-92 | under the contract of Gemini, deltas without indices find their calls by their ids: one call for each id, built of the deltas with that id |
| `Assembler.FinishedInOrder` | crates/aifluxon-providers/src/openai_compatible/chat_completions.rs:360-366 | finishing keeps exactly the named calls, in order, each with its assembled name, arguments and id |
| `Assembler.ValidateMeansTurnValid` | crates/aifluxon-providers/src/tool_deltas.rs:40-60 | `validate` accepts exactly when no observed call is nameless and the finished calls meet every tool condition of `validate_turn` |
| `Assembler.ValidatedAssembly` | crates/aifluxon-providers/src/openai_compatible/chat_completions.rs:360-366 | for every stream, switching or not, a validated assembly finishes to calls that pass the turn's tool checks |
| `Assembler.AssemblyKeepsGaps` | crates/aifluxon-providers/src/tool_deltas.rs:91-96 | places no delta reached stay empty, whatever switches, so finishing drops them |
| `Assembler.ToolCallAssembler.ApplyChatDelta` | crates/aifluxon-providers/src/tool_deltas.rs:62-145 | performs the delta step in place |
| `Assembler.ToolCallAssembler.UseGeminiContract` | crates/aifluxon-providers/src/tool_deltas.rs:32-35 | switches both flags on and leaves the calls alone |
| `Assembler.ToolCallAssembler.ApplyChunk` | crates/aifluxon-providers/src/openai_compatible/chat_completions.rs:245-311 | a chunk switches the contract before any of its calls is applied exactly when its own or a call's extension object names `google`; then the calls are applied in order |
| `Assembler.AssembleStream` | crates/aifluxon-providers/src/openai_compatible/chat_completions.rs:225-311 | over a whole stream from a family's preset, the class assembles the fold of the chunks' steps, gaps empty |
| `Assembler.MergeInto` | crates/aifluxon-providers/src/tool_deltas.rs:96-145 | the edits to one call, in the source's order |
| `Assembler.ToolCallAssembler.Validate` | crates/aifluxon-providers/src/tool_deltas.rs:40-60 | the set-based loop accepts exactly valid, pairwise distinct observed calls |
| `Assembler.ValidateTurnTools` | crates/aifluxon-providers/src/openai_compatible/reliability.rs:80-97 | the set-based check accepts exactly complete calls with pairwise distinct native ids |
| `Retry.Provider.NextTurn` | crates/aifluxon-providers/src/openai_compatible/mod.rs:554-613 | for every sequence of transport and credential outcomes: at most three attempts of at most four calls and two forced refreshes; the non-empty deltas the host received are those of the last transport call alone; a turn is returned exactly when that call streamed a valid one; giving up early needs visible output, hosted operations, a long delay or an error that is not retryable; every attempt but the last failed with a retryable error after an acceptable delay |
| `Retry.Provider.NextTurnOnce` | crates/aifluxon-providers/src/openai_compatible/mod.rs:616-686 | one attempt: at most four calls and two forced refreshes, and only its last call shows; what is sent and the result exactly, the fallback without tools included |
| `Retry.Provider.StreamTurnWithAuth` | crates/aifluxon-providers/src/openai_compatible/mod.rs:503-541 | at most one forced refresh, only after a 401, and only the last call shows; the exact answer, lookups and tokens sent |
| `Retry.Provider.RefreshesOn401` | crates/aifluxon-providers/src/openai_compatible/mod.rs:503-541 | credentials are refreshed exactly after a first 401 that can be refreshed, and then the request is sent once more with the fresh token and its answer is final |
| `Retry.Provider.StreamTurn` | crates/aifluxon-providers/src/openai_compatible/mod.rs:440-501 | one call passes on exactly the deltas of a success response and none of an error response |
| `Retry.Provider.ErrorStatusIsQuiet` | crates/aifluxon-providers/src/openai_compatible/mod.rs:454-477 | a call answered with an error status shows nothing to the host |
| `Retry.RetryableByCode` | crates/aifluxon-providers/src/openai_compatible/reliability.rs:56-69 | a failure may be retried exactly when its code is on the list |
| `Retry.StatusesApart` | crates/aifluxon-providers/src/common/http.rs:112-114 | successes, refused credentials and statuses worth a retry are told apart |
| `Retry.AttemptSink.OnDelta` | crates/aifluxon-providers/src/openai_compatible/reliability.rs:26-39 | passes every delta on and remembers exactly whether a non-empty one passed |

## Left out

- Forwarder.DeliversThePrefix: for logs of fewer than 2^64 events, because beyond that the saturated numbers no longer tell events apart.
- ModelLoop.TurnsMeetThePremise: the intent heuristics and the provider's end-of-turn test are parameters.
- Conversation.BuildResponsesInput: of replayed JSON items only calls, their outputs and words are told apart, and the filtering of persisted items is taken as done; the case where nothing is left is covered.
- `run_model_tool_loop`, the simple loop without registry or approvals: its rounds, continuations and pairing are those of the registered loop.
- A checkpoint that cannot be saved before the run is spawned: that run has no finisher and no terminal event, and nothing is claimed about it.
- `remove` of an operation, snapshots and lookups: they would only add easy members.
- Failing cancellation hooks and their error texts: only the number of hooks is kept.
- Arguments that are a JSON string instead of an object, which the turn checks refuse, and the extension objects of calls on their way back into a request.
- JSON values, schema validation, policies and executors: abstract values or free choices.
- Images, tool descriptors, request decoration and model-family tables: finite tables without a law.
- The filter that cuts hidden summaries out of a turn's text: what it cuts is a free choice, its effect on the turn is modelled.
- Wall-clock limits, back-off durations and jitter: free choices; the 15-minute deadline of an attempt is an outcome of a call.
- Byte offsets in the tag filters, the text reconciler and the secret splitter: those modules count characters.
- Mutex poisoning and wake-up fairness.
- The encrypted vault, file stores, OAuth flows, the HTTP client and the Python bindings.
