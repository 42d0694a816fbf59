# Verified model of the agent runtime

This project models the state machines at the core of the agent runtime and proves what they promise over
whole executions. `dafny verify dfyconfig.toml` checks all of it.

**Agent run protocol** (`Messages`, `Projection`, `Agreement`, `InputQueue`, `RunCourse`, `AgentLoop`). `Driver` is an agent
instance with its driver: runs claim queued input through one-shot reservations, append to a log, update the
instance and notify listeners. Listeners, hooks, model streams and tool batches are adversaries: they may use
the inbox, abort or raise at every point where the source waits on them. Each envelope ever sent sits in exactly
one account of a ledger; every delivery is recorded with the state its listener sees; and the event stream
`project` rebuilds from the log equals what was delivered. The equality is exact: it holds iff no message start
was lost and every chunk delivered kept the stream contract (its block is in the partial message, and an end
chunk repeats that block). A start is lost exactly when a reply that did not stream ends while the log still shows
an older stream as open, or when a listener raises between a start and its log entry. `RunCourse` is the order of a
run as a state machine over what it learns (pre-step decisions, finished turns, stop decisions, claimed batches);
every unfailed run is shown to follow it from its entering batch to the reason its log is closed with.

**Credential store and refresh** (`CredentialStore`). Per-provider chains as interleaved steps, with callers that
may stop waiting. Every interleaving is equivalent to running the committed bodies in call order. The store class
refines the steps, one method per stretch of code between two waits.

**Removal** (`RemovalWalk`, `RemovalOutcome`). The explicit-stack walk against the recursive definition for
arbitrary answers; then, for POSIX answers in an otherwise unchanging tree, exactly what is left and which error
is raised.

**Windows paths** (`WinNormalize`, `WinResolve`). `normalizeString` and `path.win32.resolve`, paths as UTF-16 code
units. Every unit the code looks for is a single one, so this agrees with the source's indexing by character.

**Recursive mkdir** (`RecursiveMkdir`). Paths are component sequences under an existing root; other processes may
create directories at any moment, and a quiet filesystem is the special case.

**Device-code polling** (`DeviceCode`; sections 3.2 and 3.5 of RFC 8628). The clock may run late, the server may
answer anything, the signal may abort at any moment. Times are exact reals in milliseconds.

**Printers** (`JsonString`, `JsonNumber`, `JsJson`, `Inspect`). `JSON.stringify` against a reader of the RFC 8259
grammar, and `util.inspect` of strings against a reader of JavaScript string literals.

**Shell completion** (`ShellCompletion`). The completion object over every timed history of exit, data, ends of
streams and timer.

`Options`, `Floats`, `Utf16`, `Decimal`, `Hex` and `StableSort` hold shared vocabulary.

Some results are about where the code falls short of the simple statement, each with its exact condition:

- A failed run whose stream had opened delivers the start of its failure message but does not project it
  (`FailureAfterStreamUnshown`; `SettleFailure` says exactly when).
- `run_until_idle` called while a run is active reserves its batch before the guard refuses, and nothing settles
  that reservation (`RunUntilIdle`, iff follow-ups are pending; `AnySession`, it stays reserved).
- A status observer that raises something other than an ordinary exception while the run is entered leaves the
  instance running with its signal set and its batch reserved (`RunWrapped`).
- A chunk that breaks the stream contract either stops `project` or comes back as another chunk (`ProjectsIff`,
  `ChunkRoundTrip`).
- Execution ends of calls that share an id may be replayed out of completion order (`CompletionOrderRestored`).
- A refresh that returns the credential it was given commits it, and the next refresh is given it again
  (`SameCredentialRefreshedAgain`; `UnreplacedStep` and `UnreplacedRun` say exactly when this cannot happen).
- Polling can run once a millisecond instead of once a second when a delay does not fit the host timer
  (`CollapsesIff` says exactly when; `PollFlow` bounds both cases).

## Model

| member | source | states |
|---|---|---|
| `Messages.ToolResultRoundTrip` | minion-agent-python/src/minion_agent/agent/projection.py:178-197 | a tool result rebuilt from its logged message is the original exactly when its details were present, and otherwise differs only there, holding an empty object; the message carries the result's own fields |
| `Projection.ChunkRoundTrip` | minion-agent-python/src/minion_agent/agent/projection.py:200-239 | a streamed chunk comes back from kind, index, partial and delta as itself exactly when it kept the stream contract |
| `Projection.ByCompletionSorts` | minion-agent-python/src/minion_agent/agent/projection.py:293-293 | the replay order of execution ends is a permutation, nondecreasing in completion index, and stable |
| `Projection.CompletionOrderRestored` | minion-agent-python/src/minion_agent/agent_loop/driver.py:1329-1358 | with the index the driver logs, that replay order is the batch's own completion order exactly when calls that share an id finished one right after the other |
| `Projection.FlushResults` | minion-agent-python/src/minion_agent/agent/projection.py:292-310 | the two loops emit all execution ends by completion, then the messages in source order |
| `Projection.Project` | minion-agent-python/src/minion_agent/agent/projection.py:242-392 | the loop over the log returns the fold of its entries, and fails exactly where the fold meets an entry that cannot be rebuilt |
| `Projection.ExecutionEventsTold` | minion-agent-python/src/minion_agent/agent/projection.py:292-380 | in every stream project returns, one execution start per logged call, in order, with its id, name and arguments, and one execution end per logged result, with its call id, tool name, result and error flag |
| `Projection.ProjectsIff` | minion-agent-python/src/minion_agent/agent/projection.py:242-392 | project returns exactly on the logs whose every chunk entry can be rebuilt |
| `Projection.ViewIsProjection` | minion-agent-python/src/minion_agent/agent/projection.py:242-392 | although results are buffered and reordered, the stream without tool-execution events is the one built entry by entry, for every log |
| `Projection.RunMessagesAreEndedMessages` | minion-agent-python/src/minion_agent/agent/projection.py:283-332 | in every log the messages an agent end would report are those whose ends appear in the stream since its agent start |
| `Projection.TurnResultsReplayed` | minion-agent-python/src/minion_agent/agent/projection.py:292-310 | a turn's results replay as their execution ends by completion followed by their start and end pairs in log order |
| `Agreement.LiveEqualsProjection` | minion-agent-python/src/minion_agent/agent/projection.py:242-392 | project returns iff every delivered chunk can be rebuilt, then with exactly the lost starts missing; it returns the delivered stream iff none is lost and every chunk kept the stream contract |
| `Agreement.ReplayedSame` | minion-agent-python/src/minion_agent/agent/projection.py:200-239 | what the log lets the projection tell of the deliveries is the deliveries themselves iff every chunk kept the stream contract |
| `InputQueue.ClaimSplits` | minion-agent-python/src/minion_agent/agent/inbox.py:181-189 | a claim takes a prefix, leaves the remainder in order, takes nothing only from an empty queue, and otherwise all of it or exactly its first envelope, by policy |
| `InputQueue.Inbox.ExactlyOnePlace` | minion-agent-python/src/minion_agent/agent/inbox.py:120-212 | every envelope ever sent is in exactly one of a queue, an open reservation, consumed or cleared |
| `InputQueue.Inbox.TakeWake` | minion-agent-python/src/minion_agent/agent/inbox.py:135-138 | reads and lowers the wake flag |
| `InputQueue.Inbox.Send` | minion-agent-python/src/minion_agent/agent/inbox.py:140-153 | a new envelope at the back of its target only; the wake flag rises only if asked; the ledger stays balanced |
| `InputQueue.Inbox.Followup` | minion-agent-python/src/minion_agent/agent/inbox.py:155-157 | queues for the next turn and wakes |
| `InputQueue.Inbox.Steer` | minion-agent-python/src/minion_agent/agent/inbox.py:159-161 | queues for the next step and wakes |
| `InputQueue.Inbox.Inject` | minion-agent-python/src/minion_agent/agent/inbox.py:163-169 | queues for the next step without waking |
| `InputQueue.Inbox.Claim` | minion-agent-python/src/minion_agent/agent/inbox.py:181-189 | the batch leaves its queue and is consumed, the other queue untouched |
| `InputQueue.Inbox.Reserve` | minion-agent-python/src/minion_agent/agent/inbox.py:191-199 | the batch leaves its queue into a fresh one-shot reservation bound to it |
| `InputQueue.Inbox.Clear` | minion-agent-python/src/minion_agent/agent/inbox.py:201-206 | one queue emptied into the cleared account, the other untouched |
| `InputQueue.Inbox.ClearAll` | minion-agent-python/src/minion_agent/agent/inbox.py:208-212 | both queues emptied into the cleared account |
| `InputQueue.Reservation.Commit` | minion-agent-python/src/minion_agent/agent/inbox.py:84-89 | one-shot: the batch moves from reserved to consumed, a second settlement changes nothing |
| `InputQueue.Reservation.Rollback` | minion-agent-python/src/minion_agent/agent/inbox.py:91-97 | one-shot: the exact batch returns ahead of whatever its queue holds now |
| `AgentLoop.Driver.Abort` | minion-agent-python/src/minion_agent/agent/instance.py:162-175 | flips the active run's flag and nothing else |
| `AgentLoop.Driver.Dispatch` | minion-agent-python/src/minion_agent/agent_loop/driver.py:464-487 | one delivery, with the state listeners then see, before anything they may do to inbox or signal |
| `AgentLoop.Driver.Lifecycle` | minion-agent-python/src/minion_agent/agent_loop/driver.py:518-527 | one message started, logged and ended; live and log agree after it, whoever raises |
| `AgentLoop.Driver.Admit` | minion-agent-python/src/minion_agent/agent_loop/driver.py:489-527 | a batch is admitted in order, adding exactly its messages to the run, in agreement with the log |
| `AgentLoop.Driver.Stream` | minion-agent-python/src/minion_agent/agent_loop/driver.py:1135-1193 | any stream of any chunks, well formed or not, keeps the agreement and leaves the log showing an open stream iff one was opened, or was before |
| `AgentLoop.Driver.FinishReply` | minion-agent-python/src/minion_agent/agent_loop/driver.py:1195-1211 | a reply's end adds one lost start exactly when it did not stream while the log shows an older stream open |
| `AgentLoop.Driver.CloseTurn` | minion-agent-python/src/minion_agent/agent_loop/driver.py:1384-1391 | the turn end delivered carries what the log alone lets the projection rebuild; the instance's error changes iff the reply has one |
| `AgentLoop.Driver.ExecuteBatch` | minion-agent-python/src/minion_agent/agent_loop/driver.py:1246-1327 | any interleaving of execution events keeps the agreement, each call pending from its announced start to its end; a batch terminates iff it has results, all ask for it and the reply was not truncated |
| `AgentLoop.Driver.LogResults` | minion-agent-python/src/minion_agent/agent_loop/driver.py:1329-1358 | results logged in source order with their completion indices, each seen started and ended |
| `AgentLoop.Driver.ToolTurn` | minion-agent-python/src/minion_agent/agent_loop/driver.py:1235-1401 | the tool half of a turn: nothing lost, continuation iff there were calls and the batch did not terminate, and the log extended by exactly the reply's calls in order, the batch's results and the turn's end |
| `AgentLoop.Driver.RunStep` | minion-agent-python/src/minion_agent/agent_loop/driver.py:1063-1401 | one turn in the stream grammar, nothing lost unless a stream was already open; terminal exactly as its reply's stop reason says; it goes on iff the logged reply has tool calls and the batch did not terminate |
| `AgentLoop.Driver.Boundary` | minion-agent-python/src/minion_agent/agent_loop/driver.py:705-711 | exactly what the pre-step decision lets in is admitted and collected; a rejection leaves log and deliveries as they were |
| `AgentLoop.Driver.Continuation` | minion-agent-python/src/minion_agent/agent_loop/driver.py:661-711 | follows the course of a run turn by turn: the inner loop is exhausted only with the steering queue empty and a last reply without tool calls, unless its batch terminated; otherwise it ends as the last reply, a stop or a rejection says |
| `AgentLoop.Driver.FirstEntry` | minion-agent-python/src/minion_agent/agent_loop/driver.py:607-659 | the entering batch is asked about first, then at most one steering batch and none when skipped, inside the first turn |
| `AgentLoop.Driver.RunTurns` | minion-agent-python/src/minion_agent/agent_loop/driver.py:656-727 | follows the course of a run to the reason it ends with: completed or terminated only with both queues empty, terminated iff the last batch said so, completed only if the last reply has no tool call, error or aborted iff the last reply did |
| `AgentLoop.Driver.RunInner` | minion-agent-python/src/minion_agent/agent_loop/driver.py:607-727 | a run's course from its entering batch and poll rule to the reason it returns, with the messages collected those the log shows, and any error on the instance that of one of its replies |
| `AgentLoop.Driver.SettleFailure` | minion-agent-python/src/minion_agent/agent_loop/driver.py:729-828 | the failure turn: aborted exactly when the signal is aborted at that moment, one start lost exactly when a stream is still open in the log |
| `AgentLoop.Driver.ExecuteRun` | minion-agent-python/src/minion_agent/agent_loop/driver.py:529-605 | a run whose executor raised nothing has followed its course from the given batch and poll rule to the reason its log is closed with, nothing lost; agreement holds in every case |
| `AgentLoop.Driver.SetStatus` | minion-agent-python/src/minion_agent/agent/instance.py:137-150 | the status is written before observers run, which may raise anything; a repeated status notifies nobody |
| `AgentLoop.Driver.EnterRun` | minion-agent-python/src/minion_agent/agent_loop/driver.py:412-439 | the reservation is settled unless the observer raised other than an ordinary exception; an ordinary failure leaves the instance idle and the exact batch at the head of its queue |
| `AgentLoop.Driver.Leave` | minion-agent-python/src/minion_agent/agent_loop/driver.py:448-462 | idle with no signal, streaming message or pending calls, even when the last notification raises |
| `AgentLoop.Driver.RunWrapped` | minion-agent-python/src/minion_agent/agent_loop/driver.py:366-462 | past the guard the instance is left clean iff the RUNNING observer did not raise other than an ordinary exception; a failed entry leaves log and deliveries unchanged; a reservation stays open iff the guard refused or that happened |
| `AgentLoop.Driver.Prompt` | minion-agent-python/src/minion_agent/agent_loop/driver.py:247-276 | refused iff a run is active, and then without effect; opens no reservation |
| `AgentLoop.Driver.EnterReserved` | minion-agent-python/src/minion_agent/agent_loop/driver.py:301-329 | no run iff the queue was empty; after an ordinary failed entry its batch is at the head of its queue again; its reservation stays open iff the run was refused or its entry interrupted |
| `AgentLoop.Driver.Continue` | minion-agent-python/src/minion_agent/agent_loop/driver.py:278-329 | refused iff active; nothing to continue iff there is no transcript, or it ends in a reply and both queues are empty; after a reply the run enters with a steering batch and no first poll, else with a follow-up batch and one; leaves no reservation of its own open unless interrupted |
| `AgentLoop.Driver.RunUntilIdle` | minion-agent-python/src/minion_agent/agent_loop/driver.py:331-352 | returns normally only with no follow-up pending and the wake flag lowered; from idle it leaves no reservation of its own open unless interrupted; called while active with follow-ups pending it leaves its batch in an open reservation |
| `AgentLoop.Driver.Reset` | minion-agent-python/src/minion_agent/agent/instance.py:202-245 | refused iff active; otherwise clears runtime state, both queues and the transcript, keeps the wake flag and the delivered history |
| `AgentLoop.AnySession` | minion-agent-python/src/minion_agent/agent_loop/driver.py:247-727 | over every finite session and all listeners, hooks, chunks and tools: project returns iff every delivered chunk can be rebuilt; with no failed executor it returns exactly what was delivered iff every chunk kept the stream contract; a stranded batch stays reserved |
| `AgentLoop.BatchReplayed` | minion-agent-python/src/minion_agent/agent_loop/driver.py:1329-1358 | for every turn, read off its events: the execution starts are the reply's tool calls in order; the execution ends are the batch's results, one each, in the batch's completion order iff calls that share an id finished one right after the other; the rest are the messages in source order and the turn's end |
| `AgentLoop.FailureAfterStreamUnshown` | minion-agent-python/src/minion_agent/agent/projection.py:349-371 | for every partial and failure message, a failure after an opened stream is projected as ending without starting |
| `CredentialStore.TriggerRange` | minion-agent-python/src/minion_agent/auth/refresh.py:55-73 | a NaN minimum suppresses refresh for every credential and clock; any other triggers whenever the default would |
| `CredentialStore.ExpiresFrom` | minion-agent-python/src/minion_agent/auth/refresh.py:55-56 | a credential counts as expiring exactly from its expiry less the trigger on |
| `CredentialStore.TriggerIs` | minion-agent-python/src/minion_agent/auth/refresh.py:59-73 | the trigger is five minutes, or the caller's minimum if longer |
| `CredentialStore.Serializable` | minion-agent-python/src/minion_agent/auth/store.py:153-233 | in every interleaving: one body per provider at a time, in call order, the store the fold of the committed bodies, each body reading that fold, unfinished chains kept |
| `CredentialStore.CancelledHasNoEffect` | minion-agent-python/src/minion_agent/auth/store.py:168-211 | a caller told it was cancelled has no effect at any later time: the store is the same as if its call had never run |
| `CredentialStore.ResultMeansOneBody` | minion-agent-python/src/minion_agent/auth/store.py:168-211 | no body runs twice, and a caller given a result or a failure had its own body run exactly once and keeps that answer |
| `CredentialStore.FailedBodyChangesNothing` | minion-agent-python/src/minion_agent/auth/store.py:219-227 | a body that raised, or whose answer was discarded, has no effect at any later time: the store is the same as if its call had never run |
| `CredentialStore.PruneKeeps` | minion-agent-python/src/minion_agent/auth/store.py:186-190 | pruning drops a chain entry exactly when it is the pruned call's own, only when every call on the chain has finished, and keeps the protocol invariant |
| `CredentialStore.ChainNeverStalls` | minion-agent-python/src/minion_agent/auth/store.py:153-193 | while a call is unfinished, some call no later on its chain can take a step, and that step brings it nearer its end |
| `CredentialStore.InvokeQueues` | minion-agent-python/src/minion_agent/auth/store.py:153-193 | a call goes to the end as it was made, nothing stored changes, and its caller waits unless aborted already |
| `CredentialStore.TurnComes` | minion-agent-python/src/minion_agent/auth/store.py:168-177 | a call's turn: cancelled if aborted; otherwise a deletion leaves nothing stored for its provider and the others alone, and a write is given what is stored |
| `CredentialStore.ReturnIsFinal` | minion-agent-python/src/minion_agent/auth/store.py:219-227 | what a callback answers decides its call for good, at every later time: a failure, a discarded answer, exactly the credential returned stored, or nothing changed |
| `CredentialStore.RemovalMeansDelete` | minion-agent-python/src/minion_agent/auth/store.py:229-233 | over every run, a caller told a result was told of a removal iff it deleted, and then its result is empty |
| `CredentialStore.WakeAnswers` | minion-agent-python/src/minion_agent/auth/store.py:195-211 | a caller's wait ends with the outcome if there is one, by cancellation iff aborted without one, and otherwise goes on |
| `CredentialStore.RefreshGetsCurrent` | minion-agent-python/src/minion_agent/auth/refresh.py:143-157 | in every state a refresh whose turn comes calls the provider iff it is not cancelled and the stored credential is still expiring, and hands over exactly that one |
| `CredentialStore.UnreplacedStep` | minion-agent-python/src/minion_agent/auth/refresh.py:131-169 | a step keeps the stored credential from being one a committed refresh replaced iff what it commits is new: not one replaced before, nor what that refresh was given |
| `CredentialStore.UnreplacedRun` | minion-agent-python/src/minion_agent/auth/refresh.py:131-169 | over every run, a replaced credential is never stored again iff no body of the provider commits one |
| `CredentialStore.ReplacedIsNotRefreshedAgain` | minion-agent-python/src/minion_agent/auth/refresh.py:131-169 | in every interleaving in which the provider's bodies commit new credentials, refresh is never given one that a committed refresh replaced |
| `CredentialStore.SameCredentialRefreshedAgain` | minion-agent-python/src/minion_agent/auth/refresh.py:131-169 | for every expiring credential: a refresh that returns the one it was given commits, and the next refresh is given it again |
| `CredentialStore.RunningHoldsStored` | minion-agent-python/src/minion_agent/auth/store.py:219-227 | while a body runs, what it read is what is stored |
| `CredentialStore.AbsentStays` | minion-agent-python/src/minion_agent/auth/refresh.py:143-157 | once deleted and with no writer left, no interleaving of refreshes brings a credential back |
| `CredentialStore.AtMostOneRefresh` | minion-agent-python/src/minion_agent/auth/refresh.py:131-169 | with one threshold, a still clock and fresh results, at most one refresh commits |
| `CredentialStore.InMemoryStore.constructor` | minion-agent-python/src/minion_agent/auth/store.py:131-133 | the empty store is the initial state |
| `CredentialStore.InMemoryStore.Read` | minion-agent-python/src/minion_agent/auth/store.py:140-144 | cancelled iff the signal is aborted, otherwise the stored credential |
| `CredentialStore.InMemoryStore.Submit` | minion-agent-python/src/minion_agent/auth/store.py:153-193 | refines the enqueue step and keeps the invariant |
| `CredentialStore.InMemoryStore.RunQueued` | minion-agent-python/src/minion_agent/auth/store.py:168-176 | refines the start of a queued body: pre-task checkpoint, then removal, declined refresh or running callback |
| `CredentialStore.InMemoryStore.CallbackReturned` | minion-agent-python/src/minion_agent/auth/store.py:219-227 | refines the return of a callback: second checkpoint, then commit |
| `CredentialStore.InMemoryStore.TailFinished` | minion-agent-python/src/minion_agent/auth/store.py:179-184 | refines the end of a tail task |
| `CredentialStore.InMemoryStore.PruneChain` | minion-agent-python/src/minion_agent/auth/store.py:186-191 | refines the done-callback |
| `CredentialStore.InMemoryStore.PollCaller` | minion-agent-python/src/minion_agent/auth/store.py:195-211 | refines one return of the caller's bounded wait |
| `RemovalWalk.Rimraf` | minion-agent-python/src/minion_agent/execution/filesystem.py:1299-1359 | the explicit-stack walk makes the calls of the recursive definition, in its order, raises its error, and terminates, whatever the calls answer |
| `RemovalWalk.RacesForgiven` | minion-agent-python/src/minion_agent/execution/filesystem.py:1264-1407 | for arbitrary answers: an entry vanished at any call counts as removed, one that is no directory after all does too unless an error led there, which is raised, and a failure below is the directory's |
| `RemovalWalk.RemoveSync` | minion-agent-python/src/minion_agent/execution/filesystem.py:1174-1193 | a refused validation makes no removal call; otherwise the target is classified afresh and the walk's trace and error follow |
| `RemovalOutcome.LeavesEntry` | minion-agent-python/src/minion_agent/execution/filesystem.py:1264-1407 | an entry's removal removes exactly the paths that do not remain and fails iff an entry under it refuses |
| `RemovalOutcome.Routed` | minion-agent-python/src/minion_agent/execution/filesystem.py:1218-1407 | opened and blocked, stated over an entry's answers alone, are what the walk's routing decides, with the code it raises |
| `RemovalOutcome.RemovedWhole` | minion-agent-python/src/minion_agent/execution/filesystem.py:1264-1407 | a tree in which nothing is refused, non-empty directories say so and directories are not unlinked, is removed whole with no error |
| `RemovalOutcome.RaisesFirstRefusal` | minion-agent-python/src/minion_agent/execution/filesystem.py:1311-1359 | the error raised is that of the first entry, in settling order, that refuses |
| `RemovalOutcome.FaithfulEntry` | minion-agent-python/src/minion_agent/execution/filesystem.py:1264-1407 | every call is answered as the filesystem the walk has left so far would answer; the final rmdir finds its directory empty |
| `RemovalOutcome.RemovalOutcome` | minion-agent-python/src/minion_agent/execution/filesystem.py:1264-1407 | what remains is exactly subtrees of blocked entries, stuck directories and their ancestors; success iff nothing remains iff nothing refuses; nothing outside is touched |
| `WinNormalize.NormalizeString` | minion-agent-python/src/minion_agent/execution/filesystem.py:283-329 | the one pass equals split on either separator, drop empty and dot segments, fold dot-dot, join with a backslash |
| `WinNormalize.NormalizeIdempotent` | minion-agent-python/src/minion_agent/execution/filesystem.py:283-329 | dot-dot only as a prefix, none when not allowed above the root, and normalizing again changes nothing |
| `WinNormalize.NormalizedTrims` | minion-agent-python/src/minion_agent/execution/filesystem.py:283-329 | a separator before or after a path does not change what it normalizes to |
| `WinNormalize.NameThenUp` | minion-agent-python/src/minion_agent/execution/filesystem.py:283-329 | a name followed by dot-dot is taken away again, for every path and name |
| `WinNormalize.UpAtTheTop` | minion-agent-python/src/minion_agent/execution/filesystem.py:283-329 | dot-dot with nothing to take away stays if allowed above the root and is dropped otherwise |
| `WinNormalize.HereChangesNothing` | minion-agent-python/src/minion_agent/execution/filesystem.py:283-329 | a dot or a trailing slash changes nothing |
| `WinResolve.Win32Root` | minion-agent-python/src/minion_agent/execution/filesystem.py:249-280 | the three loops find the drive, UNC or rooted prefix the longest-run definition gives |
| `WinResolve.RootDevice` | minion-agent-python/src/minion_agent/execution/filesystem.py:249-280 | whatever the text, a device is empty, a drive or a UNC share |
| `WinResolve.UncLaidOut` | minion-agent-python/src/minion_agent/execution/filesystem.py:249-280 | two separators, a server, any run of separators and a share are exactly that device, rooted, up to the share's end |
| `WinResolve.OtherwiseLaidOut` | minion-agent-python/src/minion_agent/execution/filesystem.py:249-280 | what every other layout is: a root without device, a drive with or without root, or relative |
| `WinResolve.RootReadsBack` | minion-agent-python/src/minion_agent/execution/filesystem.py:249-280 | a device followed by a separator is read back as that device, absolute, with the rest after it |
| `WinResolve.SelectDriveBase` | minion-agent-python/src/minion_agent/execution/filesystem.py:332-345 | the selected base, reading the process directory only without a non-empty inherited entry |
| `WinResolve.Resolve` | minion-agent-python/src/minion_agent/execution/filesystem.py:372-417 | the lazy right-to-left scan equals the two-phase definition, and its host reads are exactly those the arguments leave necessary |
| `WinResolve.ResolvesOn` | minion-agent-python/src/minion_agent/execution/filesystem.py:372-417 | one more relative argument keeps device and root and folds its pieces on after those of all the others |
| `WinResolve.ResolvesInSteps` | minion-agent-python/src/minion_agent/execution/filesystem.py:372-417 | an absolute result with a device, given back as an argument, stands for the arguments it came from |
| `WinResolve.AbsoluteAlone` | minion-agent-python/src/minion_agent/execution/filesystem.py:372-417 | an absolute last argument with its own device is alone in the result |
| `WinResolve.RootedLast` | minion-agent-python/src/minion_agent/execution/filesystem.py:372-417 | a rooted last argument without a device keeps the others' device and replaces the rest |
| `WinResolve.OtherDeviceSkipped` | minion-agent-python/src/minion_agent/execution/filesystem.py:403-406 | an argument on another device than a later one names contributes nothing |
| `WinResolve.BaseStandsFirst` | minion-agent-python/src/minion_agent/execution/filesystem.py:392-398 | what the arguments leave open is filled in as if the base stood before them |
| `WinResolve.BaseIs` | minion-agent-python/src/minion_agent/execution/filesystem.py:332-345 | that base is the non-empty inherited entry, else the process directory, unless its first two units are not the device and its third is a backslash: then the device's root |
| `WinResolve.ReadsAtMostOnce` | minion-agent-python/src/minion_agent/execution/filesystem.py:372-417 | each host value is read at most once, and neither iff the arguments fix device and absoluteness |
| `WinResolve.DeviceIsRightmost` | minion-agent-python/src/minion_agent/execution/filesystem.py:372-417 | the device is that of the rightmost argument that has one, and empty iff none has |
| `WinResolve.ResolveIdempotent` | minion-agent-python/src/minion_agent/execution/filesystem.py:372-417 | every absolute result resolves to itself: with a device whatever the host then answers, without one as long as the process directory has none |
| `RecursiveMkdir.Mkdirp` | minion-agent-python/src/minion_agent/execution/filesystem.py:686-728 | terminates; fails iff a prefix is not a directory, having made nothing and naming the failing path; otherwise makes missing prefixes parents first, exactly those in a quiet filesystem, even while others create directories |
| `RecursiveMkdir.GrownObstructed` | minion-agent-python/src/minion_agent/execution/filesystem.py:686-728 | directories created by others never remove, move or create an obstruction |
| `DeviceCode.AbortableSleep` | minion-agent-python/src/minion_agent/auth/device_code.py:195-260 | sleeps exactly its whole-millisecond delay unless cancelled, and sees an abort within one 50 ms slice |
| `DeviceCode.PollFlow` | minion-agent-python/src/minion_agent/auth/device_code.py:263-365 | terminates; no poll at or after the deadline or after an abort; at most floor(expires)+2 polls when delays fit the host timer; polls and sleeps alternate at the interval the replies call for, capped, due less than 1 ms past the deadline; each outcome says what happened |
| `DeviceCode.SlowDownsAdd` | minion-agent-python/src/minion_agent/auth/device_code.py:327-356 | without a usable server interval the interval is the initial one plus five seconds per slow_down |
| `DeviceCode.SlowDownNames` | minion-agent-python/src/minion_agent/auth/device_code.py:327-337 | a usable server interval is in force next, in whole milliseconds and at least one second |
| `DeviceCode.CollapsesIff` | minion-agent-python/src/minion_agent/auth/device_code.py:61-75 | a delay collapses to one millisecond iff the interval is NaN, or it and the time left both exceed the host timer range |
| `DeviceCode.IntervalsMinimal` | minion-agent-python/src/minion_agent/auth/device_code.py:292-356 | no interval in force is ever below one second |
| `DeviceCode.StartsWith` | minion-agent-python/src/minion_agent/auth/device_code.py:292-309 | the flow starts with the caller's interval in whole milliseconds and at least one second, or five seconds; NaN and infinity are kept |
| `DeviceCode.CappedIsLess` | minion-agent-python/src/minion_agent/auth/device_code.py:359-362 | a sleep is for the interval or the time left, whichever is less |
| `JsonString.JsonStringOf` | minion-agent-python/src/minion_agent/auth/js_json.py:143-164 | the loop writes every character as specified |
| `JsonString.CharsReadBack` | minion-agent-python/src/minion_agent/auth/js_json.py:137-164 | every string, with unpaired surrogates, reads back by section 7 of RFC 8259 as its own UTF-16 units |
| `JsonString.CharForm` | minion-agent-python/src/minion_agent/auth/js_json.py:137-164 | which characters are written as themselves, by a short escape, or in four lower-case digits |
| `JsonNumber.NotationDenotes` | minion-agent-python/src/minion_agent/auth/js_json.py:190-206 | in all four notations the text reads by section 6 of RFC 8259 as exactly int(s) * 10^(n - len(s)) |
| `JsonNumber.NotationForm` | minion-agent-python/src/minion_agent/auth/js_json.py:190-206 | an exponent exactly outside -5 to 21, a point exactly where digits follow it, zeros up to the point |
| `JsonNumber.NumberReadsBack` | minion-agent-python/src/minion_agent/auth/js_json.py:209-220 | a number's text reads back as its value, either zero as zero |
| `JsonNumber.Shorten` | minion-agent-python/src/minion_agent/auth/js_json.py:167-187 | stripping trailing zeros keeps the value and leaves no trailing zero but in a single digit |
| `JsJson.ArrayIndexIff` | minion-agent-python/src/minion_agent/auth/js_json.py:223-241 | a key is an array index iff it is the decimal text of a number up to 2^32 - 2 |
| `StableSort.Sorts` | minion-agent-python/src/minion_agent/auth/js_json.py:249-249 | the sort by key is ascending, a permutation, and keeps equal keys in order |
| `JsJson.OrderedIs` | minion-agent-python/src/minion_agent/auth/js_json.py:244-251 | every property once: array indices first and ascending, the others in insertion order |
| `JsJson.StringifyRoundTrip` | minion-agent-python/src/minion_agent/auth/js_json.py:254-297 | for every value the text reads back by the RFC 8259 grammar as that value, even with no white space allowed: non-finite as null, strings as units, members in property order |
| `Inspect.QuotePiece` | minion-agent-python/src/minion_agent/execution/spawn_nul.py:42-69 | the loop writes the quoted form of a piece |
| `Inspect.QuotedReadsBack` | minion-agent-python/src/minion_agent/execution/spawn_nul.py:42-69 | under all three quotes a quoted piece is a JavaScript literal denoting the piece |
| `Inspect.QuotedForm` | minion-agent-python/src/minion_agent/execution/spawn_nul.py:42-49 | which of the three quotes stands around a piece, from the piece's units |
| `Inspect.EscapeForm` | minion-agent-python/src/minion_agent/execution/spawn_nul.py:53-66 | which units are written as themselves, by a letter, in two upper-case or in four lower-case digits |
| `Inspect.BodyClean` | minion-agent-python/src/minion_agent/execution/spawn_nul.py:42-69 | inside its quotes a piece has no raw control unit and no lone surrogate |
| `Inspect.LinesBreak` | minion-agent-python/src/minion_agent/execution/spawn_nul.py:82-89 | each piece of a long string ends at its only line feed |
| `Inspect.InspectString` | minion-agent-python/src/minion_agent/execution/spawn_nul.py:72-95 | the loops produce the specified rendering |
| `Inspect.InspectedForm` | minion-agent-python/src/minion_agent/execution/spawn_nul.py:72-95 | up to 76 units in one piece, longer ones split at line feeds, and past 10000 the count of the rest |
| `Inspect.InspectedReadsBack` | minion-agent-python/src/minion_agent/execution/spawn_nul.py:72-95 | for every string the rendering read as a sum of literals is its first 10000 units, followed only by the count of the rest |
| `ShellCompletion.Completion.constructor` | minion-agent-python/src/minion_agent/execution/shell.py:98-103 | nothing seen, nothing pending |
| `ShellCompletion.Completion.OnData` | minion-agent-python/src/minion_agent/execution/shell.py:115-117 | the fields stay what the history says |
| `ShellCompletion.Completion.OnExit` | minion-agent-python/src/minion_agent/execution/shell.py:119-123 | the fields stay what the history says |
| `ShellCompletion.Completion.OnStdoutEnd` | minion-agent-python/src/minion_agent/execution/shell.py:125-127 | the fields stay what the history says |
| `ShellCompletion.Completion.OnStderrEnd` | minion-agent-python/src/minion_agent/execution/shell.py:129-131 | the fields stay what the history says |
| `ShellCompletion.Completion.Fire` | minion-agent-python/src/minion_agent/execution/shell.py:109-113 | the timer's callback settles it |
| `ShellCompletion.SettledAfterExit` | minion-agent-python/src/minion_agent/execution/shell.py:92-136 | it never settles before exit |
| `ShellCompletion.TimerPends` | minion-agent-python/src/minion_agent/execution/shell.py:109-123 | open after exit, the timer pends for exactly the grace period after the latest of exit and later data |
| `ShellCompletion.SettlesAtTheEarlier` | minion-agent-python/src/minion_agent/execution/shell.py:92-136 | it settles at the earlier of both streams ended after exit and the end of that grace period |
| `ShellCompletion.OpenWithinGrace` | minion-agent-python/src/minion_agent/execution/shell.py:92-136 | while it is open after exit, no more than the grace period has passed since the latest activity |

## Left out

- `causes` payloads in the live-against-projection comparison: the driver logs a list it later extends, and the log's copying rule is not part of this model.
- Message encoding and decoding, artifact headers, telemetry spans, request shaping (history window, context transformation, system text), and the growth of the run's tool set from added tool names.
- Compaction, forks and the rest of message derivation; the transcript is the last message entry since the last reset.
- Event-bus arity handling and the order among several listeners: one adversary stands for all of them. Listeners that assign the instance's fields directly are not modelled.
- The inside of the tool batch and of the model service: chunks and results are arbitrary, except that a batch's completion order lists each result's call once.
- Unending runs and pumps: a run is any finite number of turns and a pump any finite number of runs, ended by themselves or by a host cancellation.
- Envelope ids are serial numbers instead of random UUIDs; the JSON-safety check of `origin` is not modelled.
- `list` of the store, host-level task cancellation of a store caller, the combined timeout signal, and the check of a refreshed credential after the store operation.
- Windows removal routing (`fixWinEPERM`, native error tables) and every foreign call; errors are classes of answers.
- A missing top-level prefix in recursive mkdir, on which the walk does not terminate; paths there are component sequences and not text.
- Unicode case folding of devices: an arbitrary function of the host.
- An infinite or NaN deadline in polling: with an infinite one termination is not promised.
- IEEE rounding and the shortest digits of `repr(float)`: a finite double is given by its sign, digits and exponent, and time arithmetic is exact.
- `js_trim`, `to_usv_string` and `js_json_loads`; `diagnostic`, `env_check_order` and `spawn_rejection`; `_validate_timeout` and the rest of the shell: each is a direct table, filter or comparison, and no result here depends on it.
- HTTP transport, OAuth endpoints, the callback server, plugins, scripts and the Rust port: I/O plumbing or test drivers.
