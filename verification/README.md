# Verification of the egress agent's work pipeline

This project models the concurrent part of the egress agent and proves what it keeps over every
run: the worker queues, the operations poller that fills them, the operations and results that
travel between them, the bounded log buffer, and the receiver and watchdog loops that listen for
server events.

Check it with `dafny verify dfyconfig.toml`.

## How it is built

**State machines.** Each component is a total function from a state and a label to the next
state, or to `None` where the label is not enabled. A run is a sequence of labels (`Runs.dfy`);
as any thread may contribute the next label, the runs of a machine are all its interleavings, and
the theorems speak about all of them. A lock is taken by one step and released by another, so who
holds it, who waits for it and who sleeps in `wait` are states; timeouts, exceptions, what the
backend answers and what a handler does are parts of labels.

| File | What it models |
|---|---|
| `WorkerQueue.dfy`, `QueueProcessor.dfy` | the multi-worker queue: machine and object |
| `Polling.dfy`, `PollerProcessor.dfy` | the operations poller: machine and object |
| `Dispatch.dfy` | one operation: check, download, choice of handler, result |
| `Pipeline.dfy` | the whole agent as a product of two queues, the poller, timers, listeners and shutdown |
| `AgentInvariant.dfy`, `AgentTheorems.dfy`, `AgentAnswers.dfy`, `AgentIdentity.dfy` | what every run of the agent keeps |
| `AgentEndings.dfy`, `AgentPolling.dfy`, `AgentSignals.dfy` | what a scheduled operation can end with, how polling ends for good, and what a second signal does |
| `AgentProgress.dfy` | that no part of the agent is ever stuck, the shutdown included |
| `AgentService.dfy` | the service object: its handlers, flushes and shutdown |
| `LogBuffer.dfy`, `BoundedDeques.dfy`, `Jsonable.dfy`, `LogShipping.dfy`, `LogHandlers.dfy` | the log buffer: machine, ring buffer, coercion, emitting threads, object |
| `Receiving.dfy`, `Heartbeats.dfy`, `Events.dfy`, `EventClasses.dfy` | receiver loops, watchdog loops, the client that connects them: machines and objects |
| `StoppedClient.dfy` | when a stopped client stays stopped |

**Objects.** The classes have the original's fields, updated in place by the original's methods.
The queue, the poller, the log handler, the receiver, the watchdog and the client keep, beside
them, where each thread is, and a ghost `trace` of every step taken since construction, by any
thread. Their `Valid()` says that the trace is a run of the machine and that it ends in the fields
as they are. So whatever is proved of the machine's runs holds of these objects, and a method that
updated a field otherwise than the machine would not verify. `BaseEgressAgentService` is different:
it has no trace of the agent as a whole. Its contracts say what one call schedules, posts and stops,
in terms of the functions that `Pipeline` is built from, and the theorems about the agent's runs are
not carried over to it.

**Interference.** Between two steps of a thread, while it waits for a lock, and after it got one,
the others may take any steps. The methods named `OthersStep`, `OthersAct`, `OthersReleaseLock`,
`AnyoneSteps` and the like stand for that: they promise no more than that the trace has grown to
another run, without steps of the calling thread where the call relies on being one thread, and
that nobody holds the lock where it is waited for. What such a run leaves of what the caller relies
on is a lemma about the machine, `OthersKeep` in each. A contract speaks of the state when the
call's last step is taken. Not interrupted are a region under a lock, which reads nothing that
others can change meanwhile, and the calls that `BaseEgressAgentService` makes on one component
after another.

**Composition.** A label of the agent moves each of its two queues and its poller by at most one
of their own steps, so `Pipeline.PartsRun` carries their theorems over to the agent. Each
operation handed over by the backend, and each timer tick, gets a token, which its result keeps.

## What was found

- A second signal cuts a shutdown short. The handler of a SIGTERM or SIGINT that comes while a
  signal before it is shutting down runs inside that shutdown, on the same thread; it is turned away
  and exits, and that exit is no `Exception`, so nothing on its way out catches it. What was not
  stopped by then is never stopped, no later trigger can take over as the lock is never released,
  and the exit is not signalled (`AgentSignals.SecondSignalCutsShutdown` is such a run, and
  `AgentSignals.CutShortForGood` says that it stays so). It happens if and only if a second signal
  reaches the main thread while a signal shuts down there (`AgentSignals.CutShortExactlyWhen`); a
  shutdown triggered by a goodbye event is never cut short.
- One operation ends polling for good. If a polled operation names a path and an id, and its
  operation entry is no object or is to be downloaded and cannot be, checking it raises out of the
  poller's loop, and nothing starts its thread again (`AgentPolling.CheckEndsPollingExactlyWhen`,
  `AgentPolling.DiedExactlyWhen`, `AgentPolling.PollingIsOver`, and the run
  `AgentPolling.NullOperationEndsPolling`).
- The handlers of metrics and of logs read the operation entry outside their guard, so that an entry
  that is not an object would end without any result (`Dispatch.NullOperationIsNotAnswered`).
  `_execute_operation` lets none through (`Dispatch.AdmittedIsAnswered`).
- After `stop()` the poller may still enter one more full timed wait: a notification is not
  remembered, and the loop tests its flag only after that wait. It can exactly when it is stopped
  between its loop test and its next wait (`Polling.StoppedCanStillExactlyWhen`), and it cannot do so
  twice (`Polling.EndsAfterStop`).
- A connected receiver loop can be left without a watchdog. The `finally` of a superseded loop
  checks the current id and then calls the disconnected handler; if a restart, and the new loop's
  connection, fall in between, the call stops the watchdog of the new loop
  (`Events.DelayedDisconnectLeavesUnmonitored`). That is the only way
  (`Events.OnlyLateDisconnectUnmonitors`), and with the check and the call as one step it is
  excluded (`Events.ConnectedImpliesMonitored`).
- `EventsClient.stop()` leaves the watchdog running and nothing reads its `_stopped`, so a client
  stopped while connected can come back without a new `start()`: its alarm restarts the receiver
  (`Events.StoppedClientComesBack` is such a run). A stopped client stays stopped if and only if the
  watchdog has no current loop, no checker loop has decided to call its handler or is inside it, and
  no receiver loop can still connect (`StoppedClient.ComesBackExactlyWhen`).

## Model

| member | source | states |
|---|---|---|
| WorkerQueue.ReachableInv | apollo/egress/agent/utils/queue_async_processor.py:34-78 | in every reachable state of the queue, for any number of workers: the lock has at most one holder, a worker parked un-notified means an empty running queue (no lost wakeup), and each item popped belongs to one worker and is before, in or past its handler |
| WorkerQueue.NothingStuck | apollo/egress/agent/utils/queue_async_processor.py:42-75 | with an item queued, or once stopped, every started worker that has not exited can take its next step, or wants a lock that its holder can release |
| WorkerQueue.Fifo | apollo/egress/agent/utils/queue_async_processor.py:47-75 | over every run the items scheduled are, in order, the items popped in pop order and then the queue |
| WorkerQueue.HandedExactlyOnce | apollo/egress/agent/utils/queue_async_processor.py:62-97 | the handler is entered exactly once for each popped item, by the one worker that popped it, and left exactly once, whether it raises or not |
| WorkerQueue.InFlightBound | apollo/egress/agent/utils/queue_async_processor.py:25-40 | at most thread_count items are popped and not yet through their handler |
| WorkerQueue.NothingPoppedAfterStop | apollo/egress/agent/utils/queue_async_processor.py:42-78 | after stop() nothing is popped again, the queue only grows by what is scheduled, and at most thread_count items still reach a handler |
| WorkerQueue.WorkersExitAfterStop | apollo/egress/agent/utils/queue_async_processor.py:42-78 | after stop() the workers take at most three steps each, and one that has not exited can proceed, so all exit |
| QueueProcessor.QueueAsyncProcessor.constructor | apollo/egress/agent/utils/queue_async_processor.py:18-25 | a new queue is empty, and has at least one thread whatever was asked for |
| WorkerQueue.OthersKeep | apollo/egress/agent/utils/queue_async_processor.py:62-78 | whatever the other threads do, a worker keeps its place, but for being notified, and the lock, the queue and the flag if it holds the lock |
| QueueProcessor.QueueAsyncProcessor.Start | apollo/egress/agent/utils/queue_async_processor.py:34-40 | every worker has been created, one after another, whatever those created already do meanwhile |
| QueueProcessor.QueueAsyncProcessor.Stop | apollo/egress/agent/utils/queue_async_processor.py:42-45 | the queue is stopped, nobody sleeps in wait, and the steps taken are a run ending in stop |
| QueueProcessor.QueueAsyncProcessor.Schedule | apollo/egress/agent/utils/queue_async_processor.py:47-50 | the calling thread has scheduled exactly this item more, whatever the others schedule while it waits for the lock; it is last in the queue, and nobody sleeps in wait |
| QueueProcessor.QueueAsyncProcessor.QueueDepth | apollo/egress/agent/utils/queue_async_processor.py:52-55 | the depth is that of the queue at the step that reads it, and the calling thread has scheduled nothing |
| QueueProcessor.QueueAsyncProcessor.TakeUnderLock | apollo/egress/agent/utils/queue_async_processor.py:70-75 | what the region under the lock pops, and the whole state after it |
| QueueProcessor.QueueAsyncProcessor.AwaitItem | apollo/egress/agent/utils/queue_async_processor.py:70-72 | the inner loop ends with the lock held and an item queued or the queue stopped, or sleeps with the queue empty and running |
| QueueProcessor.QueueAsyncProcessor.InvokeHandler | apollo/egress/agent/utils/queue_async_processor.py:80-97 | afterwards the handler has been entered and left exactly once for the item popped, whoever else stepped meanwhile, and the worker is back at its loop test, also if the handler raised |
| QueueProcessor.QueueAsyncProcessor.Run | apollo/egress/agent/utils/queue_async_processor.py:62-78 | a worker's loop, under any interference, takes only the machine's steps, a test for something to do in each round followed, ends only when stopped, and always ends if it was stopped before |
| Polling.ReachableInv | apollo/egress/agent/service/operations_poller.py:104-171 | the poller holds its lock only around its wait, and its waiting mark is set exactly during it |
| Polling.NeverSilentForTwoWaits | apollo/egress/agent/service/operations_poller.py:104-163 | between any two waits of any run there is a fetch or a heartbeat attempt, failed or not |
| Polling.OuterBackpressureBeatsThenWaits | apollo/egress/agent/service/operations_poller.py:106-111 | finding no capacity in the outer loop, the poller's next own steps are a heartbeat attempt and then entering a wait |
| Polling.InnerBackpressureWaits | apollo/egress/agent/service/operations_poller.py:117-128 | finding no capacity in the inner loop, the poller fetches no more: its next own steps enter a wait |
| Polling.PreparedAreSubmitted | apollo/egress/agent/service/operations_poller.py:130-142 | over every run each operation checked and ready is submitted, exactly once, or is being submitted |
| Polling.EndsAfterStop | apollo/egress/agent/service/operations_poller.py:84-128 | after stop() at most one more submission, one fetch and one newly entered wait, at most ten steps in all, and until the thread has ended it can move or wants a lock that can be released |
| Polling.StoppedCanStillExactlyWhen | apollo/egress/agent/service/operations_poller.py:84-128 | a stopped poller can still submit, fetch, or enter a wait if and only if it is at the places named, so each of the bounds is reached |
| Polling.OthersKeep | apollo/egress/agent/service/operations_poller.py:84-98 | whatever the other threads do, the poller keeps its place, but for being notified, and only stop() changes its flag |
| Polling.FetchedAfterStopIsNotSubmitted | apollo/egress/agent/service/operations_poller.py:114-123 | unless an operation is being submitted when stop() takes effect, none is submitted after it |
| PollerProcessor.OperationsPoller.Stop | apollo/egress/agent/service/operations_poller.py:84-88 | whatever the threads do before the lock is got, the poller is then stopped and does not sleep, and all that is proved of a stopped poller holds from there on |
| PollerProcessor.OperationsPoller.NotifyWorkAvailable | apollo/egress/agent/service/operations_poller.py:91-98 | a poller that waits when the lock is got is woken; on one that does not it has no effect, and the answer tells which |
| PollerProcessor.OperationsPoller.SendHeartbeat | apollo/egress/agent/service/operations_poller.py:144-149 | whether it raises or not, the poller goes on to its wait |
| PollerProcessor.OperationsPoller.FetchOperation | apollo/egress/agent/service/operations_poller.py:151-163 | a fetch that raises is a fetch that found nothing |
| PollerProcessor.OperationsPoller.SubmitOperation | apollo/egress/agent/service/operations_poller.py:130-142 | an accepted operation is submitted exactly once and as it was made ready, by exactly these steps; an invalid one is dropped, and an exception ends the thread with nothing submitted |
| PollerProcessor.OperationsPoller.WaitForWork | apollo/egress/agent/service/operations_poller.py:165-171 | the wait is entered and left under the lock, by exactly its four steps, and the poller is back at its loop test |
| PollerProcessor.OperationsPoller.SubmitAll | apollo/egress/agent/service/operations_poller.py:113-123 | every step of the inner loop heeds what the backend and the callbacks answer, so each operation they accept is submitted, the first one too if the poller runs; it ends about to wait, or with the thread ended by an exception |
| PollerProcessor.OperationsPoller.SubmitRound | apollo/egress/agent/service/operations_poller.py:116-123 | one operation is submitted exactly if it is accepted, and another one is fetched exactly if checking it did not raise and there is room |
| PollerProcessor.OperationsPoller.FetchIfRoom | apollo/egress/agent/service/operations_poller.py:106-113 | without room nothing is fetched: a heartbeat and a wait follow; with room something is asked for |
| PollerProcessor.OperationsPoller.RunLoop | apollo/egress/agent/service/operations_poller.py:104-128 | the nested loops, under any interference, take only the machine's steps, each the one to take on the answer it gets, and a step at least in each round followed; every operation made ready has been submitted; they end only when stopped or by an exception, and at once if stopped before they start |
| Dispatch.AdmittedIs | apollo/egress/agent/service/base_egress_service.py:423-431 | what is scheduled for an event: itself if it is not oversized, and otherwise itself with the downloaded body in the place of its operation entry and every other entry as before; and when it is nothing |
| Dispatch.FalsyExactlyWhen | apollo/egress/agent/service/base_egress_service.py:604-615 | the values that count as missing, one by one |
| Dispatch.FirstMatchAt | apollo/egress/agent/service/base_egress_service.py:437-446 | the search over the mappings passes those that do not match and stops at the first that does |
| Dispatch.MappingsAreDisjoint | apollo/egress/agent/service/base_egress_service.py:189-228 | no path matches two of the mappings |
| Dispatch.ResolvedHandler | apollo/egress/agent/service/base_egress_service.py:433-446 | which paths get which handler, with and without logs: an if-and-only-if for each |
| Dispatch.AnsweredExactlyWhen | apollo/egress/agent/service/base_egress_service.py:448-538 | an operation gets exactly one result if and only if its path is a text that has an answer and, for metrics and logs, its operation entry is missing or an object |
| Dispatch.AnswerSays | apollo/egress/agent/service/base_egress_service.py:448-520 | what the result says: what the work returned, under the right trace id, or an error text that is never empty: the exception's own, or one that names its type, or the unsupported path |
| Dispatch.NullOperationIsNotAnswered | apollo/egress/agent/service/base_egress_service.py:508-510 | a metrics request with a null operation entry gets no result |
| Dispatch.AdmittedIsAnswered | apollo/egress/agent/service/base_egress_service.py:423-431 | what _execute_operation schedules, downloaded or not, is answered if and only if its path has an answer |
| Pipeline.PartsRun | apollo/egress/agent/service/base_egress_service.py:131-146 | in every run of the agent its two queues and its poller run as the machines they are |
| Pipeline.NextOperationIs | apollo/egress/agent/service/base_egress_service.py:604-608 | the operation a reply offers is its entry of that name, if that counts |
| AgentInvariant.ReachableInv | apollo/egress/agent/service/base_egress_service.py:399-624 | in every run, for any thread counts and any shutdown triggers: the handlers' hands follow the workers' places, only a thread that is about to use a lock holds it, every token is in exactly one place, room granted to the poller is room there is, and one trigger shuts down, in order |
| AgentTheorems.EveryTokenInOnePlace | apollo/egress/agent/service/base_egress_service.py:410-624 | every operation handed over is in exactly one place: a queue, one worker, one publisher, the poller, or settled for a stated reason; nothing vanishes or is duplicated |
| AgentTheorems.OnlyPollerAndTimersAddWork | apollo/egress/agent/service/base_egress_service.py:577-624 | outstanding work grows only when the poller submits or a timer ticks, never by publishing |
| AgentTheorems.PiggybackedAtMostPushed | apollo/egress/agent/service/base_egress_service.py:594-624 | over every run no more piggybacked operations are scheduled than results were pushed |
| AgentTheorems.BackpressureHolds | apollo/egress/agent/service/base_egress_service.py:399-408 | although check, fetch and submit are separate steps, the polled operations queued never exceed thread_count, and the depth exceeds it only by piggybacked and timer operations |
| AgentTheorems.OneLockPerThread | apollo/egress/agent/service/operations_poller.py:84-128 | no thread ever holds two of the three locks |
| AgentTheorems.HoldersRelease | apollo/egress/agent/utils/queue_async_processor.py:42-77 | the holder of each lock can take the step that releases it at once, so there is no circular wait |
| AgentTheorems.QueuesAreFifo | apollo/egress/agent/service/base_egress_service.py:471-472 | both queues are FIFO over what the poller, publishers, timers and workers schedule in any run of the agent |
| AgentTheorems.ShutdownHappensOnce | apollo/egress/agent/service/base_egress_service.py:301-323 | however many triggers there are, notifying, stopping and signalling the exit each happen at most once, in that order and by the one call that got the lock, and the exit is signalled only with both queues and the poller stopped |
| AgentTheorems.NoNewWorkAfterStop | apollo/egress/agent/service/base_egress_service.py:255-258 | once both queues are stopped no operation or result is popped again, the workers take at most three more steps each, and the poller, stopped, submits, fetches and waits at most once more |
| AgentAnswers.OnlyUnanswerableGoUnanswered | apollo/egress/agent/service/base_egress_service.py:423-538 | over every run an operation that a worker executed is left without any result only if its path is no text or has no answer; what it can end with if it has one is AgentEndings.ScheduledIsAnswered |
| AgentIdentity.ResultsGoToTheirOperations | apollo/egress/agent/service/base_egress_service.py:410-624 | over every run each operation is executed with the id and the event it was handed over with, or, if that was oversized, the event with the body downloaded for it in the place of the operation entry; each result, pushed or not, bears that id and is the response to that operation for some outcome of its work; and each settled operation ended for the reason stated |
| AgentEndings.ScheduledOnceOrNever | apollo/egress/agent/service/base_egress_service.py:410-624 | over every run each thing handed over is still on its way to the operations queue, or ended before it (rejected, dropped at stop, download failed), or was scheduled, exactly once |
| AgentEndings.ScheduledIsAnswered | apollo/egress/agent/service/base_egress_service.py:423-608 | over every run an operation that was scheduled and whose path has an answer can only end with the response to it handed to push_results, which returned or raised, or with a response that is nothing to push |
| AgentPolling.DiedExactlyWhen | apollo/egress/agent/service/operations_poller.py:104-142 | in every reachable state the poller's thread has ended by an exception if and only if a polled operation could not be scheduled |
| AgentPolling.CheckEndsPollingExactlyWhen | apollo/egress/agent/service/base_egress_service.py:423-431 | which operations those are: an if-and-only-if on the operation and its download |
| AgentPolling.PollingIsOver | apollo/egress/agent/service/operations_poller.py:70-82 | from then on the poller takes no step in any continuation, so nothing is ever fetched again |
| AgentPolling.NullOperationEndsPolling | apollo/egress/agent/service/operations_poller.py:130-142 | a run in which one operation with a null entry ends polling |
| AgentProgress.OpsWorkersProceed | apollo/egress/agent/utils/queue_async_processor.py:62-97 | in every reachable state of the agent each worker, whatever its handler meets, can take its next step or wants a lock whose holder can release it at once, unless it sleeps on an empty running queue |
| AgentProgress.PublishersProceed | apollo/egress/agent/service/base_egress_service.py:577-624 | the same of each publisher |
| AgentProgress.PollerProceeds | apollo/egress/agent/service/operations_poller.py:104-171 | the same of the poller until its thread has ended, whatever the backend answers |
| AgentProgress.ShutdownProceeds | apollo/egress/agent/service/base_egress_service.py:301-323 | unless it was cut short, the trigger that got the lock can proceed until it is over, whether or not notifying raised |
| AgentProgress.ShutdownIsBounded | apollo/egress/agent/service/base_egress_service.py:301-323 | over every run a trigger takes at most ten steps, however many the others take |
| AgentSignals.CutShortExactlyWhen | apollo/egress/agent/service/base_egress_service.py:309-340 | over every run the shutdown is cut short if and only if a second signal reaches the main thread while a signal shuts down there |
| AgentSignals.CanBeCutExactlyWhen | apollo/egress/agent/service/base_egress_service.py:325-340 | in every reachable state a shutdown in progress can still be cut short if and only if it is run by a signal and another signal is still to come |
| AgentSignals.CutShortForGood | apollo/egress/agent/service/base_egress_service.py:309-323 | once cut short, in every continuation: no trigger takes it up again, nothing more is stopped or signalled, and what ran runs on |
| AgentSignals.SecondSignalCutsShutdown | apollo/egress/agent/service/base_egress_service.py:301-340 | a run with two signals after which nothing is stopped and the lock is taken |
| AgentService.BaseEgressAgentService.constructor | apollo/egress/agent/service/base_egress_service.py:131-228 | the components start empty and the mappings are those of the model |
| AgentService.BaseEgressAgentService.CanAcceptWork | apollo/egress/agent/service/base_egress_service.py:399-408 | true if and only if fewer operations are queued than there are workers |
| AgentService.BaseEgressAgentService.ExecuteOperation | apollo/egress/agent/service/base_egress_service.py:423-431 | exactly one operation is scheduled: the event itself, or, if it is oversized, with the downloaded body in the place of its operation entry; without such a body it raises and the queue is untouched |
| AgentService.BaseEgressAgentService.SubmitOperation | apollo/egress/agent/service/base_egress_service.py:610-624 | an operation without path or id is dropped, one whose operation entry is no object or cannot be downloaded raises, and otherwise exactly it is scheduled, under its own id and with its body downloaded if it is oversized |
| AgentService.BaseEgressAgentService.PushFromTimer | apollo/egress/agent/service/base_egress_service.py:522-535 | a tick schedules exactly one operation for its path |
| AgentService.BaseEgressAgentService.ResolveOperationMethod | apollo/egress/agent/service/base_egress_service.py:433-446 | the loop finds the first mapping that matches |
| AgentService.BaseEgressAgentService.ExecuteGuarded | apollo/egress/agent/service/base_egress_service.py:448-469 | exactly one result, of what was returned or of the exception |
| AgentService.BaseEgressAgentService.ExecuteWrapped | apollo/egress/agent/service/base_egress_service.py:489-520 | exactly one result under the trace id, or a raise and none |
| AgentService.BaseEgressAgentService.ExecuteScheduledOperation | apollo/egress/agent/service/base_egress_service.py:474-487 | schedules exactly the result that the response to the operation is, or none |
| AgentService.BaseEgressAgentService.PushResults | apollo/egress/agent/service/base_egress_service.py:577-624 | a result that is not None is pushed once; the reply's entry for the next operation is scheduled, exactly once and with its body downloaded if oversized, if it names a path and an id and can be; nothing else is |
| AgentService.BaseEgressAgentService.FlushLogs | apollo/egress/agent/service/base_egress_service.py:540-563 | what is posted, once, is the batch drained, exactly as the account of losses has it, or the oldest records up to the limit, left in place; and nothing if that is empty |
| AgentService.BaseEgressAgentService.StopLogsService | apollo/egress/agent/service/base_egress_service.py:267-294 | the final post carries the batch drained, exactly as the account of losses has it, even if closing fails, and draining failing does not keep it from closing |
| AgentService.BaseEgressAgentService.Start | apollo/egress/agent/service/base_egress_service.py:230-243 | the queues, the poller, and the timers and events client that are configured are started |
| AgentService.BaseEgressAgentService.Stop | apollo/egress/agent/service/base_egress_service.py:255-265 | both queues and the poller are stopped, in the sense of their theorems, the timers and the events client too, and the last batch of logs is posted |
| AgentService.BaseEgressAgentService.TriggerGracefulShutdown | apollo/egress/agent/service/base_egress_service.py:301-323 | the first call notifies, stops everything, posts the last batch and signals once, unless a second signal's handler runs on its thread: then it ends there, with exactly the components stopped that were stopped before, and signals nothing; every other call changes nothing |
| AgentService.BaseEgressAgentService.SignalHandler | apollo/egress/agent/service/base_egress_service.py:332-336 | while a shutdown has the lock, a signal's handler changes nothing and exits |
| LogBuffer.LossIsAccounted | apollo/egress/agent/service/in_process_logs_service.py:106-138 | the drained batches and the buffer are the appended records in order without repetition, each gap as long as the batch's warning says, and the numbers add up, for every capacity and interleaving |
| BoundedDeques.BoundedDeque.Append | apollo/egress/agent/service/in_process_logs_service.py:79-109 | appending to the ring pushes the oldest element out when it is full, and keeps nothing when it has no room at all |
| BoundedDeques.BoundedDeque.Copy | apollo/egress/agent/service/in_process_logs_service.py:140-147 | copies the first elements, as many as the limit allows and there are, none for a limit below one |
| LogShipping.ShapeIsWellFormed | apollo/egress/agent/service/in_process_logs_service.py:94-105 | a shipped record has only JSON-native values, the handler's own timestamp and message, and no other reserved key, whatever the extras are called |
| LogShipping.ShapeShipsExtras | apollo/egress/agent/utils/utils.py:63-76 | exactly the extras whose keys are not reserved are shipped, each with its coerced and then redacted value |
| LogShipping.EveryShippedRecordIsWellFormed | apollo/egress/agent/service/in_process_logs_service.py:89-138 | so is, in every reachable state, each record drained or buffered |
| LogShipping.EmittersLoseOnlyWhatIsCounted | apollo/egress/agent/service/in_process_logs_service.py:89-138 | the exact account holds for any number of emitting, re-entering and draining threads |
| LogShipping.OthersKeep | apollo/egress/agent/service/in_process_logs_service.py:89-113 | whatever the other threads do, and this one logs from within, a thread stays inside the emit() it is in, and nothing appended or drained is undone |
| LogHandlers.WarningTellsCount | apollo/egress/agent/service/in_process_logs_service.py:123-134 | the warning has a timestamp and a message, and the number of lost records can be read off its text |
| LogHandlers.PostedIs | apollo/egress/agent/service/base_egress_service.py:540-563 | what is posted for a batch: all its records in order, behind exactly one warning if some were lost, and nothing only if there is nothing |
| LogHandlers.InProcessLogShippingHandler.Emit | apollo/egress/agent/service/in_process_logs_service.py:89-113 | the calling thread appends exactly one record if it can be formatted and none otherwise, whatever the others append meanwhile; a record logged from within emit() changes nothing, and the mark is always cleared |
| LogHandlers.InProcessLogShippingHandler.Append | apollo/egress/agent/service/in_process_logs_service.py:106-113 | the region under the lock and the whole state after it |
| LogHandlers.InProcessLogShippingHandler.Drain | apollo/egress/agent/service/in_process_logs_service.py:115-138 | returns all records of the batch that the account of losses has for it, in order, behind exactly one warning with the number lost if some were; buffer and count start over |
| LogHandlers.InProcessLogShippingHandler.Peek | apollo/egress/agent/service/in_process_logs_service.py:140-147 | returns the first records of the buffer when the lock is got, as many as the limit allows, and its step changes nothing |
| Jsonable.ToJsonableIsNative | apollo/egress/agent/utils/utils.py:46-60 | the coercion of any acyclic value is JSON-native |
| Jsonable.UnchangedExactlyWhenNative | apollo/egress/agent/utils/utils.py:46-60 | a value is left as it is if and only if it is native already, so coercing is idempotent |
| Jsonable.CoercedLookup | apollo/egress/agent/utils/utils.py:57-58 | after the coercion a key finds the coerced value of the last key that reads like it |
| Jsonable.CoercedElements | apollo/egress/agent/utils/utils.py:59-60 | lists, tuples and sets keep their elements, coerced, in order |
| Jsonable.CoercedByKind | apollo/egress/agent/utils/utils.py:55-60 | what each kind of value becomes: native scalars themselves, dictionaries by key, sequences and sets by element, anything else its str() |
| Receiving.StaleLoopDiesOut | apollo/egress/agent/events/sse_client_receiver.py:72-129 | a superseded loop delivers at most one more event and begins at most one more attempt, each only if it was committed to it, and exits within ten steps |
| Receiving.RestartMakesStale | apollo/egress/agent/events/sse_client_receiver.py:54-70 | replacing or clearing the id makes every loop so far stale |
| Heartbeats.NoFalseAlarm | apollo/egress/agent/events/heartbeat_checker.py:51-62 | over every run, timely or not, the handler is called only after a check such that every heartbeat that came before it, whether the loop saw it or not, was longer ago than the timeout |
| Heartbeats.SilenceIsNoticed | apollo/egress/agent/events/heartbeat_checker.py:51-62 | if heartbeats cease, the current loop calls its handler later than the timeout and not later than three halves of it, and what the machine is late, after the last one |
| Heartbeats.StaleLoopDiesOut | apollo/egress/agent/events/heartbeat_checker.py:27-62 | superseded by any number of starts, a loop calls the handler at most once more and exits within three steps |
| Receiving.OthersKeep | apollo/egress/agent/events/sse_client_receiver.py:54-79 | whatever the other threads do, a receiver loop keeps its place, and once superseded it is never current again |
| Heartbeats.OthersKeep | apollo/egress/agent/events/heartbeat_checker.py:27-49 | the same of a checker loop, and no heartbeat is forgotten |
| Events.PartsRun | apollo/egress/agent/events/events_client.py:41-89 | in every run of the client its receiver and watchdog run as the machines they are |
| Events.OnlyLateDisconnectUnmonitors | apollo/egress/agent/events/sse_client_receiver.py:124-129 | a step takes the watchdog from a connected current loop if and only if it is the disconnected call of another loop |
| Events.ConnectedImpliesMonitored | apollo/egress/agent/events/events_client.py:61-89 | with the last check and that call as one step, a connected current loop is monitored in every reachable state |
| Events.DelayedDisconnectLeavesUnmonitored | apollo/egress/agent/events/sse_client_receiver.py:124-129 | a run, step by step, after which a connected current loop has no watchdog |
| Events.StoppedClientComesBack | apollo/egress/agent/events/events_client.py:55-62 | a run in which a connected client is stopped and then, with nobody starting it, a new receiver loop is current |
| StoppedClient.QuietStaysStopped | apollo/egress/agent/events/events_client.py:55-89 | from a quiet state the receiver is never restarted in any run without a new start |
| StoppedClient.ComesBackExactlyWhen | apollo/egress/agent/events/events_client.py:55-89 | in every reachable state with no current receiver loop, some run without a new start restarts the receiver if and only if the state is not quiet |
| EventClasses.SSEClientReceiver.StartReceiverThread | apollo/egress/agent/events/sse_client_receiver.py:54-63 | a new loop with a new id is the current one |
| EventClasses.SSEClientReceiver.Stop | apollo/egress/agent/events/sse_client_receiver.py:65-66 | no loop is current |
| EventClasses.SSEClientReceiver.Restart | apollo/egress/agent/events/sse_client_receiver.py:68-70 | a new loop is current and every earlier one is stale, whatever steps in between |
| EventClasses.SSEClientReceiver.TakeEvent | apollo/egress/agent/events/sse_client_receiver.py:104-121 | an event is handed on exactly if it can be parsed, unless the loop is found superseded; then the stream is left |
| EventClasses.SSEClientReceiver.ConsumeEvents | apollo/egress/agent/events/sse_client_receiver.py:103-121 | at the stream's end every event that can be parsed has been handed on, once; it is left before only by a loop that is no longer current; a loop superseded before hands on no event |
| EventClasses.SSEClientReceiver.RunFinally | apollo/egress/agent/events/sse_client_receiver.py:124-129 | the disconnected handler is called exactly if the loop is current or none is |
| EventClasses.SSEClientReceiver.Finish | apollo/egress/agent/events/sse_client_receiver.py:121-129 | only a current loop fails and is tried again |
| EventClasses.SSEClientReceiver.RunReceiver | apollo/egress/agent/events/sse_client_receiver.py:72-129 | the loop, under any interference, takes only the machine's steps, each the one to take in the attempt it is in, begins as many attempts as are followed, and delivers exactly what it says; superseded before it looks, it exits having delivered nothing |
| EventClasses.HeartbeatChecker.Start | apollo/egress/agent/events/heartbeat_checker.py:27-37 | a new loop is current and the last heartbeat is now |
| EventClasses.HeartbeatChecker.HeartbeatReceived | apollo/egress/agent/events/heartbeat_checker.py:43-46 | the last heartbeat is now |
| EventClasses.HeartbeatChecker.WaitAndMeasure | apollo/egress/agent/events/heartbeat_checker.py:54-56 | the time measured is that since the last heartbeat seen at the measurement |
| EventClasses.HeartbeatChecker.RunHeartbeatChecker | apollo/egress/agent/events/heartbeat_checker.py:51-62 | the loop, under any interference, takes only the machine's steps, looks whether it is current in each round followed, and calls the handler exactly as often as it says; superseded before it looks, it exits without calling it |
| EventClasses.EventsClient.Start | apollo/egress/agent/events/events_client.py:41-53 | a new receiver loop is current |
| EventClasses.EventsClient.Stop | apollo/egress/agent/events/events_client.py:55-59 | no receiver loop is current, and the watchdog is as it was |
| EventClasses.EventsClient.Reconnect | apollo/egress/agent/events/events_client.py:61-62 | a new receiver loop is current, also after stop() and whatever steps in between |
| EventClasses.EventsClient.EventReceived | apollo/egress/agent/events/events_client.py:64-83 | which event calls what, and that only a heartbeat touches the watchdog |
| EventClasses.EventsClient.ReceiverConnected | apollo/egress/agent/events/events_client.py:85-86 | the connected loop is monitored, its heartbeat time fresh |
| EventClasses.EventsClient.DisconnectClears | apollo/egress/agent/events/heartbeat_checker.py:39-40 | no watchdog loop is current |
| EventClasses.EventsClient.ReceiverDisconnected | apollo/egress/agent/events/events_client.py:88-89 | the watchdog's id is cleared first and its loops are woken last, whatever steps in between |

## Left out

- AgentSignals.CutShortExactlyWhen: a signal that comes while the shutdown is inside a region under a lock, or inside the stopping of the logs service, is taken as coming before or after it; between draining and posting it would lose that batch. That the main thread, and with it perhaps the process, ends by the exit is not modelled.
- AgentTheorems.PiggybackedAtMostPushed: counts results for which push_results returned. It returns nothing, and logs, if every attempt to deliver fails (apollo/egress/agent/backend/backend_client.py:58-62), so a result settled as pushed may not have reached the backend.
- Events.ConnectedImpliesMonitored: takes the receiver's last check and its disconnected call as one step, because without that the claim is false; when it is false is stated exactly by Events.OnlyLateDisconnectUnmonitors. restart() is not taken as one step.
- Heartbeats.SilenceIsNoticed: assumes that only waiting takes time, each wait returning within half the timeout and a given lateness, and that the two assignments of start() are one step; Heartbeats.NoFalseAlarm assumes no timing. A call still running counts as time standing still.
- LogBuffer.LossIsAccounted: counts records appended and drained; a drained batch whose POST fails is gone, as in the code, and no warning counts it.
- QueueProcessor.QueueAsyncProcessor.Run: a method here has to end, so the loop is followed for a given number of rounds, any number; the machine WorkerQueue has no such bound.
- PollerProcessor.OperationsPoller.RunLoop: followed for a given number of rounds, any number; the machine Polling has no such bound.
- EventClasses.SSEClientReceiver.RunReceiver: followed for a given number of attempts, any number; the machine Receiving has no such bound.
- EventClasses.HeartbeatChecker.RunHeartbeatChecker: followed for a given number of rounds, any number; the machine Heartbeats has no such bound.
- WorkerQueue.InFlightBound: one start() for each queue, and likewise for the poller; a second one would add threads beside those still alive.
- PollerProcessor.OperationsPoller.SubmitAll: the inner of the two nested loops is a method of its own, followed for a given number of rounds, any number.
- AgentService.BaseEgressAgentService.TriggerGracefulShutdown: its own sequence of calls is not interrupted, and conservation, backpressure and the order of a whole run are proved of Pipeline, not of this object.
- AgentTheorems.ShutdownHappensOnce: the shutdown is triggered only once the components are started, as signal handlers and the goodbye handler are registered only then; in Pipeline the timers and listeners are never stopped, which only allows more runs.
- AgentService.BaseEgressAgentService.StopLogsService: the emitters that may append between the drain and the close are not interleaved with it.
- A disconnected handler that raises, which the client's own does not.
- HTTP requests, headers, URLs, tokens and the retry decorator's delays: the backend answers anything, and only the calls are counted.
- Wire parsing of server-sent events: a stream is any sequence of events, each parsable or not, that ends or raises.
- Token providers, configuration, persistence, health information and credential reporting, which only look values up.
- Redaction and str(): arbitrary functions, of which redaction is assumed to keep values JSON-native and str() to leave strings as they are. Values that contain themselves, on which the coercion would not end, are not modelled, nor is NaN.
- The results processor and operation attributes: a result that is there is pushed as it is, and publishing for a query id is not implemented in the original.
- The timers' own loops: they may schedule at any step; the service object knows only whether they run.
- Log texts, timestamps and durations, but for the overflow warning, and log levels.
- The sharing of an event dictionary between the queue and whoever handed it over: operations are values here, so nothing changes one after it was scheduled.
