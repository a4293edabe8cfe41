# The flow protocol of the simple backend

The backend runs tasks out of order on worker threads. What keeps them in order are *flows*
and *anti-flows*: each is a join counter, an event that triggers when its count reaches zero
and then runs the actions attached to it, most of which decrement other counters. Registering
a use of a datum creates, raises or wires up counters; releasing it lowers them.

The project models that machinery and proves what it is for.

- `CounterNet` is the network of counters as a machine whose runs are all interleavings of all
  threads, with conservation of obligations; `Cascades` proves that the trigger cascade
  terminates and is confluent, wherever other operations step in, and which least fixpoint it
  reaches.
- `JoinCounters`, `PendingOperations` and `Uses` are the imperative code over heap objects:
  the recursive cascade through the object graph, pending operations, `register_use` and
  `release_use`. Each method is tied to `CounterNet` or to `UseProtocol`. `Dispatches` says what
  the counter of pending tasks counts, `Waiting` when a pending operation is ready, and `Turns`
  that a submitted task is attached, queued or run, and never lost.
- `UseProtocol` says what each case of registration and release does to the network, and
  `Relationships` what that means: which flow a use gets, and with which counter it becomes ready;
  `Aliasing` proves that the two ways of handling aliases are equivalent; `Scripts` takes
  registration, release and submission apart into single counter operations, and
  `UseHistories` runs any number of them concurrently, one counter operation at a time;
  `FlowOrder` proves in which order flows become ready, for alias chains and collections, and
  `Deadlocks` when such a history cannot get stuck.
- `ProgramOrder` says when a schedule refines sequential execution. `TaskGraph`,
  `TaskInvariants`, `TaskLaunches`, `TaskRuns` and `TaskProgress` run a program on the flow
  protocol and prove that every interleaving of single counter operations refines program order,
  fails no assertion, launches each task once, cannot deadlock, and ends; `TaskCompletion` leads
  every program, from wherever it has got to, to its end.
- `EventProtocol` has a program counter per thread for the race between attaching and
  triggering, and `EventRaces` shows what goes wrong around the trigger, and exactly when;
  `LinkedQueue` is the queue as linked heap nodes; `Scheduler` is workers, stealing and shutdown,
  and `SchedulerProgress` how work gets done before it comes to that;
  `Allreduce` and `Publish` are the protocols on top.

Hypotheses. The frontend that turns accesses into relationships is not in the repository:
`TaskGraph.RequestFor` states the shape it is taken to produce. Clients name a flow to be raised
only while somebody holds it; the conditions are the predicates `InOk`, `AntiInOk`, `OutOk`,
`AntiOutOk` (or, as something to check beforehand, `RaisesOnlyHeldFlows`), and `TaskRuns` shows
that programs of that shape meet them. In `EventProtocol` that is the predicate `Disciplined`: who
raises a count holds it meanwhile. A use is released no earlier than its task is done.
Memory is sequentially consistent, and a critical section is one step.

Three facts about the code that its comments do not mention.

- Actions that are attached after the trigger may run before older ones, whatever the count and
  however many threads there are (`EventRaces.LaterActionMayOvertake`); those inserted before the
  trigger keep their order (`EventProtocol.EarlyActionsRunInOrder`).
- The assertion in `advance_count` passes whenever the flag is clear, which does not make raising
  the count safe. It can fail, then or later, exactly when the caller holds no obligation of its own
  during the call (`EventRaces.RaiseIsSafeIffBacked`): the others may then discharge everything
  after the assertion has passed, and the flag is set with a count of one, whose decrement fails
  (`EventRaces.UnbackedRaiseFails`).
- `register_use` asserts on the pointer of an anti-out relationship `Same` even where the anti-in-flow
  takes its place. A request that raises only held flows fails an assertion if and only if that
  pointer is missing (`UseProtocol.HeldFlowsAreAccepted`); `UseProtocol.OwnAntiInWithoutPointerIsRefused`
  is such a request.

## Model

| member | source | states |
|---|---|---|
| CounterNet.MoveConserves | src/data_structures/join_counter.hpp:83-102 | No step of a cascade changes what clients hold on any counter, and a decrement never meets a counter that is at zero or triggered |
| CounterNet.OpConserves | src/data_structures/join_counter.hpp:60-102 | Creating, raising, lowering a counter or attaching an action changes the holdings by exactly one obligation, and keeps the network safe |
| CounterNet.TriggeredIffDischarged | src/data_structures/join_counter.hpp:83-91 | At rest a counter is triggered if and only if nobody holds it and no attached decrement aims at it |
| CounterNet.OwedMeansNotTriggered | src/data_structures/join_counter.hpp:75-91 | At any time, a counter that is held or the target of a pending decrement has not triggered |
| Cascades.MoveSpendsOne | src/data_structures/event.hpp:71-79 | Termination: each step of a cascade uses up exactly one unit of a measure |
| Cascades.Settle | src/data_structures/event.hpp:71-79 | Running the cascade to its end leaves a settled, safe network with the same holdings |
| Cascades.MovesCommute | src/data_structures/event.hpp:71-79 | Steps of two threads commute |
| Cascades.MoveKeepsOutcome | src/data_structures/event.hpp:71-79 | Whichever step comes first, the cascade ends in the same state |
| Cascades.AllRunsAgree | src/data_structures/join_counter.hpp:83-102 | Confluence: every run of the cascade stays safe, is bounded, and can end in one state only |
| Cascades.TriggeredIsLeastFixpoint | src/data_structures/join_counter.hpp:83-102 | The counters triggered in the end are the least set closed under the attachment graph |
| Cascades.CountAtTheEnd | src/data_structures/join_counter.hpp:83-91 | The final count of every counter, in terms of the initial attachments and the final triggered set |
| Cascades.SettleInPieces | src/data_structures/event.hpp:71-79 | Running part of the work to its end first, as nested cascades do, does not change the outcome |
| Cascades.OpFirst | src/data_structures/join_counter.hpp:75-102 | An operation of a client that is allowed after a step of a cascade is allowed before it, with the same result |
| Cascades.StepsInBetween | src/data_structures/join_counter.hpp:60-102 | Where in between the operations of clients the steps of cascades come, and which, makes no difference to the outcome |
| Cascades.SomebodyHoldsItBack | src/data_structures/join_counter.hpp:83-102 | At rest, behind every untriggered counter there is one that somebody holds, if no counter waits for itself |
| Cascades.NothingHeldEverythingTriggers | src/data_structures/join_counter.hpp:83-102 | When everything has been released, every counter triggers |
| JoinCounters.Runtime.NewCounter | src/data_structures/join_counter.hpp:60-67 | A new counter is owed its whole initial count |
| JoinCounters.Runtime.Enqueue | src/pending_operation.hpp:99-105 | An operation put in the queue joins the work in flight |
| JoinCounters.JoinCounter.DecrementCount | src/data_structures/join_counter.hpp:83-91 | The recursive cascade through the object graph terminates and leaves the heap in the unique outcome of all orders of its actions |
| JoinCounters.JoinCounter.IncrementCount | src/data_structures/join_counter.hpp:70-81 | Raising a live counter gives its caller one obligation and disturbs nothing else |
| JoinCounters.JoinCounter.LetGo | src/data_structures/join_counter.hpp:83-91 | A client's decrement discharges one obligation and runs the cascade to its end |
| JoinCounters.JoinCounter.AttachAction | src/data_structures/event.hpp:196-222 | The action runs at once on a triggered counter and is kept otherwise; its decrement discharges one obligation |
| JoinCounters.JoinCounter.MakeReady | src/data_structures/event.hpp:116-121 | Triggering takes all attached actions and runs them to the end; the operations they put into the queue come in the order in which they were attached |
| JoinCounters.JoinCounter.RunActions | src/data_structures/event.hpp:71-79 | Draining a list front to back ends as any order would, and the operations it puts into the queue itself come in list order |
| JoinCounters.JoinCounter.RunAction | src/data_structures/event.hpp:176-179 | One action: a cascade, or an operation at the end of the queue |
| JoinCounters.Runtime.TakeReady | src/worker/worker_threads.cpp:80-88 | A worker takes the front of the queue; a deferred decrement is then owed by the worker |
| PendingOperations.PendingOperation.constructor | src/pending_operation.hpp:75 | The counter of a pending operation starts at one, held by its creator |
| PendingOperations.PendingOperation.AddDependencyOn | src/pending_operation.hpp:65-73 | A prerequisite is added without changing what anybody holds |
| PendingOperations.PendingOperation.MakeReady | src/pending_operation.hpp:77-79 | The setup count is let go of |
| PendingOperations.PendingOperation.EnqueueOrRun | src/pending_operation.hpp:81-134 | The operation is dispatched through the queue or run in place, never both; in place exactly if it is ready, allowed and the stack is not too deep; the depth is restored, and `pending_tasks` counts the operations attached and not dispatched yet |
| PendingOperations.RunOperation | src/worker/worker.hpp:111-115 | A task is run once, and nothing else is; a deferred decrement is done on the spot |
| PendingOperations.RunReceived | src/worker/worker.hpp:111-132 | A worker leaves its loop exactly when it gets the message that all tasks are done, and then has run nothing; otherwise it has run what it got, once |
| PendingOperations.TakeTurn | src/worker/worker_threads.cpp:78-105 | One turn of the work loop takes the front of the queue, if there is one, and runs it |
| Turns.TurnKeepsTasks | src/pending_operation.hpp:81-134 | A turn of any thread only moves tasks from being attached to a queue to having been run; a submission adds one |
| Turns.EachTaskIsInOnePlace | src/pending_operation.hpp:81-134 | After any sequence of submissions, turns and other operations a task is attached, queued or run together exactly as often as it was submitted |
| PendingOperations.AwaitAll | src/pending_operation.hpp:222-238 | Any list of prerequisites, with repeats and triggered ones, is waited for |
| PendingOperations.WhenAllReadyDo | src/pending_operation.hpp:148-172 | An operation that waits for all triggers takes over the obligation of its creator; it runs in place if and only if that is allowed and all triggers have triggered |
| Waiting.AwaitingIsReadyWhenAllAre | src/pending_operation.hpp:222-238 | The counter of a pending operation has triggered if and only if all its triggers have, with repeats and with triggers that were ready before |
| Waiting.ReadyWhenAllWere | src/pending_operation.hpp:222-238 | Setting it up triggers nothing else, so it is ready exactly if all triggers were ready before |
| Waiting.WaitsInOrder | src/data_structures/join_counter.hpp:93-102 | A counter whose decrement hangs on another triggers only after it |
| Dispatches.ThenOutstanding | src/pending_operation.hpp:81-134 | An operation of a thread changes the number of attached, undispatched operations by those it attaches and those that become ready |
| UseProtocol.ThenBalances | src/data_structures/join_counter.hpp:75-102 | Every counter operation keeps the ledger equal to what is held |
| UseProtocol.HeldIsLive | src/data_structures/join_counter.hpp:75-81 | A counter somebody holds has not triggered, so raising it fails no assertion |
| UseProtocol.InTakesNothing | src/register_use.cpp:76-185 | No in-flow relationship takes an obligation, fetches included; the flow is the one it is pointed to, or its own |
| UseProtocol.AntiInTakesUnlessAntiDependency | src/register_use.cpp:199-284 | An anti-in-flow is taken hold of once, unless the use is an anti-dependency; it is the one it is pointed to, or its own |
| UseProtocol.OutTakesOne | src/register_use.cpp:303-352 | An out-flow is taken hold of exactly once; it is the related flow, or its own |
| UseProtocol.AntiOutTakesOne | src/register_use.cpp:376-413 | An anti-out-flow is taken hold of exactly once; it is the related one, or its own |
| Relationships.InFlowMeans | src/register_use.cpp:76-185 | When everything in flight has run: the in-flow is the flow it is pointed to, or is ready exactly if its source is, or is ready; and no other flow has become ready |
| Relationships.AntiInFlowMeans | src/register_use.cpp:199-284 | The anti-in-flow is the one it is pointed to, or ready exactly if that of the collection is; forwarded it is ready, and as the next one it is not |
| Relationships.OutFlowMeans | src/register_use.cpp:303-352 | The out-flow is the related flow or a new one, is not ready, and that of the collection waits for it |
| Relationships.AntiOutFlowMeans | src/register_use.cpp:376-413 | So is the anti-out-flow |
| UseProtocol.RegisterConserves | src/register_use.cpp:72-450 | Registration takes exactly the obligations the use will answer for |
| UseProtocol.HeldFlowsAreAccepted | src/register_use.cpp:72-450 | A request that raises only held flows fails no assertion, if and only if an anti-out relationship `Same` has a pointer |
| UseProtocol.OwnAntiInWithoutPointerIsRefused | src/register_use.cpp:376-402 | A request that raises only held flows and fails the assertion on that pointer |
| UseProtocol.WhenAllReadyBalances | src/pending_operation.hpp:148-172 | A pending operation takes over its creator's obligation, and nobody holds its counter |
| UseProtocol.HandleAliasingBalances | src/flow/aliasing_strategy.cpp:87-114 | Linking the flows of an aliasing use changes no holdings |
| Aliasing.EitherAliasing | src/flow/aliasing_strategy.cpp:51-114 | For every use that may be released, every complete run after handling its alias through the work queue agrees with every one after attaching the decrements directly, on which flows have triggered and on the counts of the others |
| Aliasing.DeferralIsInvisible | src/flow/aliasing_strategy.cpp:51-114 | The same for any number of aliases among other raises, decrements and attachments, with steps of cascades anywhere between the single counter operations |
| Aliasing.LoadsAgree | src/flow/aliasing_strategy.cpp:91-100 | Whatever set of counters triggers, both ways have the same decrements in store for a flow, if each pending operation triggers with its source |
| Aliasing.PendingLoads | src/pending_operation.hpp:148-172 | The counter of such a pending operation gets one decrement at once and one if its source triggers |
| Aliasing.ClosedWithPendings | src/data_structures/join_counter.hpp:83-102 | A set of counters closed under the attachments of the direct way is closed for the other, with the pending operations it makes ready |
| Aliasing.ClosedDirectly | src/data_structures/join_counter.hpp:83-102 | And the other way round |
| UseProtocol.ReleaseConserves | src/release_use.cpp:57-81 | Release gives back exactly what the use answers for |
| UseProtocol.ReleaseUndoesRegister | src/release_use.cpp:57-81 | Registering and releasing leaves every holding as it was |
| Uses.RegisterInFlow | src/register_use.cpp:76-185 | The imperative case split does what the protocol says; the flow is the very object it is pointed to, or a new one, and refers to the right block of data |
| Uses.RegisterAntiInFlow | src/register_use.cpp:199-284 | The same for the anti-in-flow |
| Uses.RegisterOutFlow | src/register_use.cpp:303-352 | The same for the out-flow, with its block of data |
| Uses.RegisterAntiOutFlow | src/register_use.cpp:376-413 | The same for the anti-out-flow |
| Uses.RegisterUse | src/register_use.cpp:53-450 | The use ends up with the four flows of the protocol, shared flows being those of the others, with their blocks of data, and the heap in the protocol's state |
| Uses.BlocksAreApart | src/register_use.cpp:125-142 | In-flows of one collection refer to the same data if and only if they are for the same index, and first flows if and only if they have the same key |
| Uses.VersionsShareData | src/register_use.cpp:316-335 | A next version refers to the data of the one before |
| Uses.Link | src/flow/aliasing_strategy.cpp:91-100 | Raise the target, and lower it through a queue once the source is ready |
| Uses.HandleAliasing | src/flow/aliasing_strategy.cpp:87-114 | In-flow to out-flow, and anti-out-flow to anti-in-flow |
| Uses.DropFlows | src/release_use.cpp:65-75 | The three conditional decrements give back the tokens of the use |
| Uses.ReleaseUse | src/release_use.cpp:57-81 | Release gives back the tokens of the use; without in-place running the heap is in the protocol's state |
| Scripts.InScriptDoes | src/register_use.cpp:76-185 | The single counter operations of an in-flow, done without interruption, are what the protocol says |
| Scripts.AntiInScriptDoes | src/register_use.cpp:199-284 | The same for the anti-in-flow |
| Scripts.OutScriptDoes | src/register_use.cpp:303-352 | The same for the out-flow |
| Scripts.AntiOutScriptDoes | src/register_use.cpp:376-413 | The same for the anti-out-flow |
| Scripts.LinkScriptDoes | src/flow/aliasing_strategy.cpp:91-100 | The same for an alias |
| Scripts.SubmitScriptDoes | src/pending_operation.hpp:213-250 | The same for the submission of a task |
| Scripts.StepAccounts | src/data_structures/join_counter.hpp:70-102 | One operation of a script keeps the books balanced and changes the ledger by what the thread is answerable for in the middle of the script |
| Scripts.SubmitScriptBegins | src/pending_operation.hpp:221-250 | A submission owes nothing when it begins, whatever its prerequisites, and holds its counter whenever it raises it |
| Scripts.SetupCountIsNeeded | src/pending_operation.hpp:75-79 | Without the setup count other threads could trigger the counter before it is raised for the first prerequisite, and that would fail its assertion |
| Scripts.LettingGoEarlyIsUnsound | src/pending_operation.hpp:240-241 | No submission that lets go of the setup count before it adds a prerequisite is sound |
| UseHistories.RegisteringAlone | src/register_use.cpp:53-450 | A registration that is not interrupted does, operation by operation, what `UseProtocol.Register` says |
| UseHistories.ReleasingAlone | src/release_use.cpp:57-81 | A release that is not interrupted does what `UseProtocol.Release` says, alias and all |
| UseHistories.AdvanceAccounts | src/register_use.cpp:72-450 | One counter operation of a registration or release changes the ledger by what the use takes on or gives back |
| UseHistories.NextOperationIsPermitted | src/data_structures/join_counter.hpp:75-91 | Whatever other threads do in between, the next counter operation of a registration, release or submission fails no assertion |
| UseHistories.EventConserves | src/release_use.cpp:57-81 | Every event of a concurrent history, down to single counter operations and steps of cascades, keeps the ledger exact |
| UseHistories.ConservationOfObligations | src/register_use.cpp:72-450 | After any concurrent history each count is the unreleased out, anti-out and anti-in holders and what threads hold in the middle of a script, plus the decrements attached and in flight; it is zero exactly when the counter has triggered or is about to |
| FlowOrder.StepHooks | src/data_structures/join_counter.hpp:93-102 | Everything a thread has hooked onto a counter so far is waited for, after each of its operations |
| FlowOrder.LinkScriptLinks | src/flow/aliasing_strategy.cpp:91-112 | A handled alias has the pending operation between source and target |
| FlowOrder.ReadyMeansReleased | src/release_use.cpp:65-75 | An out-flow or anti-out-flow is ready only when its use has let go of it |
| FlowOrder.CollectionFansOutAndIn | src/register_use.cpp:125-142 | After any concurrent history: no index is ready before its collection, and no fetch before its publication; the collection's flows are not ready before every index is released |
| FlowOrder.SharedFlowsWaitForAll | src/register_use.cpp:309-315 | After any concurrent history: uses that share a flow have that very flow, and a shared out-flow or anti-out-flow is not ready before each use that shares it has let go of it |
| FlowOrder.AliasChainForward | src/flow/aliasing_strategy.cpp:91-100 | The end of an alias chain of any length is ready only if its start is and all uses are released |
| FlowOrder.AliasChainBackward | src/flow/aliasing_strategy.cpp:102-113 | Dually for the anti-flows, from the end to the start |
| FlowOrder.AliasChainsInHistories | src/release_use.cpp:61-75 | Both, after any concurrent history |
| Deadlocks.SomebodyMayGo | src/data_structures/join_counter.hpp:83-102 | Behind every counter that is held up there is a task that has all it waits for and still holds something |
| Deadlocks.OrderedHistoriesGoOn | src/release_use.cpp:57-81 | Deadlock freedom for every history in which what is held and what is waited for go up in some order: something can go on, or all uses are released and every counter has triggered |
| ProgramOrder.ActStaysFaithful | src/ready_operation.cpp:61-77 | If no task starts before earlier conflicting ones are done, every step keeps memory faithful to the sequential execution |
| ProgramOrder.AllDoneIsSequential | src/ready_operation.cpp:61-77 | When all tasks are done memory is the sequential result |
| ProgramOrder.ConflictingTasksExclude | src/register_use.cpp:205-218 | Conflicting tasks never run side by side |
| TaskInvariants.EarlierWritersDone | src/register_use.cpp:309-324 | Once the version a use starts from is there, all earlier writers are done |
| TaskInvariants.EarlierReadersDone | src/register_use.cpp:387-402 | Once the anti-flow a writer waits for is ready, all earlier readers are done |
| TaskInvariants.OrderIsRespected | src/pending_operation.hpp:222-238 | No task has started before all earlier tasks it conflicts with were done |
| TaskLaunches.SetUpWaits | src/pending_operation.hpp:222-241 | When its submission comes to the launch, the counter of a task waits for every trigger |
| TaskLaunches.AssembleLaunch | src/pending_operation.hpp:247-250 | The launch goes to a counter that carries nothing, or at once into a queue if everything has triggered while the submission was going on |
| TaskLaunches.AssembleKeepsLaunches | src/pending_operation.hpp:221-250 | Every counter operation of a submission keeps the launches in order |
| TaskLaunches.FireFires | src/pending_operation.hpp:96-134 | A pending operation triggers only after everything it waits for |
| TaskLaunches.StartIsLaunched | src/pending_operation.hpp:96-134 | A worker takes a task only with all its triggers triggered, and nobody takes it again |
| TaskRuns.RegisterIsAccepted | src/register_use.cpp:72-450 | Programs of the stated shape raise only flows somebody holds |
| TaskRuns.ReleaseIsAccepted | src/release_use.cpp:57-81 | And release only what they hold |
| TaskRuns.HappeningKeepsInvariant | src/pending_operation.hpp:213-252 | Every happening, down to single counter operations, keeps order, launches and memory in shape |
| TaskRuns.ParallelRefinesSequential | src/pending_operation.hpp:213-252 | In every interleaving conflicting tasks exclude each other, each running task sees exactly its version, and the final memory is that of sequential execution |
| TaskRuns.NoAssertionFails | src/data_structures/join_counter.hpp:75-91 | In no run does an assertion of a registration, a submission, a release or a decrement fail, at any of their counter operations |
| TaskRuns.LaunchedExactlyOnce | src/pending_operation.hpp:213-252 | Every submitted task is launched exactly once, also if its triggers trigger while it is being submitted, and starts only when all it waits for has triggered |
| TaskProgress.HeldByEarlier | src/release_use.cpp:57-75 | What a task waits for is held only by uses of earlier tasks |
| TaskProgress.StuckMeansDone | src/pending_operation.hpp:213-252 | Deadlock freedom: if nothing can happen, all tasks are done |
| TaskProgress.NeverStuck | src/worker/worker_threads.cpp:78-105 | In every run something can happen until all tasks are done |
| TaskProgress.EverythingEnds | src/worker/worker_threads.cpp:78-105 | With all tasks submitted, everything that happens lowers a measure |
| TaskProgress.RunsAreBounded | src/worker/worker_threads.cpp:78-105 | So runs without new tasks are bounded |
| TaskProgress.QuiescenceIsSequential | src/worker/worker_threads.cpp:78-105 | Once all tasks are submitted, the workers can go on or have computed the sequential result |
| TaskCompletion.CreatorIsNearer | src/pending_operation.hpp:213-252 | Every capture, and every counter operation of a registration or submission, brings the creating thread nearer to its end |
| TaskCompletion.ProgramsComplete | src/worker/worker_threads.cpp:78-105 | From every state any run has led to some run leads to the end: all tasks done, all uses released, nothing in flight, and the sequential result in memory |
| EventProtocol.AssertionsHold | src/data_structures/join_counter.hpp:75-91 | Every thread can take its next step without failing an assertion |
| EventProtocol.StepKeepsInvariant | src/data_structures/event.hpp:196-222 | Each atomic step keeps the count exact, and a non-empty queue of a triggered event in somebody's care |
| EventProtocol.NoActionLostOrDuplicated | src/data_structures/event.hpp:71-79 | In every run each action is run, queued or in hand as often as it was attached; none runs early; at rest a triggered event has run them all |
| EventProtocol.EveryCallReturns | src/data_structures/event.hpp:196-222 | Every step lowers a measure |
| EventProtocol.StepRefines | src/data_structures/pointers.hpp:160-172 | The protocol refines an event whose attaching and triggering are atomic |
| EventProtocol.BeginRefines | src/data_structures/event.hpp:196-222 | Beginning a call has no effect on that event |
| EventProtocol.EarlyActionsRunInOrder | src/data_structures/event.hpp:71-79 | Actions inserted before the trigger run in order of insertion |
| EventRaces.LaterActionMayOvertake | src/data_structures/event.hpp:202-204 | For any count, threads and actions, a run in which a later action overtakes an earlier one |
| EventRaces.UnbackedRaiseFails | src/data_structures/join_counter.hpp:75-91 | From every state of an untriggered event: a raise whose caller holds nothing passes its assertion, and leads to a triggered event with count one and a decrement that fails |
| EventRaces.RaiseIsSafeIffBacked | src/data_structures/join_counter.hpp:75-91 | A raise makes nothing fail, then or later, if and only if its caller holds an obligation during the call |
| LinkedQueue.Queue.Emplace | src/data_structures/queue.hpp:157-171 | Appends, through a fresh node behind the last |
| LinkedQueue.Queue.ConsumeOne | src/data_structures/queue.hpp:178-198 | Takes the front; the popped node is left linked to itself |
| LinkedQueue.Queue.ConsumeAll | src/data_structures/queue.hpp:200-208 | Hands over the whole queue in order and returns its length |
| LinkedQueue.Queue.Pop | src/data_structures/queue.hpp:210-216 | Takes the front, if any |
| LinkedQueue.Queue.PeakAndPopIf | src/data_structures/queue.hpp:218-241 | Takes the front if the caller wants it, and otherwise leaves every node as it was |
| Scheduler.MoveKeepsPlace | src/worker/worker_threads.cpp:78-105 | A task or callable operation is in exactly one place from creation to end |
| Scheduler.RunningKeepsOpen | src/runtime/runtime.cpp:168-175 | While a task runs the shutdown counter is positive, so registering fails no assertion |
| Scheduler.MoveKeepsCounters | src/runtime/runtime.cpp:168-229 | Every step keeps the shutdown counter and the count of dormant workers exact |
| Scheduler.MoveKeepsMessages | src/runtime/runtime.cpp:127-135 | Every worker gets, keeps or obeys exactly one message after the trigger |
| Scheduler.MoveKeepsJoin | src/runtime_instance.hpp:80-96 | The join stays ahead of worker 0's own message |
| Scheduler.QuiescenceIsExact | src/ready_operation.cpp:66-84 | The shutdown counter is unfinished tasks plus collections being registered; at zero there is no task anywhere, and never again |
| Scheduler.SchedulingConserves | src/worker/work_stealing_random.cpp:62-86 | Each operation runs once; a refused steal changes no queue; messages reach only their owner; dormant workers are counted exactly; nesting is bounded |
| Scheduler.ShutdownCannotHang | src/worker/worker_threads.cpp:78-112 | Until every worker has left some worker can go on, and in a region the others without worker 0 |
| Scheduler.MoveCosts | src/worker/worker_threads.cpp:78-112 | After the trigger every productive step lowers what remains, giving up and refused steals leave it as it is, and only new callable operations add to it |
| Scheduler.ShutdownEnds | src/worker/worker_threads.cpp:78-112 | In every run after the trigger the number of productive steps is bounded by what remains and what callable operations add |
| Scheduler.EverybodyLeaves | src/worker/worker_threads.cpp:78-112 | From every state after the trigger a run of bounded length ends with all workers gone |
| Scheduler.OthersLeave | src/runtime_instance.hpp:80-96 | In a region the others leave without worker 0, while it waits for them |
| Scheduler.WorkerZeroLeavesLast | src/runtime_instance.hpp:80-96 | In a region worker 0 leaves after all others |
| SchedulerProgress.IdleWorkerMaySteal | src/worker/work_stealing_random.cpp:62-86 | A worker that has nothing to do can be executing the stealable head of any other queue by at most two steps of its own |
| SchedulerProgress.IdleWorkerFindsWork | src/worker/worker_threads.cpp:78-105 | Before the trigger, as long as anything is queued anywhere, any worker that has nothing to do can be executing some of it by at most two steps of its own |
| SchedulerProgress.QueuedWorkGoesOn | src/worker/worker_threads.cpp:78-105 | Before the trigger, when something is queued and no task runs, some worker has a productive step, and every worker in its loop is idle or has one |
| SchedulerProgress.WorkGetsDone | src/worker/worker_threads.cpp:78-105 | From every reachable state before the trigger a bounded run of the workers ends with the trigger, or with all unfinished tasks waiting for prerequisites |
| SchedulerProgress.EverythingReadyMeansTheEnd | src/worker/worker_threads.cpp:78-112 | From every reachable state in which no task waits for prerequisites some run ends with everything done and all workers gone |
| SchedulerProgress.QueuesAreFifo | src/data_structures/queue.hpp:157-241 | What is taken out of a queue, by its owner or by thieves, and executed is what was put into it, in that order |
| SchedulerProgress.EverythingIsCounted | src/runtime/runtime.cpp:168-229 | In every run unfinished tasks are those registered less those finished, and likewise pending tasks, callable operations and open collections |
| SchedulerProgress.RunningTaskMayRegister | src/runtime/runtime.cpp:168-175 | A running task may always register another, which waits until its thread puts it at the end of its own queue, or runs it in place exactly if its stack is not too deep |
| SchedulerProgress.RunningTaskMayOpen | src/runtime/runtime.cpp:179-229 | It may always register a collection, which holds one count of its own until it is closed |
| SchedulerProgress.ExecutionMayDefer | src/pending_operation.hpp:81-134 | Whatever a thread executes may defer a callable operation to its own queue, or run one in place exactly if its stack is not too deep |
| Allreduce.OrderDoesNotMatter | src/collectives.cpp:120-144 | The fold of an associative, commutative operator over any permutation is the same |
| Allreduce.AllBuffersHoldTheFold | src/collectives.cpp:68-244 | In every order of arrival and readiness the completion runs once, after two decrements per contributor, and all buffers hold the fold |
| Allreduce.WritesWaitForOwner | src/collectives.cpp:84-151 | No buffer is written before its owner's flow and anti-flow are ready |
| Allreduce.ArrivalsAreRecorded | src/collectives.cpp:76 | In every run the arrivals are recorded, each of them and nothing else, in the order in which they come |
| Allreduce.ReductionGoesOn | src/collectives.cpp:68-244 | Until the completion a flow can become ready, the next contributor can arrive, or an attached action can run |
| Allreduce.MoveSpends | src/collectives.cpp:68-244 | Whatever happens lowers a measure, so every run is bounded |
| Allreduce.EveryReductionCompletes | src/collectives.cpp:68-244 | From every state on the way, and for every order in which the missing contributors may arrive, a bounded run in which they arrive in that order ends with the completion |
| Allreduce.EveryAllreduceCompletes | src/collectives.cpp:68-244 | From every reachable state a bounded run ends with the completion and the fold in all buffers |
| Allreduce.AnyOrderOfArrival | src/collectives.cpp:68-244 | For every permutation of the contributors a run in which they arrive in that order ends so |
| Allreduce.CopyToAll | src/collectives.cpp:164-180 | The completion copies the first buffer to all others and to nothing else |
| Allreduce.ReduceCollection | src/collectives.cpp:496-513 | The loop leaves the same fold in the output as an allreduce of the same data leaves in every buffer |
| Publish.MovesAreSafe | src/publish.cpp:69-127 | No step of publisher or fetcher fails an assertion or finds no copy |
| Publish.MoveKeepsInvariant | src/publish.cpp:69-127 | The release event counts the fetches that have not let go |
| Publish.FetchesReadWhatWasPublished | src/register_use.cpp:143-175 | In every order, a fetch is ready only after the copy and reads the published value whatever is written later; the release event fires exactly when all fetches have let go |
| Publish.ReadyOnce | src/register_use.cpp:164-169 | What a fetch points to never changes again |
| Publish.PublishedIsWhatWasThere | src/publish.cpp:91-112 | The block holds what was written last, and what is published is what it held when the publisher's flow became ready |
| Publish.MoveSpendsOne | src/publish.cpp:69-127 | Every step of publisher and fetches is one of those that are left; each step of the publisher brings it one further |
| Publish.NoFetchIsForgotten | src/register_use.cpp:154-171 | A registered fetch of a published value is ready once nothing is left to run |
| Publish.PublicationCompletes | src/publish.cpp:69-127 | From every reachable state with the flow ready a bounded run of the publisher and the fetches there are ends with the publishing use released, all registered fetches reading the published value, and the release event fired if all have hooked their anti-flows; then the block may be written again, unseen by them |
| Publish.EverythingCompletes | src/publish.cpp:69-127 | From every reachable state a bounded run ends with every fetch having read the published value and let go |

## Left out

- UseProtocol.AntiOutTakesOne: `IndexedFetching` of an anti-out-flow hooks its decrement onto a release event whose count is raised for it only later, by the publication, so no ledger of this protocol covers it; `Publish` models it with the publication it belongs to.
- Uses.RegisterAntiOutFlow: leaves out the same case.
- UseProtocol.RegisterConserves: leaves out requests with that case, for the same reason.
- Uses.RegisterUse: leaves out requests with that case; keys are given by the caller.
- Uses.ReleaseUse: equality with the protocol's state is stated for `max_task_depth` 0, the value the source sets; with in-place running the deferred decrement may run earlier, and the ledger is still stated exactly.
- Aliasing.DeferralIsInvisible: the flows exist before; flows made in between would have other numbers the two ways.
- Allreduce.AllBuffersHoldTheFold: takes each reduction as one atomic step; the comment that they are serialized does not hold when the first in-flow has already triggered.
- PendingOperations.RunOperation: what a task does is not modelled there, only that it ran; `ProgramOrder` models task bodies as atomic steps.
- Scheduler.EverybodyLeaves: says that from every state some run ends, and `Scheduler.ShutdownEnds` bounds the productive steps of all runs; that the operating system gives every thread its turn is not modelled.
- The concurrent protocols (`EventProtocol`, `Scheduler`, `Allreduce`, `Publish`, `UseHistories`, `TaskGraph`) are transition systems on values, because several threads work on the state at once; update in place and aliasing are captured only in `JoinCounters`, `PendingOperations`, `Uses`, `LinkedQueue` and the two loops of `Allreduce`.
- Workers built on Kokkos, OpenMP or fcontext; the two-use allreduce, which the source does not finish; commutative locking, mergeable triggers and other disabled code.
- 64-bit wrap-around of counts: counts are unbounded.
- Weak memory orders, lock implementations, node reclamation and the leak of popped queue nodes.
- The completion event of an action: it is triggered by the run of its action, which happens once.
- `work_loop` as an unbounded loop: its iterations are the steps of `Scheduler`; the random victim of a steal is any worker.
- The concurrent map: its operations hold one lock and are single steps of `Allreduce` and `Publish`; tags are used once per generation, and an allreduce of one contributor is asserted away by the source.
- Serialization is the identity on values; allocation, key generation, debugging, option parsing and migration.
