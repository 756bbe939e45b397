# The agent runtime's deterministic heart, modelled and proved in Dafny

This project models the parts of the agent runtime that decide things, and proves what they promise over every
input, every run and every crash point. Threads, files and the network appear only as what they can do to the state.

| file | models |
|---|---|
| `Common.dfy`, `Graph.dfy`, `Kahn.dfy` | options and results; dependency relations, walks and cycles; the in-degree drain |
| `TaskGraph.dfy`, `Retry.dfy`, `TaskRuns.dfy` | the task graph, the retry ledger, and whole runs of tasks |
| `Swarm.dfy` | validation of a swarm DAG and its execution in waves |
| `Queues.dfy`, `Process.dfy`, `Scheduler.dfy`, `Cascade.dfy`, `Cycle.dfy`, `AgentScheduler.dfy`, `SchedulerRuns.dfy` | run queues, processes and monitor tables, scheduler operations, cascading death, one cycle, the scheduler object, its histories |
| `Delivery.dfy`, `Effects.dfy`, `Fairness.dfy` | what reaches a mailbox: exits, DOWN notices and timeouts; how what behaviours ask for happens; how soon a process is dispatched |
| `Dets.dfy`, `DurableMailbox.dfy` | the two crash-consistent stores |
| `RateLimiter.dfy`, `Supervision.dfy` | sliding windows and restart strategies |
| `Orchestrator.dfy`, `OrchestratorRuns.dfy`, `Stalls.dfy` | the orchestrator's state machine, its runs over one decomposition, and exactly which decompositions can stall |
| `Bridge.dfy`, `Release.dfy`, `BitReader.dfy` | the cancellation table, the release transaction, bit-offset reads |

How it is built: each operation is a function on a value that holds the whole state; a class with the source's fields
refines it, method by method (`View()` is the value); the properties are lemmas about the functions and about runs of
them. Hash-map iteration is an arbitrary order. The clock is a natural number that never goes back. Behaviours, bridge
answers, join results and step handlers are unknown: method parameters or arbitrary choices. Ids are naturals, because
the runtime only compares them. Files are sequences of lines; a `trail` records every file content, so that a crash can
leave any of them.

Where the code does not meet a property without a guard, the exact guard is proved, and a lemma about concrete input
shows the failure:

- a failed `add_tasks` need not leave the graph alone (`TaskGraphs.FailedAddIsNoOp`; shown by
  `TaskGraphs.FailedAddCanLoseATask`);
- a batch with a dangling dependency is accepted and can deadlock (`TaskRuns.DeadlockFreeIffNoDangling`; shown by
  `TaskRuns.DanglingBatchDeadlocks`);
- an orchestrator can end up with open tasks and nobody working on them: when a task takes the approval gate, when a
  task waits for a sub-orchestration that fails at the depth limit, or when a sub-orchestration is below that limit,
  where it is spawned over and over (`Stalls.NeverStallsIff`; shown by `Stalls.LostTaskStalls` and
  `Stalls.ChildIsSpawnedAgain`);
- so can one whose worker ends normally without reporting (`OrchestratorRuns.QuietExitStallsIff`; shown by
  `Stalls.QuietExitStalls`);
- a spawn result for a pid that is still active can leave a task in flight without worker
  (`Orchestrators.StepKeepsBackedIff`; shown by `Stalls.ReusedPidLosesATask`); a scheduler never reports a live pid again;
- a process that is spawned but never enqueued is runnable for ever (`SchedulerRuns.RunnableIsQueuedIffEnqueued`; shown
  by `SchedulerRuns.NeverEnqueuedIsLost`);
- a logged null brings the value before it back, until a compaction (`Dets.PutSurvivesIff`, `Dets.DetsTable.Put`; shown
  by `Dets.NullIsForgotten`);
- a mailbox reopened on an empty WAL after an acknowledgement loses the next message, and so does one whose creation
  was cut short before the header line (`DurableMailboxes.SafeFilesAreNeeded`; shown by
  `DurableMailboxes.EmptyWalLosesNext` and `DurableMailboxes.HeaderlessWalLosesFirst`); the repository's own description
  (README.md:128) promises durability without either exception;
- `RestForOne` keeps a child on its list that it has killed, if a sibling it terminates drags that child along through
  links (`Supervision.RestartFromReplaces`; shown by `Supervision.KeptChildCanDie`);
- a completed destroy can take away the entry of a running request (`Bridge.CountStaysExactIff`; shown by
  `Bridge.DestroyCanDropALiveEntry`);
- rolling back an apply restores the manager only if the history had room (`Releases.ApplyRollbackRestoresIff`; shown by
  `Releases.HistoryForgets`).

## Model

| member | source | states |
|---|---|---|
| Graph.StuckHasCycle | lib-erlangrt/src/agent_rt/task_graph.rs:223-307 | A non-empty set in which every task depends on a task of the set contains a directed cycle. |
| Kahn.Dependents | lib-erlangrt/src/agent_rt/task_graph.rs:282-288 | The reverse adjacency lists every dependent once per occurrence, duplicates and dangling ids included, for any iteration order. |
| Kahn.WithoutDependencies | lib-erlangrt/src/agent_rt/task_graph.rs:272-278 | The initial queue holds exactly the nodes of in-degree zero, each once. |
| Kahn.Drain | lib-erlangrt/src/agent_rt/task_graph.rs:260-307 | The loop terminates and never underflows an in-degree; as many ids are dequeued as counted, so none twice, each after its dependencies; what is left can never go first, and something is left if and only if the relation has a directed cycle. |
| Kahn.Release | zeptobeam/src/swarm.rs:242-249 | Paying off one node lowers each dependent once per occurrence and queues it exactly when its last dependency is gone. |
| TaskGraphs.TaskGraph.DetectCycle | lib-erlangrt/src/agent_rt/task_graph.rs:223-307 | True if and only if `depends_on`, restricted to ids in the graph, contains a directed cycle. |
| TaskGraphs.TaskGraph.AddTasks | lib-erlangrt/src/agent_rt/task_graph.rs:37-88 | Result, tasks and insertion order on all three paths: accepted, missing id, cycle. |
| TaskGraphs.FailedAddIsNoOp | lib-erlangrt/src/agent_rt/task_graph.rs:41-85 | A failed batch leaves the graph as it was exactly when its first entry lacks an id or, for a cycle, no entry reuses an id of the graph. |
| TaskGraphs.FailedAddCanLoseATask | lib-erlangrt/src/agent_rt/task_graph.rs:71-85 | A cyclic batch that reuses an id removes the task that was running under it. |
| TaskGraphs.ReadyTasksFall | lib-erlangrt/src/agent_rt/task_graph.rs:91-105 | The ready list shrinks by exactly the occurrences of a task that stops being ready. |
| TaskGraphs.ReadyTasksAreReady | lib-erlangrt/src/agent_rt/task_graph.rs:91-105 | The ready list holds exactly the listed tasks whose status is Ready. |
| TaskGraphs.TaskGraph.MarkRunning | lib-erlangrt/src/agent_rt/task_graph.rs:107-113 | The named task runs and keeps everything else it has; every other task stays as it was, ready ones included. |
| TaskGraphs.TaskGraph.MarkCompleted | lib-erlangrt/src/agent_rt/task_graph.rs:115-151 | The named task is completed and keeps everything else it has; a pending task becomes ready if and only if all its dependencies are completed tasks afterwards; every other task, a running one above all, stays as it was, for any iteration order. |
| TaskGraphs.TaskGraph.MarkFailed | lib-erlangrt/src/agent_rt/task_graph.rs:153-158 | The named task fails and keeps everything else it has; no other task changes, so nothing cascades here. |
| TaskGraphs.TaskGraph.FailDependents | lib-erlangrt/src/agent_rt/task_graph.rs:160-193 | The search terminates and skips exactly the tasks that transitively depend on the given id, cyclic or not. |
| TaskGraphs.TaskGraph.IsComplete | lib-erlangrt/src/agent_rt/task_graph.rs:196-203 | The scan, in any order, answers true if and only if every task is completed, failed or skipped. |
| TaskGraphs.TaskGraph.SetTaskStatus | lib-erlangrt/src/agent_rt/task_graph.rs:217-221 | Only the named task changes, and only its status; its task and dependencies and all other tasks stay, and an unknown id changes nothing. |
| Retry.RetryTracker.SetTaskStrategy | lib-erlangrt/src/agent_rt/retry_policy.rs:38-41 | Overrides one task's strategy and no other's; attempts already counted stay. |
| Retry.RetryTracker.ShouldRetry | lib-erlangrt/src/agent_rt/retry_policy.rs:43-77 | Verdict, delay and ledger for all four strategies; only the counting ones count. |
| Retry.BackoffIsExactExponential | lib-erlangrt/src/agent_rt/retry_policy.rs:62-75 | The two saturating 64-bit steps are never visible: the delay is the exact exponential capped at the maximum. |
| Retry.GrantsAreExact | lib-erlangrt/src/agent_rt/retry_policy.rs:43-77 | Over any interleaving of requests a task is granted exactly its first `max_attempts` requests. |
| Retry.DelaysDouble | lib-erlangrt/src/agent_rt/retry_policy.rs:43-77 | Over any interleaving of requests each retry granted to a task with backoff waits twice as long as the one before, from the base on and up to the maximum; immediate retries never wait. |
| TaskRuns.StepInv | lib-erlangrt/src/agent_rt/task_graph.rs:107-193 | Starting, finishing, rejecting and dying each keep: no cycle, released tasks have completed dependencies, failures have spread, every skip has a cause. |
| TaskRuns.CascadeIsHarmless | lib-erlangrt/src/agent_rt/task_graph.rs:160-193 | A failure cascade only ever reaches pending or already skipped tasks. |
| TaskRuns.DependencySafety | lib-erlangrt/src/agent_rt/task_graph.rs:107-193 | In every state of every run a released task has all transitive dependencies completed, and a task is skipped if and only if it transitively depends on a failed one. |
| TaskRuns.NoDeadlock | lib-erlangrt/src/agent_rt/task_graph.rs:115-203 | Without dangling dependencies, if nothing is ready or running then everything is terminal. |
| TaskRuns.DeadlockFreeIffNoDangling | lib-erlangrt/src/agent_rt/task_graph.rs:37-203 | An accepted batch can never deadlock, in any run, exactly when every dependency names a task of the batch. |
| TaskRuns.DanglingBatchDeadlocks | lib-erlangrt/src/agent_rt/task_graph.rs:59-63 | One task that waits for an absent id is accepted and already deadlocked. |
| TaskRuns.RunsAreFinite | lib-erlangrt/src/agent_rt/retry_policy.rs:43-77 | Every move lowers an explicit measure of statuses and remaining retries, so no run is longer than it. |
| TaskRuns.TerminationBound | lib-erlangrt/src/agent_rt/task_graph.rs:107-203 | A run of an accepted batch has at most three moves per entry and two more per allowed retry. |
| Swarm.ValidateDag | zeptobeam/src/swarm.rs:205-258 | Accepts exactly the lists with distinct ids, known dependencies and no cycle, and names a really unknown dependency. |
| Swarm.RunDag | zeptobeam/src/swarm.rs:127-201 | Every step that is not doomed starts exactly once, in a later wave than all its dependencies; the results are those of the steps that could be joined, once each and in start order; exactly the steps that depend on a cycle or a missing id are left at the break. |
| Swarm.BlockedAreDoomed | zeptobeam/src/swarm.rs:143-159 | When no pending step is ready, each of them transitively depends on a cycle or on a missing id. |
| Swarm.LastStepWins | zeptobeam/src/swarm.rs:132-133 | Of the steps that share an id the run executes the last. |
| Swarm.AcceptedIffNothingDoomed | zeptobeam/src/swarm.rs:127-258 | Validation and execution agree: a list with distinct ids is accepted exactly when its run leaves nothing behind. |
| Queues.NextTakesOne | lib-erlangrt/src/agent_rt/scheduler.rs:266-283 | A call takes exactly one entry unless all queues are empty, and loses none. |
| Queues.NextServes | lib-erlangrt/src/agent_rt/scheduler.rs:266-283 | Which lane a call serves, always its first entry: high-priority work whenever there is any; then low when no normal work waits or that was preferred seven times; else normal. Only the last two touch the advantage counter. |
| Queues.LanesAreFifo | lib-erlangrt/src/agent_rt/scheduler.rs:247-283 | Over any history of calls and arrivals each lane is first in, first out: what was taken from it, followed by what is left, is what was there, followed by what arrived. |
| Queues.HighComesFirst | lib-erlangrt/src/agent_rt/scheduler.rs:266-269 | Over any history the k-th entry of the high queue is the k-th that is returned: nothing normal or low comes while high-priority work waits. |
| Queues.BoundedBypass | lib-erlangrt/src/agent_rt/scheduler.rs:266-283 | With the high queue empty, the low entry at position k is returned within 8(k + 1) calls, whatever arrives in between. |
| Queues.LowThenSevenNormal | lib-erlangrt/src/agent_rt/scheduler.rs:269-276 | A low pick made while normal work waits is followed by seven picks that are not low. |
| Queues.EightIsTight | lib-erlangrt/src/agent_rt/scheduler.rs:269-276 | Seven calls can bypass low; the eighth cannot. |
| Fairness.PickHighFirst | lib-erlangrt/src/agent_rt/scheduler.rs:398-414 | Picking takes the first runnable entry of the high queue, drops the stale ones before it, and leaves the other queues alone. |
| Fairness.PickGoesOn | lib-erlangrt/src/agent_rt/scheduler.rs:398-414 | The other queues have their turn exactly when the high queue holds no runnable process. |
| Fairness.HighIsDispatched | lib-erlangrt/src/agent_rt/scheduler.rs:339-414 | A process at position k of the high queue that stays runnable is dispatched within k + 1 cycles, whatever the other queues hold and whatever arrives. |
| Fairness.LowIsDispatched | lib-erlangrt/src/agent_rt/scheduler.rs:339-414 | While there is no high-priority work, a process at position k of the low queue that stays runnable is dispatched within 8(k + 1) cycles, whatever stale entries the queues hold and whatever the other processes do. |
| Processes.SwapRemoveRemoves | lib-erlangrt/src/agent_rt/scheduler.rs:203-225 | Swap-removal takes out exactly one occurrence and keeps all others. |
| Processes.UnwireKeepsTables | lib-erlangrt/src/agent_rt/scheduler.rs:662-725 | Removing a process removes exactly the monitor pairs it takes part in, from both tables. |
| Scheduling.EnqueueKeeps | lib-erlangrt/src/agent_rt/scheduler.rs:250-264 | Enqueueing heals the process it names and harms nobody. |
| Scheduling.SendKeeps | lib-erlangrt/src/agent_rt/scheduler.rs:288-335 | A send, delivered, routed or dropped, leaves no woken process outside the queues and touches no monitor. |
| Scheduling.SpawnKeepsInv | lib-erlangrt/src/agent_rt/registry.rs:20-29 | A new process takes a pid that was never used and keeps the invariant. |
| Scheduling.MonitorKeepsInv | lib-erlangrt/src/agent_rt/scheduler.rs:182-201 | A fresh reference joins exactly this watcher and this target in both tables. |
| Scheduling.DemonitorKeepsInv | lib-erlangrt/src/agent_rt/scheduler.rs:203-225 | A successful `demonitor` takes the pair out of both tables and the reference out of use for good. |
| Scheduling.DemonitorFinds | lib-erlangrt/src/agent_rt/scheduler.rs:203-225 | It succeeds exactly when this watcher holds the reference. |
| Scheduling.NotifyShape | lib-erlangrt/src/agent_rt/scheduler.rs:674-708 | Whom a death concerns through links: the cascade holds exactly the linked live processes that do not trap exits, and none on a normal exit; who is woken is listed; links, monitors and trap flags of all stay. What the others are told is `Deliveries.ExitReachesTrapper`. |
| Cascades.KillKeepsInv | lib-erlangrt/src/agent_rt/scheduler.rs:638-735 | One death keeps the invariant, announces exactly its watchers' references, and removes exactly its monitor pairs. |
| Cascades.TerminateKeeps | lib-erlangrt/src/agent_rt/scheduler.rs:638-740 | The whole recursive cascade terminates and keeps the invariant. |
| Cascades.TerminateDrags | lib-erlangrt/src/agent_rt/scheduler.rs:638-740 | A non-normal exit removes exactly the process and what it drags along. |
| Cascades.DeathIsReachability | lib-erlangrt/src/agent_rt/scheduler.rs:638-740 | A process is gone afterwards if and only if it is the one that exited or the exit is not normal and it is reachable along links through live processes that do not trap exits. |
| Cascades.DownExactlyOnce | lib-erlangrt/src/agent_rt/scheduler.rs:710-735 | For a target that dies in the cascade exactly one DOWN per monitor of a surviving watcher is handed to `send`, and none for a target that survives, whose monitor stays. |
| Deliveries.DownReachesWatcher | lib-erlangrt/src/agent_rt/scheduler.rs:710-735 | The notice arrives: a surviving watcher of a target that dies in the cascade ends with DOWN, under its reference and with the reason, in its mailbox unless that is full, and if it was waiting with room it is runnable and queued. |
| Effects.DownArrivesOnce | lib-erlangrt/src/agent_rt/scheduler.rs:710-735 | It arrives exactly once, unless the mailbox is full in the end; then at most once. |
| Deliveries.ExitReachesTrapper | lib-erlangrt/src/agent_rt/scheduler.rs:674-708 | For any reason: a process that traps exits survives and gets the exit, with its reason, of every process that links to it and dies in the cascade, unless its mailbox is full in the end; if it was waiting with room it is runnable and queued. |
| Deliveries.TerminateSpares | lib-erlangrt/src/agent_rt/scheduler.rs:638-740 | No process that traps exits dies in the cascade of another. |
| Deliveries.SurvivorsGetOnlyNotices | lib-erlangrt/src/agent_rt/scheduler.rs:638-740 | A survivor finds nothing else: every new message is the exit of a dead process that linked to it, which it traps, or the DOWN of a dead target it watched, with the reason of the cascade. |
| Cycles.AnswerKeepsInv | lib-erlangrt/src/agent_rt/scheduler.rs:446-568 | Whatever a callback answers, only the dispatched process may need care afterwards, and not even that one once it waits for the bridge. |
| Cycles.DispatchIsBounded | lib-erlangrt/src/agent_rt/scheduler.rs:416-444 | A dispatch handles at most 200 messages; all but the last left reductions over; it is exhausted only when what it handled cost the budget. |
| Cycles.DispatchTakesInOrder | lib-erlangrt/src/agent_rt/scheduler.rs:446-463 | It takes messages off the front in order, puts at most one note behind the rest, and touches no other process. |
| Cycles.DispatchDefersAll | lib-erlangrt/src/agent_rt/scheduler.rs:508-568 | It defers every send and spawn that was asked for, in order, and stops for the reason of the last answer. |
| Effects.DispatchDefersWhatIsAsked | lib-erlangrt/src/agent_rt/scheduler.rs:508-568 | By the answers themselves: each `Send` and each `Spawn` among the handled messages is deferred once, in its place among the others of its kind, with its own addressee and message or its own flags; nothing else is. |
| Effects.DispatchEndsAsAsked | lib-erlangrt/src/agent_rt/scheduler.rs:446-568 | It stops for the reason of a `Stop`, for its own after a panic, and for the bridge after an I/O request; these are the only answers that end it, and only as the last. |
| Effects.CycleBudget | lib-erlangrt/src/agent_rt/scheduler.rs:416-444 | One cycle lets a process handle at most 200 messages, send at most 67 and spawn at most 19; it is queued again for lack of reductions only after using up all 200. |
| Effects.SpentAdds | lib-erlangrt/src/agent_rt/scheduler.rs:463-568 | A message costs 1 reduction, a send 2 more, an I/O request 1 more, a spawn 10 more. |
| Effects.TurnLeaves | lib-erlangrt/src/agent_rt/scheduler.rs:433-580 | After the dispatch: asleep on an empty mailbox, queued once with the rest when out of reductions, asleep on the bridge, or queued once with a note behind the rest, if there is room, when the bridge refused; otherwise the queues, and in any case all other processes, are as they were. |
| Effects.SendAllExact | lib-erlangrt/src/agent_rt/scheduler.rs:288-335 | A list of sends gives every live process exactly the messages addressed to it, once each and in order, up to its capacity. |
| Effects.SendAllRoutes | lib-erlangrt/src/agent_rt/scheduler.rs:288-335 | What is addressed to nobody goes out, once and in order, if routing is on, and nowhere otherwise. |
| Effects.SendQueues | lib-erlangrt/src/agent_rt/scheduler.rs:288-335 | A send queues its addressee, once and in its own lane, exactly if that is alive, was waiting, and had room. |
| Effects.NewProcessTakes1024 | lib-erlangrt/src/agent_rt/process.rs:86-91 | A new process keeps the first 1024 messages it is sent and no others. |
| Effects.MessageIsSent | lib-erlangrt/src/agent_rt/scheduler.rs:508-584 | Over a whole turn: a message that a behaviour answers with reaches its addressee, if that is alive in the end, unless its mailbox is full then, and wakes it if it waited with room; addressed to nobody it is routed outwards if that is on. |
| Effects.ChildIsSpawned | lib-erlangrt/src/agent_rt/scheduler.rs:562-622 | Over a whole turn: the i-th child asked for gets the i-th fresh pid. If its behaviour initialises, it is a new process linked both ways and monitored exactly as asked, its parent is told pid and reference, and it is queued; otherwise the pid stays unused. |
| Effects.TurnGoesOn | lib-erlangrt/src/agent_rt/scheduler.rs:570-629 | The process is gone in the end exactly if it stopped, and until a stop nobody else disappears; mailboxes only grow after the dispatch. |
| Cycles.SpawnAllKeepsInv | lib-erlangrt/src/agent_rt/scheduler.rs:586-622 | Deferred spawns keep the invariant, also while the parent is about to stop. |
| Cycles.RunOneKeepsInv | lib-erlangrt/src/agent_rt/scheduler.rs:416-629 | Whatever behaviours answer, the dispatched process ends up waiting, queued, or gone. |
| Cycles.FireKeepsInv | lib-erlangrt/src/agent_rt/scheduler.rs:390-396 | Firing timeouts, for any list of processes, keeps the invariant and revokes no notice. |
| Cycles.FireWakesIff | lib-erlangrt/src/agent_rt/scheduler.rs:390-396 | Of any state at all: a process that timed out loses its deadline and is woken into a queue with the timeout in its mailbox, exactly unless that is full; no reachable state is of the second kind, see `Deliveries.TimeoutAlwaysWakes`. |
| Effects.CycleDelivers | lib-erlangrt/src/agent_rt/scheduler.rs:339-396 | Whoever a cycle does not pick, and is alive in the end, has in its mailbox what the bridge answered it and the timeout if one was due, unless that is full. |
| Cycles.PickKeepsInv | lib-erlangrt/src/agent_rt/scheduler.rs:398-414 | Skipping stale entries loses nothing; if nothing is picked, no process that was ever enqueued is runnable. |
| Cycles.CycleKeepsInv | lib-erlangrt/src/agent_rt/scheduler.rs:339-630 | A whole cycle keeps every process with its state and every runnable one that was ever enqueued in a queue; a cycle without work proves there is none. |
| AgentSchedulers.AgentScheduler.EnqueuePid | lib-erlangrt/src/agent_rt/scheduler.rs:250-264 | The entry goes to the end of the lane of the process's priority and to no other; an unknown pid changes nothing. |
| AgentSchedulers.AgentScheduler.NextRunnable | lib-erlangrt/src/agent_rt/scheduler.rs:266-283 | Refines the function of which `Queues.NextServes`, `Queues.LanesAreFifo` and `Queues.HighComesFirst` say what it returns. |
| AgentSchedulers.AgentScheduler.SendMessage | lib-erlangrt/src/agent_rt/scheduler.rs:288-335 | Delivery, wake-up, routing outwards and the error result, in every case. |
| AgentSchedulers.AgentScheduler.MonitorProcess | lib-erlangrt/src/agent_rt/scheduler.rs:182-201 | Refuses an unknown watcher before an unknown target, changing nothing; otherwise installs the pair. |
| AgentSchedulers.AgentScheduler.DemonitorProcess | lib-erlangrt/src/agent_rt/scheduler.rs:203-225 | Refines the specified removal, including the answer. |
| AgentSchedulers.AgentScheduler.TerminateProcess | lib-erlangrt/src/agent_rt/scheduler.rs:638-740 | The recursive method terminates and leaves exactly the specified state, of which `Cascades.DeathIsReachability`, `Deliveries.ExitReachesTrapper` and `Effects.DownArrivesOnce` say who is gone and who is told. |
| AgentSchedulers.AgentScheduler.NotifyLinked | lib-erlangrt/src/agent_rt/scheduler.rs:674-708 | The loop over links leaves the specified table, wake-ups and cascade list. |
| AgentSchedulers.AgentScheduler.NotifyWatchers | lib-erlangrt/src/agent_rt/scheduler.rs:710-725 | Each watcher forgets the reference and is sent one DOWN, in table order. |
| AgentSchedulers.AgentScheduler.PickRunnable | lib-erlangrt/src/agent_rt/scheduler.rs:398-414 | Skipping stale entries ends, and leaves the queues and the choice as specified. |
| AgentSchedulers.AgentScheduler.HandleMessage | lib-erlangrt/src/agent_rt/scheduler.rs:446-568 | For every answer of a behaviour, panics included: the state afterwards, what is deferred, how the loop goes on, and at least one reduction spent. |
| AgentSchedulers.AgentScheduler.Dispatch | lib-erlangrt/src/agent_rt/scheduler.rs:433-568 | The loop terminates and refines the specified dispatch: state, deferred sends and spawns in order, and why it ended. |
| AgentSchedulers.AgentScheduler.RequestIo | lib-erlangrt/src/agent_rt/scheduler.rs:526-560 | An I/O request suspends the process, or queues it again with an error note, if there is room, when there is no bridge or it refuses. |
| AgentSchedulers.AgentScheduler.SpawnEach | lib-erlangrt/src/agent_rt/scheduler.rs:586-622 | Exactly the deferred spawns whose behaviour initialises happen, in order. |
| AgentSchedulers.AgentScheduler.SpawnOne | lib-erlangrt/src/agent_rt/scheduler.rs:588-621 | A child is linked both ways and monitored as asked, its parent is told, and it is queued. |
| AgentSchedulers.AgentScheduler.RunProcess | lib-erlangrt/src/agent_rt/scheduler.rs:416-629 | Budget, dispatch, waiting or requeueing, then sends, then spawns, then the stop, in this order. |
| AgentSchedulers.AgentScheduler.Due | lib-erlangrt/src/agent_rt/scheduler.rs:373-389 | Lists exactly the waiting processes whose deadline has passed, for any iteration order. |
| AgentSchedulers.AgentScheduler.FireTimeouts | lib-erlangrt/src/agent_rt/scheduler.rs:390-396 | Each of them loses its deadline and is sent the timeout. |
| AgentSchedulers.AgentScheduler.Tick | lib-erlangrt/src/agent_rt/scheduler.rs:339-630 | A cycle refines the specified one and keeps the invariant, for any responses, clock, behaviours and bridge; if it did no work, no process that was ever enqueued is runnable. |
| SchedulerRuns.SpawnAtKeepsInv | lib-erlangrt/src/agent_rt/supervision.rs:329-347 | Starting a supervised child at any priority keeps the invariant; a behaviour that fails to initialise only uses up a pid. |
| SchedulerRuns.RunKeepsInv | lib-erlangrt/src/agent_rt/scheduler.rs:121-740 | Any sequence of operations and cycles, priority changes, external routing and supervised starts included, keeps the invariant, reuses no reference and revokes no notice. |
| SchedulerRuns.RunnableIsQueuedIffEnqueued | lib-erlangrt/src/agent_rt/scheduler.rs:250-630 | In every reachable state a runnable process has its state, and sits in a run queue if and only if it was ever enqueued. |
| SchedulerRuns.NeverEnqueuedIsLost | lib-erlangrt/src/agent_rt/scheduler.rs:288-335 | A spawned process that nobody enqueued stays out of the queues even when a message arrives. |
| Deliveries.RunRoom | lib-erlangrt/src/agent_rt/process.rs:86-96 | After any sequence of operations and cycles no mailbox is over its capacity and no process waits with a full one. |
| Deliveries.TimeoutAlwaysWakes | lib-erlangrt/src/agent_rt/scheduler.rs:373-396 | In every reachable state, whatever the bridge answers first, each waiting process past its deadline ends without deadline, runnable, queued, and with the timeout in its mailbox. |
| SchedulerRuns.MonitorsAgree | lib-erlangrt/src/agent_rt/scheduler.rs:182-225 | In every reachable state the two monitor tables are inverses over live processes, and each reference is announced at most once. |
| SchedulerRuns.SilentAfterDemonitor | lib-erlangrt/src/agent_rt/scheduler.rs:203-225 | After a successful `demonitor` its reference is never announced, whatever follows. |
| Dets.ReplayAt | lib-erlangrt/src/agent_rt/dets.rs:99-126 | Replay gives each key its last effective log line, and leaves keys without one alone. |
| Dets.ReplayIdempotent | lib-erlangrt/src/agent_rt/dets.rs:99-126 | Replaying a log over its own result changes nothing. |
| Dets.AppendRecovers | lib-erlangrt/src/agent_rt/dets.rs:161-212 | After a log append files and cache differ on exactly the computed set of keys: a logged null adds its key unless the files already say null, any other write takes its key out. |
| Dets.SnapshotUnderOldLog | lib-erlangrt/src/agent_rt/dets.rs:294-307 | Between the rename and the log truncation the files still recover to the cache. |
| Dets.RecoversExactly | lib-erlangrt/src/agent_rt/dets.rs:64-126 | With no lost key, recovery is the cache itself. |
| Dets.EntriesLastWins | lib-erlangrt/src/agent_rt/dets.rs:64-97 | Of the snapshot entries for a key the last one decides, and a key without any is absent. |
| Dets.PutSurvivesIff | lib-erlangrt/src/agent_rt/dets.rs:26-32 | A logged put leaves files that recover to the whole new cache exactly when nothing else was lost and the value is not null or the files already said null; lost are exactly the keys on which files and cache differ. |
| Dets.NullIsForgotten | lib-erlangrt/src/agent_rt/dets.rs:115-118 | Overwriting a value with null and crashing brings the old value back. |
| Dets.DetsTable.ReadDat | lib-erlangrt/src/agent_rt/dets.rs:64-97 | The snapshot loads to the entries after its header, with the errors for a wrong or missing header. |
| Dets.DetsTable.ReplayFile | lib-erlangrt/src/agent_rt/dets.rs:99-126 | The loop computes the replay of the whole log, absent file included. |
| Dets.DetsTable.Open | lib-erlangrt/src/agent_rt/dets.rs:48-150 | Opening any files yields a table whose cache is what they recover to, or exactly their error. |
| Dets.DetsTable.Put | lib-erlangrt/src/agent_rt/dets.rs:161-190 | Refused exactly without the right or without room, then changing nothing. Otherwise every file content from the append on recovers to the new cache except on lost keys; without a compaction the append is all that happens. On a table that had lost nothing, the files recover to the new cache if and only if the value is not null, the cache already held null, or the write compacts. |
| Dets.DetsTable.DeleteKey | lib-erlangrt/src/agent_rt/dets.rs:192-212 | Refused exactly without the right; otherwise durable at every crash point, also for an absent key. |
| Dets.DetsTable.Compact | lib-erlangrt/src/agent_rt/dets.rs:251-310 | Every file content on the way recovers to the cache; at the end the log is empty and nothing is lost. |
| Dets.Session | lib-erlangrt/src/agent_rt/dets.rs:48-310 | Whatever is asked and wherever the machine stops, reopening gives the content after the right prefix of the requests: what a request writes recovers to what it leaves, and what is there when it is done does too, so no completed request is lost, as long as no null is written. |
| DurableMailboxes.AboveIsSuffix | lib-erlangrt/src/agent_rt/durable_mailbox.rs:156-182 | Of an increasing list, what lies above a number is a suffix, and everything before it does not. |
| DurableMailboxes.MaxSeqIsMax | lib-erlangrt/src/agent_rt/durable_mailbox.rs:62-95 | The scan at `open` finds the largest number of any entry line, in whatever order they are. |
| DurableMailboxes.AppendIsReplayedIffSound | lib-erlangrt/src/agent_rt/durable_mailbox.rs:130-182 | An appended message is replayed, after everything that was, exactly when the WAL has its header and the numbering has not fallen behind the acknowledgement. |
| DurableMailboxes.AckHides | lib-erlangrt/src/agent_rt/durable_mailbox.rs:184-212 | An acknowledgement hides exactly the messages up to its number; a crash on the way leaves the old or the new one. |
| DurableMailboxes.TruncateKeepsPending | lib-erlangrt/src/agent_rt/durable_mailbox.rs:214-270 | At every crash point of a truncation, and after it, readers see the same messages; the WAL then holds just those. |
| DurableMailboxes.ReopenKeepsPending | lib-erlangrt/src/agent_rt/durable_mailbox.rs:44-128 | Reopening loses no unacknowledged message; new ones will be seen exactly unless the WAL is an empty file or its last number is below the acknowledgement. |
| DurableMailboxes.ReopenSoundIff | lib-erlangrt/src/agent_rt/durable_mailbox.rs:44-128 | Files of a healthy mailbox reopen healthy exactly when the WAL still holds an entry or nothing was ever acknowledged. |
| DurableMailboxes.ReplaysWhatTheClientExpects | lib-erlangrt/src/agent_rt/durable_mailbox.rs:44-270 | Over any run of appends, acknowledgements, truncations and crashes at any file content, also inside an acknowledgement or a truncation, replay yields every message appended and not acknowledged, in order, under its number, as a client without files accounts for them; provided the files at each crash are not an empty WAL and hold an entry unless nothing was acknowledged. |
| DurableMailboxes.FreshMailboxKeepsItsPromise | lib-erlangrt/src/agent_rt/durable_mailbox.rs:44-270 | The same from no files at all, where nothing about the state is assumed. |
| DurableMailboxes.SafeFilesAreNeeded | lib-erlangrt/src/agent_rt/durable_mailbox.rs:62-115 | That guard is exact at every crash point: after reopening, what was pending is pending, and the next message is replayed if and only if the files were safe. |
| DurableMailboxes.EveryRunKeepsPending | lib-erlangrt/src/agent_rt/durable_mailbox.rs:44-270 | Without any guard: in every state of every run, replayed numbers increase and lie above the last acknowledgement, and a crash at any file content keeps what readers saw there. |
| DurableMailboxes.EmptyWalLosesNext | lib-erlangrt/src/agent_rt/durable_mailbox.rs:60-95 | All acknowledged, truncated, reopened: the next message is written and never replayed. |
| DurableMailboxes.HeaderlessWalLosesFirst | lib-erlangrt/src/agent_rt/durable_mailbox.rs:97-115 | A crash between creating the WAL and writing its header makes readers take the first message for the header. |
| DurableMailboxes.DurableMailbox.Open | lib-erlangrt/src/agent_rt/durable_mailbox.rs:44-128 | Opening consistent files leaves the specified state, its crash states included. |
| DurableMailboxes.DurableMailbox.Append | lib-erlangrt/src/agent_rt/durable_mailbox.rs:130-154 | Numbers the message with the next number and writes one line. |
| DurableMailboxes.DurableMailbox.Replay | lib-erlangrt/src/agent_rt/durable_mailbox.rs:156-182 | Returns exactly the visible messages above the last acknowledgement, in order. |
| DurableMailboxes.DurableMailbox.Ack | lib-erlangrt/src/agent_rt/durable_mailbox.rs:184-212 | Accepts exactly the numbers that were handed out and are new. |
| DurableMailboxes.DurableMailbox.Truncate | lib-erlangrt/src/agent_rt/durable_mailbox.rs:214-270 | Rewrites the WAL through its temporary file, line by line, as specified. |
| DurableMailboxes.DurableMailbox.KeepUnacked | lib-erlangrt/src/agent_rt/durable_mailbox.rs:280-304 | The lines kept are exactly those of the unacknowledged messages. |
| RateLimiters.DecidesAsCounting | lib-erlangrt/src/agent_rt/rate_limiter.rs:70-111 | The deque decides exactly as counting all past grants younger than the window, and panics only for the limit 0. |
| RateLimiters.GrantKeepsSpacing | lib-erlangrt/src/agent_rt/rate_limiter.rs:88-111 | Any m + 1 consecutive grants keep spanning at least the window. |
| RateLimiters.WaitIsLeast | lib-erlangrt/src/agent_rt/rate_limiter.rs:99-111 | A returned wait is positive, at most the window, and the least delay after which an undisturbed retry succeeds. |
| RateLimiters.RateLimiter.SetLimit | lib-erlangrt/src/agent_rt/rate_limiter.rs:48-60 | Setting a limit forgets that provider's history and no other's. |
| RateLimiters.RateLimiter.SetDefaultLimit | lib-erlangrt/src/agent_rt/rate_limiter.rs:62-66 | Changes what providers without a limit of their own get from then on; limits, grants and clock stay. |
| RateLimiters.RateLimiter.TryAcquire | lib-erlangrt/src/agent_rt/rate_limiter.rs:70-111 | Grants exactly when fewer than the limit of all grants are young, keeps every window within the limit, and affects no other provider. |
| RateLimiters.RateLimiter.AcquireBlocking | lib-erlangrt/src/agent_rt/rate_limiter.rs:115-132 | The retry loop ends, however late its sleeps end and whatever other threads take meanwhile: one grant at the end, after at most one sleep more than there were such sleeps, each asked for at most the window, and never above the limit; undisturbed and punctual, at the earliest moment at all. |
| RateLimiters.RateLimiter.Attempt | lib-erlangrt/src/agent_rt/rate_limiter.rs:117-130 | One try: granted exactly when fewer than the limit of all grants are young; otherwise the sleep it asks for is positive, at most the window, and exactly until a slot is free. |
| Supervision.RestartKeepsOrder | lib-erlangrt/src/agent_rt/supervision.rs:255-325 | Whatever the strategy and whichever processes start, the child ids stay a subsequence of what they were, and equal if all start. |
| Supervision.StrategyReplaces | lib-erlangrt/src/agent_rt/supervision.rs:203-325 | When every process starts, each spec keeps its place, and new live processes stand exactly where the strategy says, for OneForOne at the dead child, for OneForAll everywhere, for RestForOne from the dead child on, while those they replace are gone; OneForOne touches no other process. |
| Supervision.ChildStarts | lib-erlangrt/src/agent_rt/supervision.rs:327-347 | A child that starts is a fresh process at its own priority, last in the queue of that priority; a failed start leaves all processes alone. |
| Supervision.DropKeepsOrder | lib-erlangrt/src/agent_rt/supervision.rs:176-189 | A child that is not restarted drops out and the others keep their order. |
| Supervision.RestartFromReplaces | lib-erlangrt/src/agent_rt/supervision.rs:274-325 | The prefix is kept, all others are replaced by new live pids, the replaced ones are gone; a kept child survives exactly when no terminated sibling drags it along through links. |
| Supervision.KeptChildCanDie | lib-erlangrt/src/agent_rt/supervision.rs:274-325 | Three children start in any sound scheduler, the first and third are linked, the second dies: RestForOne keeps the first on its list and has killed it. |
| Supervision.IntensityIsExact | lib-erlangrt/src/agent_rt/supervision.rs:242-253 | The check allows a restart exactly when fewer than `max_restarts` were performed in the closed window that ends now. |
| Supervision.Supervisor.ExceedsMaxRestarts | lib-erlangrt/src/agent_rt/supervision.rs:242-253 | The retained time stamps decide as all restarts ever performed would, no closed window ever holds more than allowed, and the clock moves no further than now. |
| Supervision.ExitKeepsSane | lib-erlangrt/src/agent_rt/supervision.rs:166-223 | One exit keeps a sound scheduler, known children and the pace of restarts; child ids stay in order, and a supervisor that shut down changes nothing. |
| Supervision.ExitDecides | lib-erlangrt/src/agent_rt/supervision.rs:166-223 | A running supervisor drops a known child, and does nothing else, if and only if it is temporary, or transient with a normal or shutdown exit. Otherwise it shuts down, and does nothing else, if and only if `max_restarts` restarts fell into the closed window; else it performs one more, as its strategy says. |
| Supervision.RestartKeepsInv | lib-erlangrt/src/agent_rt/supervision.rs:255-325 | Every strategy leaves a sound scheduler, every issued reference accounted for, and only children that the scheduler issued. |
| Supervision.ExitsKeepOrderAndPace | lib-erlangrt/src/agent_rt/supervision.rs:166-325 | Over any run of exits under a monotone clock, with any scheduler operations in between: no closed window holds more than `max_restarts` restarts, child ids stay a subsequence of the initial ones, shutdown is absorbing, and the conditions for the next restart hold again. |
| Supervision.StartedIsSane | lib-erlangrt/src/agent_rt/supervision.rs:135-162 | A supervisor that starts has exactly the children of its spec, in order, and every such run can follow. |
| Supervision.Supervisor.Start | lib-erlangrt/src/agent_rt/supervision.rs:135-162 | Children start in order; the first failure ends the start, leaves those before it running, and yields no supervisor. |
| Supervision.Supervisor.HandleChildExit | lib-erlangrt/src/agent_rt/supervision.rs:166-223 | Refines the specified exit: shut-down, unknown, dropped, excessive and restarted children; keeps the pace; and the clock it leaves allows the next call. |
| Supervision.Supervisor.RestartOneChild | lib-erlangrt/src/agent_rt/supervision.rs:255-272 | Only the dead child's place changes: a new process, or nothing if it does not start. |
| Supervision.Supervisor.RestartChildrenFrom | lib-erlangrt/src/agent_rt/supervision.rs:274-325 | Both loops leave the scheduler and the children exactly as specified, for OneForAll and RestForOne. |
| Supervision.Supervisor.TerminateOthers | lib-erlangrt/src/agent_rt/supervision.rs:274-318 | The siblings other than the dead child are shut down in order. |
| Orchestrators.NextKeeps | lib-erlangrt/src/agent_rt/orchestration.rs:466-595 | The self-recursion ends because ready tasks get fewer, and picking never breaks the cap or touches workers. |
| Orchestrators.StepKeepsCap | lib-erlangrt/src/agent_rt/orchestration.rs:172-371 | Every event keeps active workers plus pending spawns within max(`max_concurrency`, 1). |
| Orchestrators.StepKeepsBackedIff | lib-erlangrt/src/agent_rt/orchestration.rs:279-371 | Every event keeps each in-flight task with an active worker, except exactly the spawn of a pid that is already the only worker of another in-flight task. |
| Orchestrators.CapHolds | lib-erlangrt/src/agent_rt/orchestration.rs:172-371 | Both hold in every reachable state, across goals, spawns, deaths and retries, if no pid is spawned twice. |
| Orchestrators.EveryoneIsTold | lib-erlangrt/src/agent_rt/orchestration.rs:172-595 | Over any run: progress and the final report go to whoever asked last, the report only when everything is done and a plain stop only when nobody asked; a shutdown goes to the worker that reported; the oldest waiting task goes to the new worker; a decomposition is asked for on a new goal alone. |
| Orchestrators.AttemptsAreKept | lib-erlangrt/src/agent_rt/orchestration.rs:240-331 | Over any run, new goals included, no attempt is taken back and no strategy changes. |
| Orchestrators.Orchestrator.Next | lib-erlangrt/src/agent_rt/orchestration.rs:466-595 | The recursive method terminates and refines the specified choice in each of its branches. |
| Orchestrators.Orchestrator.BuryWorker | lib-erlangrt/src/agent_rt/orchestration.rs:310-331 | A death frees the worker's slot; an abnormal one asks for a retry, and fails the task and skips its dependents if refused. |
| Orchestrators.Orchestrator.LoadTasks | lib-erlangrt/src/agent_rt/orchestration.rs:263-278 | The answer's tasks, or the one default task, go into the graph; decomposition counts as done even if they are refused. |
| Orchestrators.Orchestrator.StartOver | lib-erlangrt/src/agent_rt/orchestration.rs:240-260 | A new goal forgets everything but the retry counts. |
| Orchestrators.Orchestrator.CollectResult | lib-erlangrt/src/agent_rt/orchestration.rs:201-217 | A result completes its task, releases what waited for it, and ends its flight. |
| Orchestrators.Orchestrator.AssignTask | lib-erlangrt/src/agent_rt/orchestration.rs:283-303 | The oldest pending spawn gets the new worker. |
| Orchestrators.Orchestrator.HandleEvent | lib-erlangrt/src/agent_rt/orchestration.rs:172-371 | Each message or exit leaves exactly the specified state and emits exactly one action. |
| OrchestratorRuns.NextRefines | lib-erlangrt/src/agent_rt/orchestration.rs:466-595 | If every task gets somewhere when picked and waits only for tasks that can complete, picking fails the sub-orchestrations at the head of the list, dispatches the first other task or changes nothing: moves of the task graph. If it leaves nobody working it has just reported the end. |
| OrchestratorRuns.NextUnfolds | lib-erlangrt/src/agent_rt/orchestration.rs:466-580 | While there is room, the first ready task decides: an empty id is spawned for and stays ready; one that takes the gate waits for approval; a sub-orchestration fails at the depth limit, and the next task is tried, or is spawned below it; any other runs and is spawned for. |
| OrchestratorRuns.RoomIsUsed | lib-erlangrt/src/agent_rt/orchestration.rs:76-91 | With fewer than `max_concurrency` workers and spawns, or none, a task that can be worked on and heads the ready list is spawned for at once. |
| OrchestratorRuns.StepRefines | lib-erlangrt/src/agent_rt/orchestration.rs:172-371 | Each event of disciplined workers is a valid run of the task graph; the event that takes away the last worker ends with the report. |
| OrchestratorRuns.NeverStalls | lib-erlangrt/src/agent_rt/orchestration.rs:172-595 | After a decomposition is accepted that meets the condition of `Stalls.NeverStallsIff`, in every run of disciplined workers the orchestrator is idle exactly when it is complete, its task statuses are those of a task-graph run, and it spawns at most as many workers as the retry allowance permits. |
| OrchestratorRuns.QuietExitStallsIff | lib-erlangrt/src/agent_rt/orchestration.rs:305-333 | In every state of such runs a normal worker exit stalls the orchestrator exactly when it was the only worker, had not reported, and nothing is ready but sub-orchestrations, which fail. |
| Stalls.HappyEnd | lib-erlangrt/src/agent_rt/orchestration.rs:172-595 | From any state with a task that leads nowhere or waits for one without result there is a run without a single crash, every worker reporting and then ending, at whose end nobody works and tasks are open. |
| Stalls.NeverStallsIff | lib-erlangrt/src/agent_rt/orchestration.rs:466-595 | Over all runs of disciplined workers an accepted decomposition is free from stalls if and only if no task takes the approval gate, no sub-orchestration is below the depth limit, and every dependency names a task of the batch that is no sub-orchestration. |
| Stalls.CompletableBatch | lib-erlangrt/src/agent_rt/orchestration.rs:263-278 | For distinct ids that condition can be read off the list before the call. |
| Stalls.LostTaskStalls | lib-erlangrt/src/agent_rt/orchestration.rs:500-527 | A batch of two in which nothing dangles, the second waiting for the first, which takes the approval gate or is a sub-orchestration at the depth limit: accepted, stalled at once without a report, and stalled whatever follows. |
| Stalls.StallLasts | lib-erlangrt/src/agent_rt/orchestration.rs:172-371 | No disciplined event ever ends a stall with an empty ready list or changes a task in it. |
| Stalls.ChildIsSpawnedAgain | lib-erlangrt/src/agent_rt/orchestration.rs:529-558 | Below the depth limit a sub-orchestration at the head of the ready list stays there: each spawn report leaves the state as it was and spawns it once more. |
| Stalls.QuietExitStalls | lib-erlangrt/src/agent_rt/orchestration.rs:305-333 | A new goal, two tasks in a row, one spawn and the normal exit of that worker: stalled. |
| Stalls.ReusedPidLosesATask | lib-erlangrt/src/agent_rt/orchestration.rs:279-303 | With room for two, a pid reported for a second spawn while it works leaves the first task in flight without worker. |
| Bridge.NeverLeaksNeverOverCounts | lib-erlangrt/src/agent_rt/bridge.rs:184-231 | Under any interleaving an entry is at least 1 and at most what is outstanding, exact without destroys, and absent when nothing is outstanding. |
| Bridge.CountStaysExactIff | lib-erlangrt/src/agent_rt/bridge.rs:513-521 | A step keeps an exact count exact unless it is the completion of a destroy that finds an entry. |
| Bridge.OnlyCancelCancels | lib-erlangrt/src/agent_rt/bridge.rs:184-231 | After any step a token that is there is cancelled exactly if it was before or the step cancels it; a new entry starts with a good one. |
| Bridge.CancelSticks | lib-erlangrt/src/agent_rt/bridge.rs:222-231 | A cancelled token stays cancelled for as long as its entry is there, whatever the threads do. |
| Bridge.DestroyCanDropALiveEntry | lib-erlangrt/src/agent_rt/bridge.rs:513-521 | A destroy that completes beside a running request removes the entry that request still needs. |
| Bridge.BridgeHandle.Submit | lib-erlangrt/src/agent_rt/bridge.rs:184-220 | The net effect of a submission is one slot exactly when a request that is no destroy was accepted; correlation numbers are never reused. |
| Bridge.BridgeHandle.CancelPid | lib-erlangrt/src/agent_rt/bridge.rs:222-231 | Cancels a present entry once and answers whether it did. |
| Releases.UndoRestores | lib-erlangrt/src/agent_rt/release.rs:174-184 | A handler whose rollback undoes its apply comes back exactly to where it started. |
| Releases.ReleaseManager.Apply | lib-erlangrt/src/agent_rt/release.rs:161-191 | All or nothing: the calls are the whole plan, or the applied prefix, the refusal and the prefix undone in reverse; a failure leaves the manager, and a compensating handler, as they were. |
| Releases.ReleaseManager.Rollback | lib-erlangrt/src/agent_rt/release.rs:196-211 | Undoes last to first, stops at the first refusal without touching the manager, and on success brings back the previous remembered release. |
| Releases.ReleaseManager.RecordApply | lib-erlangrt/src/agent_rt/release.rs:213-221 | History and current stay the end of the applied and not rolled back stack, within the history limit. |
| Releases.ApplyRollbackRestoresIff | lib-erlangrt/src/agent_rt/release.rs:196-221 | Applying and rolling back restores the manager exactly when nothing was current or the history had room. |
| Releases.HistoryForgets | lib-erlangrt/src/agent_rt/release.rs:196-221 | With a history of one, a third release applied and rolled back leaves the second current and the first forgotten. |
| BitReaders.ReadIsBitString | lib-erlangrt/src/defs/data_reader.rs:40-59 | Bit j of `read(n)` is bit offset + 8n + j of the data padded with zeros, for every data, offset and index. |
| BitReaders.OffsetShiftsIndex | lib-erlangrt/src/defs/data_reader.rs:24-29 | Adding an offset of 8k bits shifts the index by k. |
| BitReaders.ReadsReproduce | lib-erlangrt/src/defs/data_reader.rs:40-59 | Successive reads reproduce the bit string. |
| BitReaders.SizeIsExact | lib-erlangrt/src/defs/data_reader.rs:33-37 | For every offset: the size underflows exactly beyond the end of the data; otherwise it counts exactly the bits that belong to a byte of the data. |

## Left out

- Scheduler exit handlers, the message hook, `graceful_shutdown` and the retry of pending destroys: callbacks and timing.
- Registry names, dead letters, metrics and tracing: they record and do not decide.
- The choice of behaviour at `spawn` and what it keeps in its state: only the presence of the state is modelled.
- `DetsTable` reads, `close`, fsync failures, torn lines and JSON parsing: every line is written and read as a whole.
- WAL lines and acknowledgement files that do not parse, and I/O errors of both stores.
- 32-bit and 64-bit overflow of counters, sequence numbers, pids and references; only the backoff arithmetic saturates.
- Restart counts and backoff delays of the supervisor (floating point), and its exit-handler wiring.
- Approval decisions: polling looks only at ready tasks, while a task that waits for approval is not ready, so a decision on it is never taken; the gate itself is modelled. A decision left over from an earlier goal is not.
- Tasks whose id is the empty string: they are spawned under a made-up id and stay ready; this is modelled as it is and excluded from `OrchestratorRuns.NeverStalls` and `Stalls.NeverStallsIff`.
- What a child orchestrator does: its parent never reads a result of it.
- Mailbox capacities other than the default, which only tests set.
- Checkpoints, budgets, partial results and aggregation of the orchestrator.
- An abnormal exit of a worker that already reported: it can move a completed task back to ready and is outside `OrchestratorRuns.Disciplined`.
- Bridge I/O, cancellation tokens inside running operations, and the abort at shutdown.
- Release manifests, plans built from them, and the in-progress file.
- `cluster`, `ets`, `hot_code`, `approval_gate`, `dead_letter`, `result_aggregator`, `config_watcher`: one-step facts about maps.
- The BEAM emulator, the MCP, HTTP and LLM layers, the command line and the code generator.
