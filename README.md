# scalagmite core in Dafny

This project models the core of scalagmite, a small Java actor runtime:
- **agents** (`AbstractAgent`): each has a FIFO mailbox, a handler table keyed by a message's exact class, two status fields and a recorded error that is never cleared;
- **the router** (`Router`, `AgentGroup`): it maps names to append-only agent groups and counts running agents. When the count reaches zero, it goes down and releases the completion semaphore;
- **the worker pool** (`Scheduler`, `WorkerImpl`): a fixed number of workers share one queue of slots. A null-agent slot (a sentinel) tells the worker that takes it to exit.

The model has two layers.
- **Pure modules.** These state each operation as a function on values and prove its properties as lemmas:
  - `Types`: messages, statuses, exceptions, `Option`/`Outcome`/`Result`;
  - `AgentLogic`: the agent state machine and consume cycle;
  - `Registry`: the router's name → group map;
  - `Barrier`: the running count, the up flag and the semaphore permits;
  - `WorkPool`: a worker's drain of the shared queue.
- **Imperative modules.** These hold the classes, whose methods update fields in place:
  - `Runtime`: `Agent`, `AgentGroup`, `Router`;
  - `Pool`: `WorkQueue`, `Worker`, `Scheduler`.

  Every method's `ensures` ties the new state to a pure function of the old one. Loops over agents are proved against a snapshot of the agents' state taken on entry.

Calls into code the sources do not contain are parameters:
- handler bodies return or throw, as a `HandlerOutcome`;
- the hooks `onStart` and `onStop`, and application handler calls, are recorded as `Call`s in a ghost log;
- `ErrorHandler.isFatal` is a function field of the router;
- what a pooled agent's `consumeMessage` throws is an `escape` function.

## Model

| member | source | states |
|---|---|---|
| AgentLogic.Install | src/main/java/scalagmite/AbstractAgent.java:184-192 | a handler for a type already in the table is refused with that type and nothing changes; otherwise exactly that entry is added |
| AgentLogic.RegisterHandler | src/main/java/scalagmite/AbstractAgent.java:184-192 | fails iff the exact type has a handler; on success the keys grow by exactly that type, every earlier entry is kept, and no other field changes |
| AgentLogic.RegisterInitHandler | src/main/java/scalagmite/AbstractAgent.java:194-200 | fails iff an init handler is set; otherwise only the init handler changes |
| AgentLogic.RegisterExitHandler | src/main/java/scalagmite/AbstractAgent.java:176-182 | fails iff an exit handler is set; otherwise only the exit handler changes |
| AgentLogic.Setup | src/main/java/scalagmite/AbstractAgent.java:202-235 | succeeds iff none of Init, Stop, Exception has a handler, then installs the three built-ins and marks the agent set up; otherwise refuses with HandlerTaken for the first of Init, Stop, Exception already taken, keeps the built-ins installed before it, adds nothing else and leaves `setup` as it was; an Init handler is present afterwards either way, so a second setup fails; the agent invariant is kept |
| AgentLogic.Submit | src/main/java/scalagmite/AbstractAgent.java:309-315 | the message is appended at the tail; nothing else changes |
| AgentLogic.Dispatch | src/main/java/scalagmite/AbstractAgent.java:203-234 | a handler changes only the status fields and error; a fault stops the agent and records the error; the status invariant is kept; at most two calls are made |
| AgentLogic.Consume | src/main/java/scalagmite/AbstractAgent.java:96-138 | exactly the head leaves the mailbox in every branch; handlers and flags never change; an error already recorded gives "already failed" with no call; safeStatus STOPPED drops the message; an exception message or an unknown exact type is a fault that leaves safeStatus untouched; a fault sets STOPPED and records the error it reports |
| AgentLogic.ConsumeInit | src/main/java/scalagmite/AbstractAgent.java:203-212 | after setup, Init sets safeStatus RUNNING, calls the init handler once if there is one, and leaves status RUNNING unless it threw |
| AgentLogic.ConsumeStop | src/main/java/scalagmite/AbstractAgent.java:215-227 | Stop sets both statuses STOPPED, then calls the exit handler, then onStop (onStop is skipped when the exit handler throws) |
| AgentLogic.ConsumeApp | src/main/java/scalagmite/AbstractAgent.java:119-126 | an application message runs the handler of its exact type once; a throw is a fault |
| AgentLogic.ConsumeAll | src/main/java/scalagmite/AbstractAgent.java:96-138 | n cycles remove exactly n messages, change no handler, never clear an error, and keep the agent invariant |
| AgentLogic.FailedStaysFailed | src/main/java/scalagmite/AbstractAgent.java:102-105 | once an error is recorded, every later cycle calls nothing, leaves STOPPED, and reports "already failed" once per cycle |
| AgentLogic.StoppedDropsAll | src/main/java/scalagmite/AbstractAgent.java:107-111 | with safeStatus STOPPED and no error, every message is dropped: no call, no report, only the mailbox changes |
| AgentLogic.StoppedIsTerminal | src/main/java/scalagmite/AbstractAgent.java:128-130 | a consistent STOPPED agent stays STOPPED through any number of cycles |
| AgentLogic.SubmittedComesNext | src/main/java/scalagmite/AbstractAgent.java:309-315 | FIFO: a message submitted behind n others is the only one left after n cycles |
| AgentLogic.Start | src/main/java/scalagmite/AbstractAgent.java:280-291 | refused before setup; the router is signalled iff set up and not started; then started is set, and, if the router accepts, Init is enqueued and onStart called |
| AgentLogic.StopWithError | src/main/java/scalagmite/AbstractAgent.java:297-307 | refused before start; the router is signalled iff started and not stopped; then stopped is set, and, if the router accepts, a Stop message with "Normal stop call" is enqueued |
| AgentLogic.StartIdempotent | src/main/java/scalagmite/AbstractAgent.java:285-290 | a second start changes nothing and signals nothing |
| AgentLogic.StopIdempotent | src/main/java/scalagmite/AbstractAgent.java:297-306 | a second stop changes nothing; the cause never affects the result |
| Registry.Lookup | src/main/java/scalagmite/AgentGroup.java:43-49 | null iff the index is at or past the size; the index-th agent otherwise; a negative index fails in the list lookup |
| Registry.Add | src/main/java/scalagmite/AgentGroup.java:51-59 | refused iff the group is unique and non-empty; otherwise the agent is appended and the flag is kept |
| Registry.Find | src/main/java/scalagmite/Router.java:52-58 | an unregistered name gives null; a registered one gives its group's Lookup of the index |
| Registry.Register | src/main/java/scalagmite/Router.java:65-87 | refused when down, when the name is null or empty, on a unique call for a taken name, or on a unique populated group; on success the keys grow by the name, the group gains the agent at the end, a new group takes the call's flag, and other groups stay |
| Registry.Unregister | src/main/java/scalagmite/Router.java:117-123 | refused iff the name is unknown; otherwise exactly that key is removed |
| Registry.RegisterThenFind | src/main/java/scalagmite/Router.java:76-86 | after a registration, the agent is found under its name at the group's previous size; every other lookup is unchanged |
| Registry.SecondRegistrationFails | src/main/java/scalagmite/Router.java:60-83 | after a unique registration, a second unique one fails as taken and a non-unique one fails on the unique group |
| Registry.RegisterKeepsUniqueSingle | src/main/java/scalagmite/AgentGroup.java:52-55 | registration keeps every unique group at one agent at most |
| Registry.UnregisterKeepsUniqueSingle | src/main/java/scalagmite/Router.java:117-123 | unregistration keeps every unique group at one agent at most |
| Barrier.SignalStart | src/main/java/scalagmite/Router.java:89-93 | the count goes up by one; nothing else changes |
| Barrier.SignalStop | src/main/java/scalagmite/Router.java:95-103 | the count goes down by one; the router goes down and one permit is released exactly when the count was 1 |
| Barrier.StartsClosedForm | src/main/java/scalagmite/Router.java:92 | n starts add n to the count |
| Barrier.StopsClosedForm | src/main/java/scalagmite/Router.java:98-102 | n stops take n off; the router goes down with exactly one permit iff the count passes through zero |
| Barrier.StartsAdd | src/main/java/scalagmite/Router.java:92 | start signals compose additively |
| Barrier.StopsAdd | src/main/java/scalagmite/Router.java:98-102 | stop signals compose additively |
| Barrier.StopsStep | src/main/java/scalagmite/Router.java:98-102 | n + 1 stops are n stops and one more |
| Barrier.BalancedSignalsRelease | src/main/java/scalagmite/Router.java:89-103 | k starts then k stops on a fresh router release exactly one permit and take it down; fewer stops release none |
| Runtime.Agent.constructor | src/main/java/scalagmite/AbstractAgent.java:80-93 | the name falls back to the class name when null or empty; the state is a new agent: INIT, no error, empty mailbox and table |
| Runtime.Agent.Install | src/main/java/scalagmite/AbstractAgent.java:184-192 | the new state and result are those of AgentLogic.Install |
| Runtime.Agent.RegisterHandler | src/main/java/scalagmite/AbstractAgent.java:184-192 | the new state and result are those of AgentLogic.RegisterHandler; the invariant is kept |
| Runtime.Agent.RegisterInitHandler | src/main/java/scalagmite/AbstractAgent.java:194-200 | the new state and result are those of AgentLogic.RegisterInitHandler |
| Runtime.Agent.RegisterExitHandler | src/main/java/scalagmite/AbstractAgent.java:176-182 | the new state and result are those of AgentLogic.RegisterExitHandler |
| Runtime.Agent.Setup | src/main/java/scalagmite/AbstractAgent.java:275-278 | the new state and result are those of AgentLogic.Setup; the invariant is kept |
| Runtime.Agent.SubmitMessage | src/main/java/scalagmite/AbstractAgent.java:309-315 | the new state is AgentLogic.Submit of the old |
| Runtime.Agent.Take | src/main/java/scalagmite/AbstractAgent.java:98-130 | state, calls and reported fault are those of AgentLogic.Consume |
| Runtime.Agent.Run | src/main/java/scalagmite/AbstractAgent.java:119-126 | state, calls and fault are those of AgentLogic.Dispatch for the handler found |
| Runtime.Agent.ConsumeMessage | src/main/java/scalagmite/AbstractAgent.java:96-138 | one AgentLogic.Consume cycle; on a fault the router's isFatal is consulted; a fatal fault stops every registered agent, and the count drops by the number that were live; otherwise no other agent changes; with no router the report is swallowed |
| Runtime.Agent.Report | src/main/java/scalagmite/AbstractAgent.java:131-135 | the fault is passed to signalError when there is one and a router; the effect is as above |
| Runtime.Agent.Start | src/main/java/scalagmite/AbstractAgent.java:280-291 | the new state is AgentLogic.Start with the router's answer; the count rises by one exactly when the call signalled and the router accepted |
| Runtime.Agent.StopWithError | src/main/java/scalagmite/AbstractAgent.java:297-307 | the new state is AgentLogic.StopWithError with the router's answer; the count follows Barrier.SignalStop exactly when the call signalled and the router accepted |
| Runtime.Agent.Stop | src/main/java/scalagmite/AbstractAgent.java:293-295 | stop is stopWithError with the normal cause |
| Runtime.Agent.Route | src/main/java/scalagmite/AbstractAgent.java:241-250 | no router is a null dereference; a lookup error propagates; no agent found is an AgentException; otherwise the message is appended to the found agent's mailbox and no other mailbox changes |
| Runtime.Agent.RouteFirst | src/main/java/scalagmite/AbstractAgent.java:237-239 | route(dest, m) is route(dest, 0, m): the same errors, the message appended to the agent found at index 0, and every other peer's mailbox unchanged |
| Runtime.AgentGroup.constructor | src/main/java/scalagmite/AgentGroup.java:38-41 | an empty group with the given flag |
| Runtime.AgentGroup.GetAgent | src/main/java/scalagmite/AgentGroup.java:43-49 | null iff the index is at or past the group's size; the index-th agent otherwise; a negative index fails with IndexOutOfBounds |
| Runtime.AgentGroup.AddAgent | src/main/java/scalagmite/AgentGroup.java:51-59 | the list is Registry.Add of the old one; on success the agent's number is the previous size; on refusal nothing changes |
| Runtime.AgentGroup.Holding | src/main/java/scalagmite/Router.java:77-79 | a new group holding just the agent, numbered 0 |
| Runtime.AgentGroup.StartAll | src/main/java/scalagmite/AgentGroup.java:71-75 | agents are started in order up to the first not set up, which throws NotSetUp; the rest are untouched; one start signal per previously idle agent reached |
| Runtime.AgentGroup.StartEach | src/main/java/scalagmite/AgentGroup.java:72-74 | the loop stops exactly at the first agent not set up, with the progress and signals recorded against the entry snapshot |
| Runtime.AgentGroup.StartAt | src/main/java/scalagmite/AgentGroup.java:73 | one start succeeds iff that agent is set up, and extends the progress by it |
| Runtime.AgentGroup.StartOne | src/main/java/scalagmite/AgentGroup.java:73 | start on a known agent: started and signalled iff set up and not yet started |
| Runtime.AgentGroup.StopCaught | src/main/java/scalagmite/AgentGroup.java:63-67 | stopWithError on a known agent; its refusal is caught; the count follows one stop exactly when the agent was live |
| Runtime.AgentGroup.StopWithError | src/main/java/scalagmite/AgentGroup.java:61-69 | every agent goes through stopWithError, in order; the count drops once per agent that was live; signalled lists exactly those |
| Runtime.AgentGroup.StopEvery | src/main/java/scalagmite/AgentGroup.java:62-68 | the loop leaves every agent stopped against the entry snapshot, with one stop signal per live agent |
| Runtime.AgentGroup.StopNoted | src/main/java/scalagmite/AgentGroup.java:63-67 | one agent's stop extends the snapshot record by that agent and its signal |
| Runtime.AgentGroup.StopAll | src/main/java/scalagmite/AgentGroup.java:77-85 | stopAll stops every agent, and the count drops by the number that were live |
| Runtime.Router.constructor | src/main/java/scalagmite/Router.java:44-46 | an empty registry, count 0, up, no permit |
| Runtime.Router.GetAgent | src/main/java/scalagmite/Router.java:48-58 | an unregistered name gives null; a registered one asks its group's getAgent(num) (getAgent(name) is num 0) |
| Runtime.Router.FoundIsRegistered | src/main/java/scalagmite/Router.java:52-58 | an agent getAgent finds is a registered agent |
| Runtime.Router.RegisterAgent | src/main/java/scalagmite/Router.java:65-87 | the registry becomes Registry.Register of the old; on success the agent points here and is numbered the group's previous size; a refusal by a unique group still leaves the agent pointing here; a group made for a new name is a new object and every existing group stays the same object; the counter is untouched; the router invariant is kept |
| Runtime.Router.RegisterNew | src/main/java/scalagmite/Router.java:76-79 | a first registration under a name adds a new group object with the call's flag, holding just this agent numbered 0; the other groups stay |
| Runtime.Router.Publish | src/main/java/scalagmite/Router.java:79 | the map gains exactly the new name bound to the given group; the invariant is kept |
| Runtime.Router.RegisterExisting | src/main/java/scalagmite/Router.java:80-86 | the router reference is set, then the existing group adds or refuses the agent as Registry.Add says |
| Runtime.Router.Extend | src/main/java/scalagmite/Router.java:86 | the named group adds or refuses the agent as Registry.Add says; other groups stay |
| Runtime.Router.RegisterUniqueAgent | src/main/java/scalagmite/Router.java:60-87 | registerAgent(agent) is the unique registration: the registry becomes Registry.Register with unique set; on success the agent points here, is numbered 0, and its group is a new object; a refusal (raised before setRouter) leaves the registry, the agent's router and its number as they were; existing groups stay the same objects; the counter is untouched |
| Runtime.Router.UnregisterAgent | src/main/java/scalagmite/Router.java:117-123 | the registry becomes Registry.Unregister of the old; no group is made, and every group that stays is the same object |
| Runtime.Router.SignalAgentStart | src/main/java/scalagmite/Router.java:89-93 | a known agent moves the counter by Barrier.SignalStart; an unknown one is IllegalArgument and changes nothing |
| Runtime.Router.SignalAgentStop | src/main/java/scalagmite/Router.java:95-103 | a known agent moves the counter by Barrier.SignalStop; an unknown one is IllegalArgument and changes nothing |
| Runtime.Router.StopGroups | src/main/java/scalagmite/Router.java:107-109 | every agent of every group goes through stopWithError; the count follows one stop per agent that was live |
| Runtime.Router.StopEach | src/main/java/scalagmite/Router.java:107-109 | the loop visits every registered agent once; it leaves all stopped against the entry snapshot, with one stop signal per live agent |
| Runtime.Router.SignalError | src/main/java/scalagmite/Router.java:105-111 | a fatal error stops every agent of every group, and the count drops by the number that were live; a non-fatal one changes no agent and no count |
| Runtime.Router.StopAll | src/main/java/scalagmite/Router.java:135-139 | every agent is stopped, and the count drops by the number that were live |
| Runtime.Router.StartAll | src/main/java/scalagmite/Router.java:129-133 | in the given group order, agents are started up to the first not set up, which throws; all after it are untouched; the count rises by the number of agents reached that were idle |
| Runtime.Router.StartRun | src/main/java/scalagmite/Router.java:129-133 | the same, over the registry and agents as they were on entry |
| Runtime.Router.StartGroups | src/main/java/scalagmite/Router.java:130-132 | the loop reaches exactly the prefix of the flattened groups up to the first agent not set up |
| Runtime.Router.StartNext | src/main/java/scalagmite/Router.java:131 | one group's startAll extends the agents reached by that group's set-up prefix |
| Runtime.Router.StartGroup | src/main/java/scalagmite/Router.java:131 | group.startAll as seen from the router: progress and signals grow by the agents it reaches |
| Runtime.Router.TryWaitAllStopped | src/main/java/scalagmite/Router.java:113-115 | succeeds iff a permit is available, and takes it |
| WorkPool.Run | src/main/java/scalagmite/WorkerImpl.java:49-71 | the queue is the consumed agents' slots, then the sentinel if the run closed, then the untouched rest; no cycle before the last one threw; an escaped run's last one did; a waiting run emptied a queue without sentinels |
| WorkPool.RunStep | src/main/java/scalagmite/WorkerImpl.java:63-65 | an agent slot whose cycle returns puts that agent first and goes on with the tail |
| WorkPool.OneSentinelTaken | src/main/java/scalagmite/WorkerImpl.java:58-61 | a run consumes exactly one sentinel when it closes and none otherwise |
| WorkPool.SentinelEndsRun | src/main/java/scalagmite/WorkerImpl.java:50-61 | a queue holding a sentinel never leaves its worker waiting |
| WorkPool.StopAfterWork | src/main/java/scalagmite/Scheduler.java:89-99 | work queued before stop with n workers: a worker whose cycles return runs it all in order, takes one sentinel and leaves n - 1 |
| WorkPool.SentinelsClose | src/main/java/scalagmite/Scheduler.java:89-99 | on a queue of n sentinels, a worker takes one and leaves n - 1 |
| Pool.WorkQueue.constructor | src/main/java/scalagmite/Scheduler.java:38 | the shared work queue starts empty |
| Pool.WorkQueue.Put | src/main/java/scalagmite/Scheduler.java:94-103 | put: the slot joins the tail; the rest of the queue is kept |
| Pool.WorkQueue.Take | src/main/java/scalagmite/WorkerImpl.java:53 | take on a non-empty queue: the head is returned and the tail is what remains |
| Pool.Worker.constructor | src/main/java/scalagmite/WorkerImpl.java:37-38 | no scheduler, no queue, no thread |
| Pool.Worker.SetScheduler | src/main/java/scalagmite/WorkerImpl.java:74-76 | the scheduler reference is set |
| Pool.Worker.SetQueue | src/main/java/scalagmite/WorkerImpl.java:79-81 | the queue reference is set |
| Pool.Worker.Start | src/main/java/scalagmite/WorkerImpl.java:84-91 | refused with a RuntimeException once started; otherwise the thread exists afterwards |
| Pool.Worker.Run | src/main/java/scalagmite/WorkerImpl.java:49-71 | exit, consumed agents and queue left are those of WorkPool.Run; an escaped exception is recorded by the scheduler, and one sentinel per worker is queued |
| Pool.Worker.Step | src/main/java/scalagmite/WorkerImpl.java:50-70 | one take either ends the run as WorkPool.Run says, or consumes one agent and shortens the queue |
| Pool.Scheduler.constructor | src/main/java/scalagmite/Scheduler.java:44-57 | exactly n new workers, distinct, each bound to this scheduler and the shared queue, none started; an empty queue; no error |
| Pool.Scheduler.New | src/main/java/scalagmite/Scheduler.java:47-54 | fails with RuntimeException iff the thread count is at most 0; otherwise a new scheduler with a new empty queue, no error, and exactly that many new unstarted workers (getNumOfThreads is the count) |
| Pool.Scheduler.GetNumOfThreads | src/main/java/scalagmite/Scheduler.java:66-68 | the number of workers, which Pool.Scheduler.New proves is the thread count it was built with |
| Pool.Scheduler.AddNewWorker | src/main/java/scalagmite/Scheduler.java:59-64 | one new worker, bound to this scheduler and the queue, is appended; earlier workers stay |
| Pool.Scheduler.SignalError | src/main/java/scalagmite/Scheduler.java:76-79 | the error is appended, then one sentinel per worker is queued |
| Pool.Scheduler.Start | src/main/java/scalagmite/Scheduler.java:81-87 | workers are started in order; it succeeds iff none was started; a worker is started afterwards iff it was, or every worker before it was not |
| Pool.Scheduler.Stop | src/main/java/scalagmite/Scheduler.java:89-99 | exactly one sentinel per worker is appended; nothing else changes |
| Pool.Scheduler.Schedule | src/main/java/scalagmite/Scheduler.java:101-107 | exactly one slot carrying the agent is appended |

## Left out

- Threads, `synchronized`, blocking and interruption are not modelled. Each operation is one atomic step, and the `InterruptedException` paths are omitted. A take from an agent's mailbox requires a message. A worker's run ends (`Waiting`) where `take()` would wait.
- Bounded mailboxes are not modelled, so the capacity constructor argument is dropped: with a capacity, `put` blocks instead of failing.
- The blocking `waitAllStopped` is not modelled. `TryWaitAllStopped` ignores the timeout and takes a permit only if one is available.
- `ThreadAgent`, `Scalagmite` and `Configuration` are not part of this model: a thread wrapper, a bootstrap facade, and properties-file input. The thread count is an integer parameter.
- `WorkerImpl.join` and `Scheduler.join` are not modelled: they wait on threads.
- Logging, `getError`, `getName`, `getStatus`, `getRouter`, `getNumber` and `logError` are omitted. The getters read fields that the model exposes directly.
- `setName` and `setAgentName` are not modelled, so an agent's name is fixed at construction.
- AgentLogic.Start: `onStart` is modelled as never throwing. In Java, an exception from it would escape `start()` after the signal and the Init enqueue, and from there escape `AgentGroup.startAll` and `Router.startAll`. `ThreadAgent.onStart` only starts the agent's thread, and `start()` lets that happen once.
- AgentLogic.Dispatch: `onStop` is modelled as never throwing. An exception from it inside the Stop built-in would be a fault that stops the agent, records the error and reports it. `ThreadAgent.onStop` does nothing.
- Handler bodies, `onStart`/`onStop`, `ErrorHandler.isFatal` and `SchedulableAgent.consumeMessage` are outside the sources. They are parameters or ghost call logs.
- `runningAgents` is an unbounded integer: Java's `int` wrap-around would need more than 2^31 start signals.
- Runtime.Router.StartAll: Java iterates a `HashMap` in an order the model cannot know, so the group order is a parameter `order` listing each registered name once.
- Runtime.Router.StopEach: the stop loop visits the set of registered agents instead of group by group. The result is the same, because each agent carries one name and so belongs to one group, and a second stop of the same agent changes nothing.
- Runtime.Router.RegisterNew: the new group is filled before it is published in the map rather than after. It is new, so no other state can tell.
- Runtime.Agent.ConsumeMessage: a ghost parameter `peers` names the router's agents, which is what a fatal error may stop.
- Pool.Worker.Run: requires a worker wired by the scheduler, whose scheduler is set and whose queue is the scheduler's. The `NullPointerException` of an unwired worker is not modelled.
- Pool.Scheduler.Start: requires distinct workers, which the constructor guarantees, because a `Provider` returning one worker twice is outside the model.
- Pool.Scheduler.constructor: requires a positive thread count. `Pool.Scheduler.New` models the `RuntimeException` for the other case.

## Behaviour worth knowing

- An agent's error is not first-one-wins: every fault overwrites it (`AbstractAgent.java:130`). A failed agent reports "already failed" to the router again on every later cycle (`AgentLogic.FailedStaysFailed`).
- The Stop message never carries the cause passed to `stopWithError`: it always carries "Normal stop call" (`AbstractAgent.java:305`, `AgentLogic.StopIdempotent`).
- `registerAgent` sets the agent's router before the group can refuse it (`Router.java:85-86`), so a refused agent still points at the router (`Runtime.Router.RegisterAgent`).
