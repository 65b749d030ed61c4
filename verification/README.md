# icoo_ai protocol proofs

A Dafny model of the small protocols and algorithms that icoo_ai's gateway, server and chat client rely on, with proofs
of what they guarantee. `dafny verify dfyconfig.toml` checks everything. One module per concern:

| files | part of the system |
|---|---|
| `EventBus`, `BusProtocol`, `BusHistory`, `ClientResume`, `ClientDelivery` | the gateway's event ring, its subscriptions, and a client that resumes by event id |
| `McpManager`, `McpProtocol`, `McpHistory` | the table of MCP connections under concurrent refresh, close, call and shutdown |
| `Calendar`, `Cron`, `CronText`, `Search`, `Schedule`, `Scheduler`, `TaskRuns`, `Wake` | cron fields and search, the task lock on next_run_at, the scheduler's wake channel |
| `RunTrace`, `ApprovalCache`, `ReactLoop`, `ResponsesStream`, `ResponsesInput` | the agent's tool loop, its event protocol and approvals, and the translation from and to the Responses API |
| `Hooks`, `HookDecisions` | the hook dispatcher with interleaved policy guards |
| `Approval`, `ApprovalOutcome` | the one-shot approval broker |
| `Store`, `Jsonl`, `JsonlFiles` | the in-memory index and the JSONL files behind it |
| `RotatingLog` | the size-rotated audit log |
| `SkillMarkdown`, `SkillReader`, `UniqueIds` | writing and reading skill files; unique ids in the client's settings |
| `Text`, `Histories` | the string functions of Go's library that these use; reading a fact off a list of steps |

Code that mutates state is a class or a loop here too, and each method is proved equal to, or against, a specification.
Concurrent code is a state machine: one lock region, channel operation or database statement is one step, `Run` applies
any list of steps, and the main results hold after every such list. What the code does not control (the model, tools,
hooks, approvers, policy, listeners, connectors, time and cancellation) is arbitrary: a parameter, or in `ReactLoop` a
method that may answer anything.

## What the proofs found

Where a guarantee one might expect is false of the code, the model keeps what the code does. The members named here prove
the exact condition, or a concrete run; remarks without a member describe how the modelled code behaves:

- A cron step near the 64-bit limit wraps around and matches extra values (`Cron.CollectedIsExact`, `Cron.OverflowingStepMatchesMore`). Day of month and weekday must both match, and `5/10` means only 5 (`CronText.CronMeans`).
- A restart drops an `at` task exactly when its time, which is its own next_run_at, has passed by then (`Scheduler.RestartLosesAtIff`). Executions of a task can overlap exactly when a restart's recovery or an administrator re-arms it while one is in flight (`Scheduler.OverlapIff`; a second Start does so in `Scheduler.SecondStartOverlaps`). TryLock clears next_run_at before it reads the row back, so when that read fails the task stays unarmed until a next_run_at is stored again (`Scheduler.FailedReadBackStrands`).
- An `every` schedule below a millisecond can be stored as not later than its finish time (`Schedule.StoredNextRun`).
- A resume id that has left the ring replays nothing, so the client silently misses events (`EventBus.SinceEvicted`).
- CloseServer, disabling a server and RefreshTools close a client even while a call is using it, and nothing else does (`McpProtocol.CallLosesClientIff`, with a run in `McpProtocol.CloseServerMayInterruptACall`). Manager.Close waits for the call.
- A patch map that names `data` and, with another value, a key inside it depends on Go's map order, and no other map does (`Hooks.PatchOrderMatters`).
- The policy guard does not match an event whose path or command a hook has emptied, so a dispatch can pass without a request, exactly when some user hook can empty that field (`Hooks.SafeAloneIff`, `Hooks.KeepingHooksAreSafe`, `Hooks.LosingHookPasses`; the simplest such hook is in `Hooks.MalformedMayPass`).
- A Decide with an invalid option overwrites decision time and message (`Approval.InvalidOptionStamps`); a cancelled request disagrees with its record exactly when a decision took the lock first (`Approval.CancelledRequestDisagreesIff`, with a run in `Approval.CancelledRequestMayDisagree`).
- One Responses item is emitted, and its tool run, twice exactly when its named done events disagree on a free call id (`ResponsesStream.EmittedOnceIff`; `ResponsesStream.ItemCanBeEmittedTwice` is such a stream, `ResponsesStream.OrdinaryItem` an ordinary one). A message's text reaches later requests exactly when it has no tool calls, so a tool round's assistant text is dropped (`ResponsesInput.TextReachesIff`).
- A hook's approval question treats every answer but deny as a yes (`ReactLoop.ReactLoop.BeforeToolCall`), unlike a tool's. A run ends cancelled exactly when an event of its last stream is taken after the cancellation (`ReactLoop.CancelledIff`), so one cancelled between the last event and the end of the stream completes (`ReactLoop.ReactLoop.CancelledRunCompletes`).
- Approval cache keys of two tools can collide when a name contains NUL (`ApprovalCache.KeysCollide`).
- A stored line longer than 65535 bytes keeps the store from opening again; a failed append leaves memory ahead of the file (`Jsonl.ReplayIsLive`, `Jsonl.WriteKeepsSync`).
- Skill descriptions with quotes, backslashes or line breaks do not survive: the reader never undoes the escaping (`SkillMarkdown.RoundTrip`).

## Model

| member | source | states |
|---|---|---|
| BusProtocol.ExactHandover | agent_gateway/internal/events/bus.go:52-132 | in every interleaving of Publish, its deliveries, Subscribe and Close, a subscription's replay comes from exactly the events logged before it joined, each later event is offered once or still pending, and no earlier event is offered |
| BusProtocol.QuiescentOffers | agent_gateway/internal/events/bus.go:52-97 | with no Publish under way, the offers are a permutation of the log positions between joining and leaving |
| BusProtocol.ChannelsAreSafe | agent_gateway/internal/events/bus.go:103-132 | no send on or close of a closed channel, ever; a channel is closed exactly when its subscription has left; what was received plus what is buffered is what was accepted, at most once each |
| BusProtocol.RunKeeps | agent_gateway/internal/events/bus.go:52-132 | the invariant behind the three results above holds after every list of steps |
| BusHistory.AcceptedIff | agent_gateway/internal/events/bus.go:103-122 | in every run, a subscription accepts exactly the events whose delivery came while it was open with room in its channel |
| BusHistory.LifeIsItsSteps | agent_gateway/internal/events/bus.go:68-97 | a subscription joins with its first Subscribe, behind the log so far, and leaves with the first Close after it, whatever others do |
| BusHistory.ReceivesNext | agent_gateway/internal/events/bus.go:103-132 | a reader gets the oldest accepted event it has not received, as long as there is one, even after the subscription has left |
| BusHistory.LogIsPushed | agent_gateway/internal/events/bus.go:52-66 | the log is what was published, in order |
| EventBus.Bus.PushToRing | agent_gateway/internal/events/bus.go:134-147 | the ring arithmetic refines an abstract log: afterwards the ring holds exactly the last capacity events of it |
| EventBus.Bus.SnapshotSince | agent_gateway/internal/events/bus.go:149-167 | the index scan of the ring returns what follows the resume id among the buffered events, everything for no id, nothing for an unknown one |
| EventBus.Bus.Subscribe | agent_gateway/internal/events/bus.go:68-87 | the new subscriber is registered and its replay is computed from the log as of the same moment |
| EventBus.Bus.Unsubscribe | agent_gateway/internal/events/bus.go:89-97 | the subscriber leaves the set and its channel is closed once; unknown subscribers are left alone |
| EventBus.Bus.Publish | agent_gateway/internal/events/bus.go:52-65 | a Publish that nothing overlaps logs the event and offers it to every subscriber exactly once |
| EventBus.Bus.constructor | agent_gateway/internal/events/bus.go:38-46 | a non-positive buffer size means 256; the bus starts empty |
| EventBus.Subscriber.Deliver | agent_gateway/internal/events/bus.go:110-122 | the queue-full error is reported exactly when an open channel had no room, and a closed subscriber swallows the event |
| EventBus.Subscriber.Close | agent_gateway/internal/events/bus.go:124-132 | closing is idempotent and closes the channel once |
| EventBus.LastNPush | agent_gateway/internal/events/bus.go:134-147 | pushing onto the last n events and trimming gives the last n events of the longer log |
| EventBus.SinceBuffered | agent_gateway/internal/events/bus.go:149-167 | a buffered id resumes exactly behind its own log position |
| EventBus.SinceEvicted | agent_gateway/internal/events/bus.go:149-167 | an id that has left the ring replays nothing, so what followed it is lost |
| EventBus.SlotIsModulo | agent_gateway/internal/events/bus.go:134-167 | the ring index computed with a remainder is the wrapped position |
| ClientResume.ResumeIsExact | agent_chat/internal/bridge/agent_service.go:575-586 | across any disconnects, overflows and changes of filter, the client forwards strictly increasing log positions; over each connection only what its filter keeps, contiguously when nothing that passes was dropped, and from right behind the last forwarded event when that was still buffered; once a connection without a drop has nothing left to deliver, all of the filtered log from its start on |
| ClientResume.OneFilterIsContiguous | agent_chat/internal/bridge/agent_service.go:543-586 | with one filter, no drop and no lost resume id, all connections together forward one contiguous run of the filtered log |
| ClientResume.OnlyMatchingEvents | agent_gateway/internal/controllers/websocket_controller.go:91-109 | over a connection with given query parameters only events that match all of them arrive |
| ClientResume.ResumeIdIsLastForwarded | agent_chat/internal/bridge/agent_service.go:783-790 | in every run, whatever the ids are, the resume id is that of the last forwarded event that has one |
| ClientDelivery.GapIff | agent_gateway/internal/events/bus.go:110-122 | in every run, a connection has a gap if and only if, while it was live, an event passing its filter was published with 32 events queued in its bus channel |
| ClientDelivery.PublishReaches | agent_gateway/internal/events/bus.go:52-66 | in every run, a published event joins what is on its way to a connected client, behind everything else, if and only if it passes the filter and the bus channel has room |
| ClientDelivery.ConnectReplays | agent_gateway/internal/controllers/websocket_controller.go:42-59 | a new connection has the filter it asked for and carries all that passes of the log from its replay point on |
| ClientDelivery.DrainDelivers | agent_gateway/internal/controllers/websocket_controller.go:72-89 | nothing gets stuck: from every reachable state with a live connection the pipeline's own steps forward exactly what is undelivered, in order |
| ClientDelivery.LogIsPublished | agent_gateway/internal/events/bus.go:52-66 | the log is what was published, connected or not |
| ClientDelivery.ParametersAreIndependent | agent_gateway/internal/controllers/websocket_controller.go:91-109 | each query parameter filters on its own: a blank one keeps every event, any other exactly those with the trimmed value in its field |
| ClientResume.ReplayStart | agent_gateway/internal/controllers/websocket_controller.go:42-59 | a reconnect replays from right behind the last forwarded event if it is still in the ring, and otherwise nothing at all |
| ClientResume.RangePrefix | agent_chat/internal/bridge/agent_service.go:543-586 | an initial piece of the filtered log is the filtered log up to its own last event |
| ClientResume.RunKeeps | agent_gateway/internal/controllers/websocket_controller.go:42-109 | what was forwarded, is on the wire and is still queued always continue the filtered log in order, without a gap while none was recorded |
| ClientResume.StreamClient.ForwardGatewayEvent | agent_chat/internal/bridge/agent_service.go:948-978 | keeps the resume id that of the last forwarded event that has one, and the audit cache the newest 5000 of all audit events |
| ClientResume.StreamClient.StreamSubscriptionState | agent_chat/internal/bridge/agent_service.go:888-900 | the session filter is the current session, else the only active one, else none |
| McpProtocol.ClientConservation | agent_gateway/internal/runtime/mcp/manager.go:106-157 | in every interleaving each client the connector returned is in exactly one place (held by one operation, installed under one key, or closed) and none is closed twice |
| McpProtocol.StatusIsTruthful | agent_gateway/internal/runtime/mcp/manager.go:246-338 | Connected means an installed client that nobody closed and a tool count equal to the tool list; Disconnected, Disabled and Closed mean no client and no tools |
| McpProtocol.ShutdownIsFinal | agent_gateway/internal/runtime/mcp/manager.go:196-220 | after Close's lock step no server ever has a client again and every status stays Closed |
| McpProtocol.DrainWaitsForCalls | agent_gateway/internal/runtime/mcp/manager.go:80-102 | Manager.Close closes a client only when no CallTool is running, and none starts afterwards |
| McpProtocol.CallLosesClientIff | agent_gateway/internal/runtime/mcp/manager.go:80-338 | in every run, while a call runs, the client it got is closed if and only if a CloseServer, a disable or a RefreshTools of the same server took it since the call began and that same operation then closed it |
| McpProtocol.CallKeepsClient | agent_gateway/internal/runtime/mcp/manager.go:80-338 | a running call keeps its client as long as no CloseServer, disable or RefreshTools of the same server overlaps it, whatever else runs, Manager.Close included |
| McpHistory.StatusIsLastWrite | agent_gateway/internal/runtime/mcp/manager.go:246-367 | in every run a server's whole entry is what its writes leave: the phase and error of the last one (connecting, failed with what went wrong, connected, the phase of a close, closed), the client and tools installed last unless detached since and their count, the last name and transport |
| McpHistory.OneReconnect | agent_gateway/internal/runtime/mcp/manager.go:222-244 | a refresh comes to install its client if and only if it connected and listed, at once or after exactly one reconnect, and to record a failure only when a connector or the second listing failed |
| McpHistory.CallGetsInstalled | agent_gateway/internal/runtime/mcp/manager.go:80-102 | a call gets the client installed last unless that was detached or shut down since, and otherwise ends at once |
| McpHistory.DrainFinishes | agent_gateway/internal/runtime/mcp/manager.go:196-220 | once no call is in flight, Manager.Close closes all the clients it collected, in order, and returns |
| McpHistory.CallCanReturn | agent_gateway/internal/runtime/mcp/manager.go:80-102 | in every run a call in flight can return, and then counts no longer |
| McpProtocol.RunConserves | agent_gateway/internal/runtime/mcp/manager.go:106-367 | the bookkeeping of who holds each client is exact after every list of steps |
| McpProtocol.RunTableOk | agent_gateway/internal/runtime/mcp/manager.go:246-367 | every status agrees with its client and tools, and the in-flight counter counts the running calls |
| McpProtocol.CollectedClients | agent_gateway/internal/runtime/mcp/manager.go:196-220 | what Close collects are the installed clients, each once |
| McpProtocol.ReplacePlace | agent_gateway/internal/runtime/mcp/manager.go:266-298 | a replacement installs the new client and hands exactly the old one to the caller |
| McpManager.Manager.EnsureConnection | agent_gateway/internal/runtime/mcp/manager.go:348-367 | the entry for a key is created, or renamed when the configuration has a name |
| McpManager.Manager.SetConnectingLocked | agent_gateway/internal/runtime/mcp/manager.go:246-264 | refuses once closed, otherwise records Connecting and keeps client and tools |
| McpManager.Manager.ReplaceConnectedLocked | agent_gateway/internal/runtime/mcp/manager.go:266-298 | installs client, tools and a Connected status, and returns the client it replaces |
| McpManager.Manager.RecordFailureLocked | agent_gateway/internal/runtime/mcp/manager.go:300-314 | records the failure without touching client or tools, and nothing once closed |
| McpManager.Manager.CloseServerLocked | agent_gateway/internal/runtime/mcp/manager.go:316-338 | detaches the client for the caller to close and clears the tools |
| McpManager.Manager.CloseLocked | agent_gateway/internal/runtime/mcp/manager.go:196-220 | marks everything closed and returns each installed client once, in the order the map is ranged over |
| McpManager.Manager.BeginCall | agent_gateway/internal/runtime/mcp/manager.go:80-102 | counts a call in flight exactly when it gets a client |
| Schedule.CronSearchIsExact | agent_gateway/internal/runtime/scheduler/schedule.go:45-68 | nextCron answers the least whole minute strictly after the instant at which all five fields match, and fails exactly when the expression is malformed or there is none within two years |
| Schedule.CronEnumerates | agent_gateway/internal/runtime/scheduler/schedule.go:45-68 | iterating the search lists every matching minute in order, none skipped |
| Schedule.CronTextMeans | agent_gateway/internal/runtime/scheduler/schedule.go:70-170 | for every five lists of items, their text parses and the result matches a minute exactly when each clock field lies in the union its list denotes (day of month and weekday both required) |
| CronText.CronMeans | agent_gateway/internal/runtime/scheduler/schedule.go:70-170 | for every accepted expression, however its fields are spelled (signs, leading zeros, any white space between them), as long as no step overflows: it matches a minute if and only if each clock field is selected by a token of its own field |
| CronText.CronAcceptedIff | agent_gateway/internal/runtime/scheduler/schedule.go:83-170 | an expression is accepted if and only if it has five fields, each a comma-separated list of well-formed tokens within that field's limits |
| CronText.AcceptedIff | agent_gateway/internal/runtime/scheduler/schedule.go:119-170 | for every text, the field parser accepts it if and only if it spells such a list |
| CronText.AcceptedMeans | agent_gateway/internal/runtime/scheduler/schedule.go:119-170 | a value within the limits matches an accepted field if and only if one of its tokens stands for it, as long as no step overflows |
| CronText.TokenParses | agent_gateway/internal/runtime/scheduler/schedule.go:119-170 | a well-formed token, in any spelling, is accepted exactly when its bounds are within the limits, and gives those bounds |
| Schedule.NextCron | agent_gateway/internal/runtime/scheduler/schedule.go:45-68 | the cursor loop computes that search |
| Schedule.Scan | agent_gateway/internal/runtime/scheduler/schedule.go:45-68 | the loop stops at the first matching minute before the limit |
| Schedule.SearchIsNonempty | agent_gateway/internal/runtime/scheduler/schedule.go:45-68 | the two-year search interval always contains its first minute |
| Schedule.NextRunIsLater | agent_gateway/internal/runtime/scheduler/schedule.go:11-43 | every kind of schedule answers an instant strictly later than the one asked about, or none |
| Schedule.CronSearchFindsLater | agent_gateway/internal/runtime/scheduler/schedule.go:45-68 | the cron search answers strictly later instants, as the two rows around this one assume of it |
| Schedule.CompletionIsLater | agent_gateway/internal/runtime/scheduler/runner.go:67-112 | a completion reschedules strictly after its finish time or not at all; exactly the one-time tasks are disabled or deleted |
| Schedule.CronPlanIsNextHit | agent_gateway/internal/runtime/scheduler/schedule.go:38-68 | a cron plan's next run is the first minute after the instant at which its expression matches, and an error exactly when that is malformed or there is none before the limit |
| Schedule.OtherPlansAnswer | agent_gateway/internal/runtime/scheduler/schedule.go:22-43 | an at plan answers its own time if and only if that is later, an every plan the end of its period; a plan without time, period or known kind is an error |
| Schedule.CompletionIs | agent_gateway/internal/runtime/scheduler/runner.go:67-112 | an at task is deleted if and only if it asks for that and disabled otherwise, other tasks neither; a run is ok if and only if the agent did well and a next run that is due could be computed |
| Schedule.LimitsAreTheClocks | agent_gateway/internal/runtime/scheduler/schedule.go:70-117 | a field's limits are exactly the values its clock field ever takes |
| Schedule.SearchGoesTwoYears | agent_gateway/internal/runtime/scheduler/schedule.go:45-68 | the search ends at the same date and time two years after its first minute, unless that is a 29 February |
| Schedule.StoredNextRun | agent_gateway/internal/repositories/schedule_task_repository.go:80-86 | the stored milliseconds are still later than the finish time exactly when the period reaches the next millisecond |
| Schedule.StoredMinute | agent_gateway/internal/repositories/schedule_task_repository.go:80-86 | a cron minute survives the conversion to milliseconds |
| Cron.CollectedIsExact | agent_gateway/internal/runtime/scheduler/schedule.go:119-170 | the range loop collects what start-end/step stands for if and only if adding the step to the last value does not overflow 64 bits |
| Cron.OverflowingStepMatchesMore | agent_gateway/internal/runtime/scheduler/schedule.go:119-170 | the field 5/9223372036854775807 also matches 3 and 1 |
| Cron.FieldRoundTrip | agent_gateway/internal/runtime/scheduler/schedule.go:119-170 | parsing the text of a list of items gives a matcher for exactly the union of what they denote |
| Cron.TokenRoundTrip | agent_gateway/internal/runtime/scheduler/schedule.go:119-170 | each item's text parses back to its bounds and step |
| Cron.CollectRange | agent_gateway/internal/runtime/scheduler/schedule.go:119-170 | the inner loop adds exactly the collected range to the set, wrap-around included |
| Cron.ParseCronField | agent_gateway/internal/runtime/scheduler/schedule.go:119-170 | the token loop computes the field's matcher or its first error |
| Calendar.DateRoundTrip | agent_gateway/internal/runtime/scheduler/schedule.go:70-81 | dates and day numbers correspond one to one, so the day and month the matcher reads are those of the calendar |
| Calendar.AddYearsIsLater | agent_gateway/internal/runtime/scheduler/schedule.go:45-68 | two calendar years later is later |
| Calendar.WeekdaysAreAnchored | agent_gateway/internal/runtime/scheduler/schedule.go:70-77 | weekdays follow each other, and 1 January 1970 was a Thursday |
| Calendar.YearsInDays | agent_gateway/internal/runtime/scheduler/schedule.go:70-81 | the days before a year in closed form: every fourth year is a leap year, but only every fourth century |
| Search.IterationEnumerates | agent_gateway/internal/runtime/scheduler/schedule.go:45-68 | any exact next-minute search enumerates, when iterated, all accepted minutes in order |
| Scheduler.RelockNeedsRearm | agent_gateway/internal/repositories/schedule_task_repository.go:36-78 | between two successful locks of a task some step stored a next_run_at for it, whatever else ran |
| Scheduler.OverlapIff | agent_gateway/internal/runtime/scheduler/scheduler.go:78-186 | in every run, two executions of a task become possible if and only if a recovery or an administrator arms the enabled task while an execution of it is in flight |
| Scheduler.NeverTwoUntilRearmed | agent_gateway/internal/runtime/scheduler/scheduler.go:158-186 | in every run in which that has not happened, the task never has two executions in flight |
| Scheduler.OverlapStepIff | agent_gateway/internal/runtime/scheduler/scheduler.go:158-186 | from at most one execution, a step makes two if and only if it is a successful lock while one is in flight |
| Scheduler.NeverTwoInFlight | agent_gateway/internal/runtime/scheduler/scheduler.go:158-186 | so without an administrator or a second Start a task never has two executions in flight |
| Scheduler.AtTaskRunsAtMostOnce | agent_gateway/internal/runtime/scheduler/scheduler.go:78-101 | without an administrator an at task executes at most once, however often the scheduler starts |
| Scheduler.RestartLosesAtIff | agent_gateway/internal/runtime/scheduler/scheduler.go:78-101 | which at tasks a restart loses: with no lock pending, an enabled at task can still start in some run without an administrator if and only if its time is later than the moment of recovery |
| Scheduler.RecoveryKeepsAtIff | agent_gateway/internal/runtime/scheduler/scheduler.go:78-101 | after recovery has written an unchanged enabled at task, it is armed if and only if its time, which is its own next_run_at, is still to come |
| Scheduler.UnarmedAtIsOver | agent_gateway/internal/runtime/scheduler/scheduler.go:78-186 | from an unarmed at task no list of steps without an administrator arms it or takes another lock on it |
| Scheduler.FailedReadBackStrands | agent_gateway/internal/repositories/schedule_task_repository.go:36-52 | a lock whose row cannot be read back is lost: until some step stores a next_run_at, the task stays unarmed and nothing starts beyond locks that were pending before |
| Scheduler.SpendStep | agent_gateway/internal/repositories/schedule_task_repository.go:36-52 | only a successful lock starts an execution, and it leaves the task unarmed |
| Scheduler.TaskRepository.DueTasks | agent_gateway/internal/repositories/schedule_task_repository.go:27-34 | exactly the rows that a lock at this time could take |
| Scheduler.TaskRepository.TryLockUpdate | agent_gateway/internal/repositories/schedule_task_repository.go:36-52 | the test-and-clear on next_run_at takes the row exactly when it is enabled, armed and due |
| Scheduler.TaskRepository.CompleteTask | agent_gateway/internal/repositories/schedule_task_repository.go:54-72 | deletes, disables or reschedules the row as the completion says, and no other |
| Scheduler.StoredIsLockable | agent_gateway/internal/repositories/schedule_task_repository.go:36-78 | a stored next run makes an enabled row, and no other, lockable from that whole millisecond on; storing none makes it unlockable |
| TaskRuns.FinishedCron | agent_gateway/internal/runtime/scheduler/runner.go:67-112 | when an enabled cron task has finished, its row can be locked from exactly the first minute after that at which its expression matches, or never if there is none |
| TaskRuns.FinishedAt | agent_gateway/internal/runtime/scheduler/runner.go:91-100 | an at task is gone after its run if and only if it asked for that, and otherwise disabled; no lock takes it again |
| TaskRuns.FinishedEvery | agent_gateway/internal/runtime/scheduler/runner.go:102-112 | an enabled every task can be locked again from the millisecond its period ends in |
| TaskRuns.FinishedStatus | agent_gateway/internal/repositories/schedule_task_repository.go:54-72 | what a finished run records, and that it touches no other row |
| TaskRuns.RecoveredCron | agent_gateway/internal/runtime/scheduler/scheduler.go:78-101 | a restart gives an enabled cron task without a future run the first matching minute from then on, and leaves its row alone if none can be computed |
| TaskRuns.RecoveryKeepsFuture | agent_gateway/internal/runtime/scheduler/scheduler.go:78-101 | a restart keeps a next run that is still to come |
| TaskRuns.RecoveryReads | agent_gateway/internal/runtime/scheduler/scheduler.go:78-101 | a restart reads, and can write, exactly the enabled tasks |
| TaskRuns.ReadBackExecutes | agent_gateway/internal/repositories/schedule_task_repository.go:36-52 | a lock executes the task as its row then is, unless the row is gone |
| Wake.NoLostWakeUp | agent_gateway/internal/runtime/scheduler/scheduler.go:71-180 | while the loop waits on what it read before a change whose Wake returned, the channel holds a token; with no token and no Wake outstanding, what it read is current, CheckDue's own lock writes included |
| Wake.ChangeIsSeen | agent_gateway/internal/runtime/scheduler/scheduler.go:103-156 | a change whose Wake has returned is seen: the loop takes the token and then reads the store as it is |
| Wake.LoopCanCheck | agent_gateway/internal/runtime/scheduler/scheduler.go:103-127 | in every run the loop can go on to check what is due |
| Wake.RunKeeps | agent_gateway/internal/runtime/scheduler/scheduler.go:71-180 | the invariant behind it holds after every list of steps |
| Wake.DelayUntilNext | agent_gateway/internal/runtime/scheduler/scheduler.go:129-156 | the delay reaches exactly to the earliest armed task, zero if it is due, an hour if none is armed, a minute if they cannot be listed |
| Wake.SchedulerLoop.Start | agent_gateway/internal/runtime/scheduler/scheduler.go:41-58 | at most one loop is ever live: a new one exactly when none was and recovery succeeds, and a failing recovery leaves none |
| Wake.SchedulerLoop.Stop | agent_gateway/internal/runtime/scheduler/scheduler.go:60-69 | afterwards no loop that was ever started is live, however often it is called |
| Wake.SchedulerLoop.Wake | agent_gateway/internal/runtime/scheduler/scheduler.go:71-76 | the send that gives up on a full slot is exactly one wake step of the protocol, so its invariant is kept |
| Wake.SchedulerLoop.TakeToken | agent_gateway/internal/runtime/scheduler/scheduler.go:103-127 | the receive is exactly one receive step of the protocol; a token taken sends the loop back to reading |
| ReactLoop.ReactLoop.Run | agent_server/internal/agent/react_loop.go:61-128 | every run that is not blocked ends Finished: its events follow the protocol, each request repeats the whole log, each round handles exactly the calls of its stream, the last stream decides the ending, and the provider is called at most maxToolRounds+1 times; a blocked run only reports RunFailed; over all runs on the loop, every approved execution stays justified |
| ReactLoop.ReceivedEvents | agent_server/internal/agent/react_loop.go:61-128 | the listener gets at most one terminal event with nothing after it, and without cancellation exactly one, after RunStarted; each handled call is completed exactly once, in order, under its own id, or under none if its tool is unknown |
| ReactLoop.RequestsArePaired | agent_server/internal/agent/react_loop.go:68-125 | from a paired history, in every request the loop sends, each round's calls are followed by exactly one output per call, same ids, same order, ids non-empty and distinct |
| ReactLoop.RequestsCarryResults | agent_server/internal/agent/react_loop.go:109-124 | every request carries the history and then, for each round so far, what the model said and for each call the encoding of the very result its completion event reported, under the call's id |
| ReactLoop.ReactLoop.ExecuteWithApproval | agent_server/internal/agent/react_loop.go:349-402 | a cached call runs once, approved, unasked; any other is tried first and asked about exactly when its tool wants approval, can be approved and there is an approver; a yes runs it again, approved, anything else refuses it; the result is that of the last execution |
| ReactLoop.ReactLoop.RunTool | agent_server/internal/agent/react_loop.go:196-247 | exactly one completion per call, last, with the call's own result, whatever hooks, approver and tool do; the tool runs if and only if the call was not refused and its tool is known; hooks may rename a call but not change its id |
| ReactLoop.ReactLoop.BeforeToolCall | agent_server/internal/agent/react_loop.go:249-280 | the call is refused if and only if the hooks fail or block, or ask when there is no approver, or the approver they ask fails or denies; any other answer lets it through; the approver is asked exactly when hooks ask and there is one |
| ReactLoop.CancelledIff | agent_server/internal/agent/react_loop.go:81-128 | every run that is not blocked ends cancelled if and only if some event of its last stream was taken after the cancellation; every earlier stream, and the last one of a run that completes, was read to its end before it |
| ReactLoop.ReactLoop.ReadStream | agent_server/internal/agent/react_loop.go:81-101 | collects the deltas and calls of the stream up to its first failure or the first event taken after a cancellation; it ends cancelled if and only if there was such an event, and otherwise every event was read or the stream failed |
| ReactLoop.ReactLoop.RunCalls | agent_server/internal/agent/react_loop.go:109-124 | each call is handled in order and answered in the log under its own id with the encoding of its own result |
| ReactLoop.ReactLoop.RunRound | agent_server/internal/agent/react_loop.go:70-125 | one pass either extends the run by a complete round or finishes it |
| ReactLoop.ReactLoop.CallProvider | agent_server/internal/agent/react_loop.go:71-79 | the request carries the whole log; the stream is the assembled one, cut short only by cancellation |
| ReactLoop.ReactLoop.Remember | agent_server/internal/agent/react_loop.go:379-398 | an always answer, and nothing else, enters the cache, under a non-empty key |
| ReactLoop.ReactLoop.constructor | agent_server/internal/agent/react_loop.go:28-46 | a non-positive round limit means 8; the approval cache starts empty |
| ReactLoop.Listener.Emit | agent_server/internal/agent/react_loop.go:432-442 | an event can be dropped only once the run is cancelled |
| ReactLoop.Finish | agent_server/internal/agent/react_loop.go:127-128 | a stream that ends the run completes the trace |
| RunTrace.EventsAreFramed | agent_server/internal/agent/react_loop.go:61-128 | in a trace RunStarted is first and only there, the terminal event last and only there |
| RunTrace.OneCompletionPerCall | agent_server/internal/agent/react_loop.go:196-247 | a trace's completions are, round by round and in order, one for each handled call, with its id, or none for an unknown tool |
| RunTrace.CallIsOrdered | agent_server/internal/agent/react_loop.go:196-247 | a call ends with its completion, is started unless refused, and is told a decision exactly when there was one, right behind its question and after its start |
| RunTrace.TextIsHeard | agent_server/internal/agent/react_loop.go:81-101 | a run tells every text delta it read, once and in order |
| RunTrace.TerminalStaysLast | agent_server/internal/agent/react_loop.go:432-442 | dropping events leaves at most one terminal event, last |
| RunTrace.LogStaysPaired | agent_server/internal/agent/react_loop.go:109-124 | every log of complete rounds on a paired history is paired |
| ApprovalCache.CachedMeansSameTool | agent_server/internal/agent/react_loop.go:349-358 | when no registered name continues another after a NUL, a cached approval was given to this very tool with an equal key |
| ApprovalCache.KeysCollide | agent_server/internal/agent/react_loop.go:353 | two tools can share a cache key if and only if one's name continues the other's after a NUL |
| ApprovalCache.SoundGrows | agent_server/internal/agent/react_loop.go:349-402 | soundness of the approval history is kept by every justified entry |
| ResponsesStream.AssembledIdsAreGood | agent_server/internal/llm/openai_responses.go:352-430 | whatever the stream holds, the calls it emits have non-empty and pairwise distinct ids |
| ResponsesStream.ArgumentsAreKept | agent_server/internal/llm/openai_responses.go:368-396 | a call's arguments are its own deltas joined, starting over at each done event that repeats them, however calls interleave |
| ResponsesStream.EmittedArguments | agent_server/internal/llm/openai_responses.go:398-430 | an emitted call carries the arguments the stream spelled out for it so far |
| ResponsesStream.EmittedCallIs | agent_server/internal/llm/openai_responses.go:398-430 | an emitted call is what the stream said of it: its last call id or else the item's, the item id, its last name and its arguments |
| ResponsesStream.PlainEventsAreKept | agent_server/internal/llm/openai_responses.go:352-387 | besides calls, a stream emits exactly its non-empty text deltas, completions and failures, once each and in order |
| ResponsesStream.EmitsIff | agent_server/internal/llm/openai_responses.go:398-430 | for every stream: an event emits a call if and only if it is a done event at which the entry's name is known, and its id then (the last call id seen for it, else the item id) was used by no earlier such event of any entry |
| ResponsesStream.EmittedOnceIff | agent_server/internal/llm/openai_responses.go:398-430 | an item is emitted at most once if and only if all its done events that know its name, and whose id no other item has used before, agree on that id |
| ResponsesStream.CallCountIff | agent_server/internal/llm/openai_responses.go:398-430 | the same as a bound on the number of that item's calls that the listener gets |
| ResponsesStream.StreamState.EmitToolCall | agent_server/internal/llm/openai_responses.go:398-430 | the in-place table update computes that step |
| ResponsesStream.StreamState.HandleData | agent_server/internal/llm/openai_responses.go:352-387 | each decoded event has the specified effect on the tables and emits at most one completion event |
| ResponsesStream.StreamState.Call | agent_server/internal/llm/openai_responses.go:389-396 | finds or creates an item's entry |
| ResponsesInput.OpenAIInput | agent_server/internal/llm/openai_responses.go:190-231 | the nested loops translate message by message |
| ResponsesInput.RequestSays | agent_server/internal/llm/openai_responses.go:190-231 | for every log, the texts a request carries are exactly those of the messages without tool calls, in order |
| ResponsesInput.RequestReadsBack | agent_server/internal/llm/openai_responses.go:190-231 | reading a request back gives every call with its ids, name and arguments, every output with its call's id and every chat text under its role, in the order of the log |
| ResponsesInput.TextReachesIff | agent_server/internal/llm/openai_responses.go:190-231 | changing a message's text changes the request if and only if the message has no tool calls |
| ResponsesInput.RoundKeepsPairing | agent_server/internal/llm/openai_responses.go:190-231 | a complete round keeps a paired log paired, and one cut off before its last output does not |
| ResponsesInput.CallsThenOutputs | agent_server/internal/llm/openai_responses.go:190-221 | calls with good ids followed by outputs for a prefix of them are paired if and only if all have outputs |
| ResponsesInput.PairedThen | agent_server/internal/llm/openai_responses.go:190-231 | a paired list followed by anything is paired if and only if what follows is |
| Hooks.GuardedDispatch | agent_server/internal/hooks/builtin.go:27-145 | with arbitrary user hooks, if a file-write or shell dispatch ends in continue or modify, the event came in well-formed, its type is unchanged and the policy allows the request it carries in the end; it carries none exactly when the hooks have left its path or command empty |
| HookDecisions.SecurityDecides | agent_server/internal/hooks/builtin.go:27-52 | for every policy and every list of user hooks: a guarded event whose request the policy denies ends in block, one it asks about or answers in no known way in a request for approval, one without a request in block, each with the event unchanged and no user hook run |
| HookDecisions.LaterGuardDecides | agent_server/internal/hooks/builtin.go:65-92 | each later guard decides likewise on the request the event then carries, of any type, with no later hook run |
| HookDecisions.AllowedGoesOn | agent_server/internal/hooks/builtin.go:27-52 | a request the policy allows stops nothing |
| HookDecisions.DispatchInTwo | agent_server/internal/hooks/dispatcher.go:28-90 | dispatching to one list and then another is dispatching to both, unless the first one stopped |
| HookDecisions.OneHookAnswers | agent_server/internal/hooks/dispatcher.go:28-90 | what each answer of one hook makes of a dispatch; a failing hook and an unknown action block |
| HookDecisions.UnmatchedIsAbsent | agent_server/internal/hooks/dispatcher.go:28-45 | a hook that matches nothing is as good as absent |
| Hooks.SafeAloneIff | agent_server/internal/hooks/builtin.go:27-145 | a guarded dispatch with one user hook carries a request whenever it passes, under every policy, event and cancellation, if and only if the hook never leaves the path or command of a well-formed guarded event empty |
| Hooks.KeepingHooksAreSafe | agent_server/internal/hooks/builtin.go:27-145 | with any number of hooks that all keep that field, every dispatch that passes, under any policy and cancellation, ends with a well-formed event of the same type whose request the policy allows |
| Hooks.LosingHookPasses | agent_server/internal/hooks/builtin.go:61-92 | whenever a hook empties the field of an event the policy allows, the dispatch ends in modify without a request, since the guard does not match such an event |
| Hooks.InterleavedClears | agent_server/internal/hooks/builtin.go:84-92 | each user hook's changes are cleared by the guard behind it |
| Hooks.SecurityClears | agent_server/internal/hooks/builtin.go:27-52 | the security hook matches every guarded event and lets only well-formed, allowed ones pass |
| Hooks.GuardClears | agent_server/internal/hooks/builtin.go:65-82 | an event that passes a guard, or that the guard does not match, is cleared |
| Hooks.PatchOrderMatters | agent_server/internal/hooks/dispatcher.go:92-132 | the entries of a whole patch map give every event the same result in each of their orders if and only if they are pairwise independent: none is data holding another one's key with a different value |
| Hooks.PatchEvent | agent_server/internal/hooks/dispatcher.go:92-132 | applies the entries one by one in the order given, on a copy |
| Hooks.Dispatcher.Dispatch | agent_server/internal/hooks/dispatcher.go:28-90 | the loop computes the fold over the matching hooks: modify patches and continues, block, approval, failure and unknown actions stop, cancellation is an error |
| Hooks.DispatchKeepsKind | agent_server/internal/hooks/dispatcher.go:28-132 | no hook can change the event's type |
| Hooks.Dispatcher.constructor | agent_server/internal/hooks/dispatcher.go:13-19 | nil hooks are skipped, the others kept in order |
| Approval.DecidedOnce | agent_gateway/internal/runtime/acp/approval.go:66-160 | in every interleaving at most one Decide per record succeeds, the send under the lock never finds the channel full, and a selected option was offered |
| ApprovalOutcome.EntryOutcome | agent_gateway/internal/runtime/acp/approval.go:121-155 | a closed record answers with what it is; a cancellation, or a chosen option that was offered, settles and sends it once; any other choice leaves it pending |
| ApprovalOutcome.TableOutcome | agent_gateway/internal/runtime/acp/approval.go:121-155 | an unknown id is not found, and only the record decided on can change |
| ApprovalOutcome.WordsMean | agent_gateway/internal/runtime/acp/approval.go:162-188 | each decision word picks the first option of its own two kinds, in its own order; any other word is an option id |
| ApprovalOutcome.WordsKeepSides | agent_gateway/internal/runtime/acp/approval.go:162-188 | a word that says yes never picks an option that rejects, nor the other way round |
| ApprovalOutcome.SettledIsReleased | agent_gateway/internal/runtime/acp/approval.go:66-93 | in every run a waiting request can return exactly when its record is settled, and returns that record |
| ApprovalOutcome.WaitingCanGiveUp | agent_gateway/internal/runtime/acp/approval.go:84-93 | in every run a waiting request can give up, leaving its record cancelled unless another decision came first |
| ApprovalOutcome.OpenedWaits | agent_gateway/internal/runtime/acp/approval.go:66-82 | a new request waits on a pending record with its options |
| Approval.SettledIsFinal | agent_gateway/internal/runtime/acp/approval.go:121-160 | a record that has left pending never changes again |
| Approval.ReleasedSeesDecision | agent_gateway/internal/runtime/acp/approval.go:66-93 | a request released by its channel returns the recorded decision, now and ever after |
| Approval.InvalidOptionStamps | agent_gateway/internal/runtime/acp/approval.go:121-150 | a Decide is refused for its option exactly when it is no cancellation and the option was not offered; the record stays pending but its decision time and message are overwritten |
| Approval.CancelledRequestDisagreesIff | agent_gateway/internal/runtime/acp/approval.go:84-93 | in every run, a request that gave up finds its record selected, then and ever after, if and only if a Decide settled it on an offered option before the request's own cancellation took the lock; otherwise it is cancelled |
| Approval.ChooseOption | agent_gateway/internal/runtime/acp/approval.go:162-188 | the nested search computes that choice; any other word is taken as an option id |
| Approval.FindKind | agent_gateway/internal/runtime/acp/approval.go:162-188 | the inner loop finds the first option of a kind |
| Approval.ApprovalBroker.Decide | agent_gateway/internal/runtime/acp/approval.go:121-160 | one lock region: not found, already decided, invalid option, cancelled or selected, and the new record table in each case; no record is decided twice and the send never finds the channel full |
| Approval.ApprovalBroker.DecidePending | agent_gateway/internal/runtime/acp/approval.go:133-155 | what a Decide does to a pending entry |
| Approval.ApprovalBroker.Register | agent_gateway/internal/runtime/acp/approval.go:66-82 | a registered request has not been decided, and every record stays pending or decided exactly once with its channel holding the final record; other records are untouched |
| Jsonl.ReplayIsLive | agent_gateway/internal/store/jsonl.go:68-308 | loading the file of any history of writes gives the live table with no issues if every line fits the scanner's 64 KiB buffer, and otherwise the store does not open |
| Jsonl.WriteKeepsSync | agent_gateway/internal/store/jsonl.go:200-308 | from any table its file rebuilds, an appended write is rebuilt too if and only if its line fits, and an unappended one if and only if it changed nothing; for messages and audit events never |
| JsonlFiles.LoadIs | agent_gateway/internal/store/jsonl.go:172-198 | loading any file, whoever wrote it, fails if and only if a line is too long or decodes to an item without its ids; otherwise undecodable lines are listed by number and the table is the index of all the other items |
| Jsonl.JSONLStore.Write | agent_gateway/internal/store/jsonl.go:220-308 | memory first, then the file: the exact new tables and lines, and when the two stay in step |
| Jsonl.JSONLStore.LoadKind | agent_gateway/internal/store/jsonl.go:87-198 | reads one file: blank lines skipped, undecodable ones recorded by number, an overlong line or a refused item ends the load |
| Jsonl.JSONLStore.LoadAll | agent_gateway/internal/store/jsonl.go:38-85 | opening succeeds if and only if all five files load, and then memory is what they rebuild |
| Jsonl.JSONLStore.HandleLine | agent_gateway/internal/store/jsonl.go:172-198 | one scanned line changes only its own kind's table |
| Store.TableIsIndex | agent_gateway/internal/store/memory.go:31-209 | replaying any log of writes gives the latest value under each written key, keys once each in the order of first write, and the unkeyed entries in order |
| Store.TableGrows | agent_gateway/internal/store/memory.go:31-209 | a write changes the table of its own kind only |
| Store.PrepareIs | agent_gateway/internal/store/memory.go:31-209 | what an accepted item is kept as and under: a conversation under its session, a run under its run id, an approval under its own id, with only a missing id filled in; refused exactly without the ids it needs |
| Store.LastWriteIsFound | agent_gateway/internal/store/memory.go:31-209 | what was accepted last under a key is what its table holds there |
| Store.SessionListIs | agent_gateway/internal/store/memory.go:102-117 | a session's list is exactly its messages |
| Store.MemoryStore.UpsertConversation | agent_gateway/internal/store/memory.go:31-55 | either id stands in for the other; the store stays the index of everything written; refused exactly without an id |
| Store.MemoryStore.UpsertRun | agent_gateway/internal/store/memory.go:119-143 | the same for runs, which also need a session |
| Store.MemoryStore.UpsertApproval | agent_gateway/internal/store/memory.go:163-179 | the same for approvals, which need four ids |
| Store.MemoryStore.AppendMessage | agent_gateway/internal/store/memory.go:87-100 | messages are appended in order, refused without id or session |
| Store.MemoryStore.AppendAudit | agent_gateway/internal/store/memory.go:196-209 | audit events are appended in order, refused without id |
| Store.MemoryStore.ListConversations | agent_gateway/internal/store/memory.go:57-70 | a copy of each row in first-write order, and no ordered key is missing from the map |
| Store.MemoryStore.ListMessages | agent_gateway/internal/store/memory.go:102-117 | copies of the session's messages, in order |
| RotatingLog.RotationKeepsSuffix | agent_server/internal/audit/logger.go:124-196 | from whatever files exist, after any writes they hold, oldest backup to current, an unbroken suffix of what they held and everything written, ending with the last record, in whole records; each file stays within maxBytes unless it is one oversized record, none was closed before it was full, and no gap appears among the backups |
| RotatingLog.DropsOnlyOldest | agent_server/internal/audit/logger.go:168-196 | a rotation loses what the oldest backup held and nothing else; without one nothing is lost |
| RotatingLog.NamesAreInjective | agent_server/internal/audit/logger.go:207-211 | no two files of one log share a path |
| RotatingLog.RotatedIs | agent_server/internal/audit/logger.go:207-211 | the number goes before the extension, or to the end of a name without one |
| RotatingLog.RotatedPathsDiffer | agent_server/internal/audit/logger.go:207-211 | a rotated path differs from the log's own and from every other index's |
| RotatingLog.RotatingWriter.Write | agent_server/internal/audit/logger.go:124-142 | the record goes whole to the current file, after a rotation if it would not fit; without a path nothing is written; no other file changes |
| RotatingLog.RotatingWriter.Rotate | agent_server/internal/audit/logger.go:172-196 | the current file is empty and every other age has what the age below it had, gaps included |
| RotatingLog.RotatingWriter.ShiftBackups | agent_server/internal/audit/logger.go:172-196 | the descending renames move every file one age up and overwrite none |
| RotatingLog.RotatingWriter.EnsureOpen | agent_server/internal/audit/logger.go:144-166 | opens or creates the current file and reads its size |
| RotatingLog.RotatingWriter.constructor | agent_server/internal/audit/logger.go:110-122 | the defaults of 100 MiB and 5 backups, on any existing files |
| SkillMarkdown.RoundTrip | agent_server/internal/skills/frontmatter.go:14-86 | for every accepted name a written skill file reads back as it was (body with leading line breaks stripped and a newline added) if and only if the description is trimmed, non-empty and free of quotes, backslashes and line breaks and the stripped body has no carriage return |
| SkillMarkdown.WrittenIsReadBack | agent_server/internal/skilltools/tools.go:461-470 | without carriage returns in the description, exactly what is read back: the escaped description, trimmed, which the reader does not unescape |
| SkillMarkdown.ReadDescriptions | agent_server/internal/skills/frontmatter.go:14-76 | no file at all reads back with a description that has a line break or outer white space |
| SkillReader.FileReadsAs | agent_server/internal/skills/frontmatter.go:14-56 | a file with a closed header reads as that header's name and description and the rest as its body, and is refused only for a bad line or a missing one of the two |
| SkillReader.AcceptedHasHeader | agent_server/internal/skills/frontmatter.go:14-35 | every accepted file has such a header |
| SkillReader.LineMeans | agent_server/internal/skills/frontmatter.go:58-76 | a header line sets its key to the trimmed, unquoted rest, over any earlier value; blank lines and comments do nothing; any other line is an error |
| SkillReader.UnquoteIff | agent_server/internal/skills/frontmatter.go:78-86 | only a matching pair of single or double quotes is taken off |
| SkillReader.BreaksMakeNoDifference | agent_server/internal/skills/frontmatter.go:14-18 | the style of line breaks and a byte order mark make no difference |
| SkillReader.NameIsAcceptedIff | agent_server/internal/skilltools/tools.go:444-459 | which names are accepted, exactly |
| SkillMarkdown.SafeSkillDirName | agent_server/internal/skilltools/tools.go:444-459 | an accepted name is the trimmed input, made of name characters, without two dots in a row |
| SkillMarkdown.ParseSimpleYAML | agent_server/internal/skills/frontmatter.go:58-76 | the loop over the header lines computes the values, or stops at the first bad line |
| SkillMarkdown.ParseLine | agent_server/internal/skills/frontmatter.go:58-76 | blank and comment lines are skipped; a line needs a colon and a key; the value is trimmed and unquoted |
| SkillMarkdown.TrimmedEscapeIff | agent_server/internal/skilltools/tools.go:465-470 | escaping and trimming gives a description back if and only if it is plain |
| SkillMarkdown.UnixIsIdentityIff | agent_server/internal/skills/frontmatter.go:14-17 | normalising line breaks changes exactly the texts with a carriage return |
| UniqueIds.NormalisingIsIdempotent | agent_chat/internal/bridge/settings.go:438-557 | for each of the four lists the normalised ids are pairwise distinct, and normalising the result again changes no field of any item |
| UniqueIds.SettingsAreStable | agent_chat/internal/bridge/settings.go:395-557 | channels, MCP servers, agents and schedule tasks all have the item-wise stability that needs |
| UniqueIds.McpChangesIff | agent_chat/internal/bridge/settings.go:438-557 | normalising an MCP server changes nothing but its id if and only if its name is a trimmed non-blank one, its command trimmed and its arguments trimmed and non-blank; so nothing given is lost |
| UniqueIds.AgentChangesIff | agent_chat/internal/bridge/settings.go:438-557 | the same for agents |
| UniqueIds.TaskChangesIff | agent_chat/internal/bridge/settings.go:438-557 | the same for schedule tasks, with the default schedule for a blank one |
| UniqueIds.ChannelChangesIff | agent_chat/internal/bridge/settings.go:438-557 | the same for channels, whose kind must be one of three |
| UniqueIds.AskedIdIs | agent_chat/internal/bridge/settings.go:438-557 | an item asks for the id it has, trimmed, or a numbered one, or for a channel its kind |
| UniqueIds.RepeatsAreNumbered | agent_chat/internal/bridge/settings.go:415-436 | of three items asking for the same id the first keeps it and the others get 2 and 3 |
| UniqueIds.IdsAreDistinct | agent_chat/internal/bridge/settings.go:415-455 | for every input list the ids are pairwise distinct |
| UniqueIds.KeptIffFree | agent_chat/internal/bridge/settings.go:415-455 | an item keeps the id it asks for if and only if no earlier item ended up with it |
| UniqueIds.DistinctIdsAreKept | agent_chat/internal/bridge/settings.go:415-455 | distinct ids are left alone |
| UniqueIds.Allocator.EnsureUnique | agent_chat/internal/bridge/settings.go:415-436 | the counters only skip taken suffixes: the id is the base, or the base with the least free suffix from 2 on |
| UniqueIds.Allocator.FirstFree | agent_chat/internal/bridge/settings.go:427-435 | the suffix search terminates, since candidates are pairwise distinct and the used ids finite, at the least free suffix |
| UniqueIds.Normalise | agent_chat/internal/bridge/settings.go:438-557 | the loop over a list computes its normal form |
| UniqueIds.SearchProgresses | agent_chat/internal/bridge/settings.go:427-435 | each taken candidate that is passed leaves fewer used ids in the way |
| UniqueIds.CandidateInjective | agent_chat/internal/bridge/settings.go:428 | different suffixes give different candidates |

## Left out

- BusProtocol.ExactHandover: says nothing about the order in which overlapping Publish calls reach one subscriber, because delivery happens after the bus lock is released.
- EventBus.Bus.Publish: the sequential case; overlapping calls are the subject of BusProtocol.
- ClientResume.ResumeIsExact: assumes one gateway lifetime, non-overlapping publishes and unique, non-blank event ids; the filter of each connection is arbitrary; the client's backoff, authentication retries and the reset of its id by a restarted gateway are not modelled.
- ReactLoop.ReactLoop.Run: hooks that only observe (after-run, on-error), audit logging, timestamps and event payloads beyond ids, names, decisions and results are not modelled.
- ReactLoop.ReactLoop.RunTool: results and error texts are opaque; JSON encoding of a result is an arbitrary function of it.
- ReactLoop.ReactLoop.CallProvider: only the Responses provider, whose stream is the assembled one; retries, HTTP and server-sent-event framing are not modelled.
- Jsonl.ReplayIsLive: takes the JSON codec as faithful for what the store writes, and an append as all or nothing.
- Jsonl.JSONLStore.Write: stands for the store's five write methods, which differ only in their types; context errors and file system errors other than a failed append are not modelled.
- Store.MemoryStore.ListConversations: the run, approval and audit lists are the same loops and are not repeated.
- RotatingLog.RotatingWriter.Write: no file system errors and no path separator but `/`. Backups numbered above maxBackups, from an earlier and larger setting, are never touched and are not counted among the files.
- Scheduler.NeverTwoInFlight: the special case for runs without recovery and administrator; Scheduler.OverlapIff has no such restriction.
- Wake.DelayUntilNext: a scheduler without a store, which only sleeps, is not modelled.
- Schedule.CronSearchIsExact: one fixed zone with a whole-minute offset; zones with daylight saving are not modelled.
- Schedule.NextRunIsLater: durations are unbounded here, so the 64-bit overflow of an enormous `every` period is not modelled.
- Hooks.Dispatcher.Dispatch: result data and error texts of hooks are not modelled, and hooks are pure functions that do not write into the live data map.
- Hooks.GuardedDispatch: the policy's own risk tables are a parameter.
- Approval.ChooseOption: lower-casing is ASCII only, here and in UniqueIds.
- Approval.ApprovalBroker.Decide: List, Get, published events and response mapping are left out.
- McpManager.Manager.CloseLocked: status listeners run on their own goroutines and are left out; so are the checks on a configuration before it connects, which only choose between connecting and failing.
- SkillMarkdown.SafeSkillDirName: error texts are shortened, as elsewhere.
- UniqueIds.Normalise: one loop for the four normalisers, which differ in the fields they trim.
- ACP agent manager: the table of agent processes is not modelled.
- CRUD services, query building, configuration layering, proxies, the settings file format, the frontend and command lines would add only easy members.
