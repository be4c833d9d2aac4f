# Centre server: concurrency devices and in-memory tables

The centre server (`apps/server/src`) coordinates asynchronous handlers over one database and a set of in-memory
tables. This project models its hard parts in Dafny and proves what holds over every run.

Conventions used throughout:

- A handler is cut at every `await`; the code between two awaits is one atomic step. A committed transaction is one step,
  except in `Integrity`, where the statements of different transactions interleave under row locks.
- `Step(state, event)` is total: an event that the code would ignore leaves the state alone. `After(events)` folds it, so a
  statement about all `events` is a statement about all runs.
- Clocks, random values, generated ids, hashes, encryption, socket state and the outcome of a send are event parameters
  or function parameters. Freshness of generated ids is part of the step that uses them.
- History (logs, counters, sets of ids ever used) is kept in the state only to state properties.
- Objects that the source updates in place are classes. `Valid()` is the component's invariant, kept by every public
  method. A method `Drive` creates an object, feeds it any sequence of events and ends in the state `After(events)`, so
  the theorems about runs are theorems about the objects.

Components: prepared-operation delivery (`DeliveryRuntime`, `PreparedDelivery`, `DeliverySafety`); report convergence and
task lifecycle (`Convergence`, `Lifecycle`, `LifecycleSafety`, `Absence`); referential integrity (`Integrity`,
`IntegritySafety`); deleted tasks staying deleted (`TaskGuards`, `Resurrection`); subscribing (`Subscription`); the
per-daemon gate (`GenerationGate`); a socket's inbound queue (`InboundQueue`); tunnels, native channels and preview routes
(`Tunnels`, `Rendezvous`, `Routes`); native login (`NativeLogin`); resync snapshots (`Resync`); the rate limiter
(`RateLimiter`); credential merging (`Credentials`). `Store` holds the rows and statements they share, `Sets` a cardinality lemma.

## Where the code does less than its comments say

Each of these is kept as the code has it. The first lemma named shows a failing run or input, the second gives the
condition under which the promise holds, and no other.

- The completion token is checked inside `stableAdmitted` and `readActiveOperation`, but their callers await that result
  once more. An operation retired in between is still handed over: `LateHandoverHappens`, `RevivedExactlyByLateHandover`.
- The query for a session's latest operation orders by creation time in milliseconds. On a tie the exit tombstone can pick
  the wrong row and be lost: `TombstoneLostOnTie`, `TombstoneSafeExactly`.
- Three handlers show a task without a guard, and only they can show a deleted one: `ResurrectionHappens`,
  `ResurrectedExactlyByUnguarded`.
- A send that throws loses its frame, or all that is left of a replay, and leaves the connection open, so that a
  subscriber can stay behind: `FrameLostHappens`, `BehindExactly`.
- The last-resort preview label is used without checking that it is free: `ClashHappens`, `MapsAreInverse`.
- A one-time login code that is already in use replaces the index entry of the other request: `SameCodeClashes`,
  `CodesAndApprovalsBiject`.
- Credential names are looked up in a plain object, so names that every object inherits count as stored:
  `InheritedNameLosesCiphertext`, `UnreadableSurvivesExactly`.
- In `mergeExecutorSettings` itself a provider named `__proto__` never keeps a key; whether the request schema in front of
  it lets that name through is not modelled: `ProtoKeyIsLost`, `FoldExactly`.

One check is without effect: the byte budget of a resync snapshot never refuses a list that the other limits accept
(`BudgetNeverBinds`).

## Model

| member | source | states |
|---|---|---|
| `DeliveryRuntime.DeliveryService.Complete` | apps/server/src/prepared-operation.service.ts:188-192 | completing an operation moves the completion token and leaves neither retry nor waiter of it |
| `DeliveryRuntime.DeliveryService.CancelMany` | apps/server/src/prepared-operation.service.ts:218-235 | a nonempty batch is retired as one, with one token change; an empty one changes nothing |
| `DeliveryRuntime.DeliveryService.CollectDue` | apps/server/src/prepared-operation.service.ts:237-259 | the due set is exactly the due retries and the due waiters, taken before anything is cancelled |
| `DeliveryRuntime.DeliveryService.ExpireDueItems` | apps/server/src/prepared-operation.service.ts:237-259 | the token moves and exactly the due operations are forgotten |
| `DeliveryRuntime.DeliveryService.AddWatch` | apps/server/src/prepared-operation.service.ts:261-291 | one waiter more for the operation unless that client already waits or the service stopped; all others untouched |
| `DeliveryRuntime.DeliveryService.DispatchOne` | apps/server/src/prepared-operation.service.ts:423-466 | a dispatch makes every earlier attempt for its operation stale and leaves the attempts for all others current |
| `DeliveryRuntime.DispatchSupersedes` | apps/server/src/prepared-operation.service.ts:423-466 | attempt numbers are never reused, so a retry timer of a superseded attempt finds itself stale; retries of other operations are not disturbed |
| `DeliveryRuntime.DeliveryService.RestoreListed` | apps/server/src/prepared-operation.service.ts:664-678 | the loop over restored rows dispatches each in order |
| `DeliveryRuntime.DeliveryService.SendReady` | apps/server/src/prepared-operation.service.ts:680-698 | the loop over ready rows emits each in order |
| `DeliveryRuntime.DeliveryService.HandleInstalled` | apps/server/src/prepared-operation.service.ts:700-730 | an acknowledgement ends the retry and the waiting; on success each waiting client gets one frame, or the server's own operation one Execute |
| `DeliveryRuntime.DeliveryService.CancelDaemon` | apps/server/src/prepared-operation.service.ts:732-756 | every retry and waiter of the daemon goes, and the token moves |
| `DeliveryRuntime.DeliveryService.DropClient` | apps/server/src/prepared-operation.service.ts:758-767 | the client's waiters go, others stay |
| `DeliverySafety.StoppedStaysSilent` | apps/server/src/prepared-operation.service.ts:769-780 | in every run, after a shutdown nothing is retried or awaited and nothing is sent any more, whatever calls, answers, timers and resumptions still arrive |
| `DeliverySafety.RevivedExactlyByLateHandover` | apps/server/src/prepared-operation.service.ts:375-730 | over every interleaving a retired operation is delivered, dispatched, retried or awaited again if and only if a caller resumed from its own await after the retirement while the row it holds still called for action |
| `DeliverySafety.LateHandoverHappens` | apps/server/src/prepared-operation.service.ts:586-623 | a run of a prepare and a cancellation in which a retired operation is handed to a client |
| `DeliverySafety.NeverRevived` | apps/server/src/prepared-operation.service.ts:188-730 | in every run without a retirement inside that gap, retired operations stay silent |
| `DeliverySafety.AlwaysLogged` | apps/server/src/prepared-operation.service.ts:188-235 | in every run each retired operation has its retirement recorded among the messages, so that what is sent later can be told apart |
| `PreparedDelivery.Drive` | apps/server/src/prepared-operation.service.ts:140-780 | a service driven through any interleaving of calls, answers, timers and shutdown holds the token, retries, waiters and messages of that run |
| `Convergence.ExpireTargets` | apps/server/src/prepared-operation-convergence.service.ts:198-210 | expires exactly the open session.create operations on the given tasks and returns them |
| `Convergence.RemoveWorktree` | apps/server/src/prepared-operation-convergence.service.ts:183-219 | fails exactly on a row that contradicts the prepared version, otherwise removes a workspace, its tasks and their open operations |
| `Convergence.Converge` | apps/server/src/prepared-operation-convergence.service.ts:73-270 | a report that contradicts the stored rows or meets a database error commits nothing; an applied one was open before and is completed after; the written statements have the effect that the theorems on runs use |
| `LifecycleSafety.TaskRowsWellShaped` | apps/server/src/store.ts:975-1045 | in every reachable state a RUNNING row has a session and no exit code, an EXITED row no session |
| `LifecycleSafety.EffectAtMostOnce` | apps/server/src/store.ts:1258-1341 | an operation's effect commits at most once, and never after it was completed, failed or expired |
| `LifecycleSafety.NoPartialEffect` | apps/server/src/prepared-operation-convergence.service.ts:73-270 | a report that is not applied leaves every table as it was; marking it failed changes its own row only |
| `LifecycleSafety.OnlyReportReruns` | apps/server/src/prepared-operation-convergence.service.ts:231-247 | only the applied report of a session.create operation takes a row from EXITED to RUNNING |
| `LifecycleSafety.AbsenceKeepsExitCodes` | apps/server/src/store.ts:1028-1045 | convergence by absence never overwrites a recorded exit code |
| `LifecycleSafety.EveryStepEvolves` | apps/server/src/store.ts:1167-1360 | every transaction moves the operation table only as delivery assumes: identity fixed, terminal rows never reopened, ids never reused |
| `LifecycleSafety.BuriedExactly` | apps/server/src/hub.ts:1284-1342 | sessions whose exit tombstone converged stay dead in every run exactly when each such tombstone's latest-operation query found the open operation |
| `LifecycleSafety.CreationOrderSuffices` | apps/server/src/hub.ts:1284-1342 | strictly increasing creation times make every such query find it |
| `LifecycleSafety.TombstoneIsFinal` | apps/server/src/hub.ts:1284-1342 | under that order no row is ever bound to a buried session again |
| `LifecycleSafety.TombstoneLostOnTie` | apps/server/src/hub.ts:1284-1342 | a run with two operations created in the same millisecond that makes a row RUNNING on a session that had exited |
| `LifecycleSafety.TombstoneSafeExactly` | apps/server/src/hub.ts:1284-1342 | whatever row the query returns, the tombstone of an owned task's session leaves it dead exactly when the operation open for the session is strictly the newest of its task |
| `Absence.AbsentMeansDead` | apps/server/src/hub.ts:1378-1419 | in no run is a row marked exited by absence while its process is alive, whatever was started, rebound or ended between request, catalog and convergence |
| `Absence.RunningCauses` | apps/server/src/hub.ts:1244-1279 | a row becomes RUNNING on a session only by a device's own word about that session |
| `IntegritySafety.IntegrityAlwaysHolds` | apps/server/src/hub.ts:1512-1571 | for all interleavings of creating, moving and deleting transactions, committed rows never dangle, owners agree along every reference, and a device has at most one directory workspace |
| `IntegritySafety.LocateSafe` | apps/server/src/hub.ts:1710-1783 | moving a terminal to a known or newly registered workspace keeps the tables sound |
| `IntegritySafety.ForgetSafe` | apps/server/src/hub.ts:1823-1849 | moving a workspace's terminals to the main one and dropping it keeps them sound |
| `IntegritySafety.FinalizeSafe` | apps/server/src/hub.ts:2460-2486 | finishing a project deletion takes every child row with it |
| `IntegritySafety.EnsureDirectorySafe` | apps/server/src/hub.ts:3561-3588 | creating or reusing the directory workspace never makes a second one |
| `IntegritySafety.CreateTaskSafe` | apps/server/src/hub.ts:3749-3776 | a row is created only in a workspace that is still there |
| `IntegritySafety.RemoveWorkspaceSafe` | apps/server/src/hub.ts:3846-3872 | a removed workspace leaves no row behind |
| `IntegritySafety.RevokeSafe` | apps/server/src/hub.ts:4584-4600 | revoking a device takes all of its rows |
| `IntegritySafety.ImportSafe` | apps/server/src/prepared-operation-convergence.service.ts:98-152 | an imported project arrives with its main workspace |
| `IntegritySafety.AddWorktreeSafe` | apps/server/src/prepared-operation-convergence.service.ts:153-182 | an added worktree belongs to a project that is still active |
| `TaskGuards.EffectTable.Enter` | apps/server/src/hub.ts:752-760 | one guard more for the id |
| `TaskGuards.EffectTable.Leave` | apps/server/src/hub.ts:761-767 | exactly this guard goes, cancelled or not; the guards of every other task and the other guards of this one stay; no empty set is left behind |
| `TaskGuards.EffectTable.RetireTasks` | apps/server/src/hub.ts:837-859 | every guard of the batch is cancelled, then exactly the runtimes of the batch's own identity are dropped |
| `TaskGuards.EffectTable.Install` | apps/server/src/hub.ts:3126-3137 | a session id of another owner is never taken over |
| `Resurrection.NoRuntimeAfterRemoval` | apps/server/src/hub.ts:3922-3962 | once a removal is announced no runtime session of that id exists or comes back |
| `Resurrection.GuardedRunsAreQuiet` | apps/server/src/hub.ts:752-775 | no interleaving of guarded handlers and removals shows an id after its removal was announced |
| `Resurrection.ResurrectedExactlyByUnguarded` | apps/server/src/hub.ts:1791-1854 | it is shown again exactly when an unguarded handler shows it after the announcement |
| `Resurrection.ResurrectionHappens` | apps/server/src/hub.ts:1791-1854 | a run in which a removed and announced task is shown again |
| `Resurrection.Drive` | apps/server/src/hub.ts:752-859 | the guard table, driven through any run, holds the guards and runtimes of that run, with no empty set and no guard under two tasks |
| `Subscription.Subscriber.SendSocket` | apps/server/src/hub.ts:916-940 | true exactly when the frame went out within the buffer limit; otherwise the connection is closed or the frame is lost by a throwing send |
| `Subscription.Subscriber.Send` | apps/server/src/hub.ts:879-909 | true only when the frame is now last among what was delivered or waits in the backlog; otherwise the connection is closed, or the frame is lost and nothing else changed |
| `Subscription.Subscriber.ReplayBacklog` | apps/server/src/hub.ts:3318-3323 | the backlog is sent in order up to the first refused frame |
| `Subscription.SubscriberConverges` | apps/server/src/hub.ts:3245-3323 | for every interleaving of commits, broadcasts and table reads, a connected subscriber to which no send threw shows no less than was announced and no more than was committed, hence the last committed state once all is announced |
| `Subscription.BehindExactly` | apps/server/src/hub.ts:3245-3323 | in every run, whatever broadcasts, snapshot or rest of a replay throwing sends dropped and however often, a connected subscriber shows at least what was announced of an entity exactly when it shows at least the version last dropped of it; it never shows more than was committed |
| `Subscription.FrameLostHappens` | apps/server/src/hub.ts:933-939 | a run after which everything was announced and a connected subscriber shows an old state |
| `Subscription.Drive` | apps/server/src/hub.ts:879-940 | a connection driven through any run has the backlog and the delivered frames of that run |
| `Subscription.BacklogIsBounded` | apps/server/src/hub.ts:879-909 | backlog bytes equal the sum of its frames, both limits hold, and an overflow closes the connection |
| `GenerationGate.GateTable.Enqueue` | apps/server/src/hub.ts:1131-1141 | an arriving caller may enter at once if nobody is in line, otherwise it waits for exactly the last caller in line |
| `GenerationGate.GateTable.Release` | apps/server/src/hub.ts:1144-1151 | after a departure the next in line may enter, and the entry stays exactly if somebody is in line |
| `GenerationGate.MutualExclusion` | apps/server/src/hub.ts:1131-1152 | at most one caller per daemon is inside |
| `GenerationGate.FirstInFirstOut` | apps/server/src/hub.ts:1131-1152 | callers enter in arrival order and none is passed over |
| `GenerationGate.EntryExactlyWhileUsed` | apps/server/src/hub.ts:1129-1152 | the map entry exists exactly while some caller waits or is inside, and `users` is the number of those callers |
| `GenerationGate.HeadNeverBlocked` | apps/server/src/hub.ts:1141-1152 | the first caller in line is inside or can enter |
| `GenerationGate.NoSwapInsideTransaction` | apps/server/src/hub.ts:1156-1167 | shutdown aside, no connection is swapped or removed between the begin and the commit of a gated transaction |
| `GenerationGate.ClaimStaysCurrent` | apps/server/src/hub.ts:1156-1167 | the connection a transaction was begun for stays current while it runs, unless the hub shut down |
| `GenerationGate.Drive` | apps/server/src/hub.ts:1129-1152 | a gate table driven through any run is in the state of that run |
| `InboundQueue.Endpoint.OnMessage` | apps/server/src/transport.ts:131-160 | a frame joins the accepted ones with a handler running, or it is not accepted and nothing is queued or taken any more |
| `InboundQueue.Endpoint.OnClose` | apps/server/src/transport.ts:162-170 | nothing is queued or taken any more, and the close is handled or something runs that will get to it |
| `InboundQueue.HandledInWireOrder` | apps/server/src/transport.ts:66-171 | handled messages are a prefix of the accepted ones in wire order |
| `InboundQueue.OneHandlerAtATime` | apps/server/src/transport.ts:89-123 | at most one handler is in flight; starts and finishes alternate |
| `InboundQueue.QueueIsBounded` | apps/server/src/transport.ts:131-160 | the byte count is the sum of the queued frames and both limits hold |
| `InboundQueue.NoLostWakeup` | apps/server/src/transport.ts:89-123 | when nothing runs nothing is queued and a close has been handled |
| `InboundQueue.CloseHandledOnceAndLast` | apps/server/src/transport.ts:111-118 | after the close handler starts, only its own finish follows |
| `InboundQueue.RestartNeverNeeded` | apps/server/src/transport.ts:119-122 | the second look at the end of a drain never finds work |
| `InboundQueue.Drive` | apps/server/src/transport.ts:66-171 | an endpoint driven by any frames, closes and handler ends is in the state of that run |
| `Tunnels.TunnelRegistry.OpenTunnel` | apps/server/src/proxy.ts:359-405 | refused at capacity or on an empty or live id; otherwise in the table exactly if its proxyOpen was sent; every other entry is untouched |
| `Tunnels.TunnelRegistry.CloseAllForDaemon` | apps/server/src/proxy.ts:491-507 | exactly the daemon's entries leave, each settled if it was waiting |
| `Tunnels.TunnelRegistry.CloseAllForShortId` | apps/server/src/proxy.ts:510-527 | exactly the route's entries leave, each settled if it was waiting |
| `Tunnels.SettledExactlyOnce` | apps/server/src/proxy.ts:347-528 | in every run an accepted open is settled exactly once or is connecting, in the table and has its timer armed; true exactly for active entries |
| `Tunnels.WithinCapacity` | apps/server/src/proxy.ts:359-380 | live entries never exceed the capacity |
| `Tunnels.TunnelsConserved` | apps/server/src/proxy.ts:347-528 | every accepted open is in the table with its proxyOpen sent and no proxyClose, or left it exactly once by an event of the run about that tunnel: a failed send, its daemon closing, failing or leaving (no proxyClose), or a local close, an overfull socket, a late success or the end of its route (exactly one proxyClose) |
| `Tunnels.StepKeeps` | apps/server/src/proxy.ts:359-527 | opening, timing out, closing, data, replies, daemon loss and route loss each keep capacity, one settlement, armed timers and the message account |
| `Tunnels.Drive` | apps/server/src/proxy.ts:347-528 | a registry driven by any calls and timers is in the state of that run |
| `Rendezvous.TailcatRendezvous.RemoveChannels` | apps/server/src/tailcat-rendezvous.ts:107-112 | each removed channel gets one Closed and one Revoke |
| `Rendezvous.TailcatRendezvous.CloseFor` | apps/server/src/tailcat-rendezvous.ts:117-125 | a soft close drops unopened and elevated channels and starts the grace period; a hard one drops all |
| `Rendezvous.TailcatRendezvous.RevokeToken` | apps/server/src/tailcat-rendezvous.ts:126-128 | exactly the clients holding a channel under the token are hard-closed |
| `Rendezvous.TailcatRendezvous.DropDaemon` | apps/server/src/tailcat-rendezvous.ts:113-116 | the daemon's channels and endpoint go |
| `Rendezvous.TailcatRendezvous.Stop` | apps/server/src/tailcat-rendezvous.ts:135-135 | every channel, grace period and endpoint goes |
| `Rendezvous.GraceHoldsOpenSessionsOnly` | apps/server/src/tailcat-rendezvous.ts:61-127 | in its grace period a client holds only opened, session-scoped channels |
| `Rendezvous.ChannelAccount` | apps/server/src/tailcat-rendezvous.ts:61-127 | opened implies installed; the timer is armed exactly while live and unopened; one proof exactly if installed; live, or removed with exactly one Closed and one Revoke |
| `Rendezvous.ChannelsBounded` | apps/server/src/tailcat-rendezvous.ts:67-67 | at most 4096 live channels |
| `Rendezvous.StepKeeps` | apps/server/src/tailcat-rendezvous.ts:61-135 | every request, answer, timeout, close, revocation and shutdown keeps the account of each channel and the grace rule |
| `Rendezvous.Drive` | apps/server/src/tailcat-rendezvous.ts:61-135 | a rendezvous driven by any calls and timers is in the state of that run |
| `Routes.ProxyRouteTable.EnsurePort` | apps/server/src/proxy.ts:99-115 | the port has a label afterwards, a known one the same as before; the two maps stay inverse exactly if it was known or a candidate label was free |
| `Routes.ProxyRouteTable.ReconcileSession` | apps/server/src/proxy.ts:119-139 | the table after a report, and the exact list of removed labels |
| `Routes.ProxyRouteTable.ReleaseSession` | apps/server/src/proxy.ts:158-167 | nothing for an unknown session; otherwise all its routes go and its task and exactly their labels are returned |
| `Routes.ProxyRouteTable.ReleaseSessions` | apps/server/src/proxy.ts:170-177 | the listed sessions are released in turn, and each released one is returned with its task and labels, in order |
| `Routes.EnsureExact` | apps/server/src/proxy.ts:99-115 | the two maps stay inverse exactly when the port was known or one of its candidate labels was free |
| `Routes.ReconcileExact` | apps/server/src/proxy.ts:119-139 | exactly the reported ports, kept ports keep their label, other sessions unchanged; the maps stay inverse exactly when each new port in its turn finds a candidate label free |
| `Routes.ReportExact` | apps/server/src/hub.ts:3048-3074 | the maps are inverse after every entry of a report exactly when each of its new ports finds a free label as it is reached |
| `Routes.ValidPorts` | apps/server/src/hub.ts:3061-3061 | exactly the ports 1 to 65535 of the report, each once |
| `Routes.RoutesCarryLiveIdentity` | apps/server/src/hub.ts:3126-3154 | in every run each route is named by its own session's map and carries the live session's account, daemon and task |
| `Routes.MapsAreInverse` | apps/server/src/proxy.ts:94-178 | over any run the two maps are inverse all along exactly when every report, as it arrives, finds a free label for each new port |
| `Routes.ReportIsComplete` | apps/server/src/hub.ts:3048-3074 | after a report each session of the daemon has exactly the ports last reported for it, unreported ones none |
| `Routes.Drive` | apps/server/src/proxy.ts:94-178 | a route table driven by any installs, drops, reports and lost daemons is in the state of that run |
| `Routes.ClashHappens` | apps/server/src/proxy.ts:99-115 | a run of four installs and one report of a shared port, two sessions with the same prefix, after which a session's label leads to another one |
| `NativeLogin.NewCode` | apps/server/src/native-login.ts:90-98 | the code is its letters in dashed groups, and normalizes back to them |
| `NativeLogin.NormalizeGrouped` | apps/server/src/native-login.ts:86-98 | normalizing undoes the grouping |
| `NativeLogin.NativeLoginStore.SweepExpired` | apps/server/src/native-login.ts:234-236 | exactly the expired requests and their codes go |
| `NativeLogin.NativeLoginStore.RegisterRequest` | apps/server/src/native-login.ts:138-156 | a valid registration enters after the sweep unless the store is full |
| `NativeLogin.NativeLoginStore.ApproveRequest` | apps/server/src/native-login.ts:166-177 | only a live pending request is approved, and codes and approved requests stay in bijection exactly if the code was unused |
| `NativeLogin.NativeLoginStore.FailRequest` | apps/server/src/native-login.ts:181-186 | only a live pending loopback request is consumed; every other approved request is still found by its code |
| `NativeLogin.NativeLoginStore.CancelRequest` | apps/server/src/native-login.ts:189-195 | a live pending request ends; every approved request is still found by its code |
| `NativeLogin.NativeLoginStore.ExchangeCode` | apps/server/src/native-login.ts:201-217 | a known code is burnt before the verifier is looked at and is unknown afterwards, granted or not |
| `NativeLogin.ApproveExact` | apps/server/src/native-login.ts:166-177 | codes and approved requests stay in bijection exactly when the new code was unused |
| `NativeLogin.CodesAndApprovalsBiject` | apps/server/src/native-login.ts:120-237 | over any calls codes lead to approved requests within the cap; they are in bijection all along exactly when every approval drew an unused code |
| `NativeLogin.SameCodeClashes` | apps/server/src/native-login.ts:166-177 | two requests approved under the same code: the first is no longer found by it |
| `NativeLogin.Drive` | apps/server/src/native-login.ts:120-237 | a store driven by any calls is in the state of that run |
| `NativeLogin.GrantedOnceAndFairly` | apps/server/src/native-login.ts:201-217 | a request yields its grant at most once, before expiry and to a verifier matching its challenge (section 4.6 of RFC 7636) |
| `NativeLogin.KnownCodeBurns` | apps/server/src/native-login.ts:197-209 | any attempt with a known code removes the code and its request and nothing else |
| `NativeLogin.ExchangeExactly` | apps/server/src/native-login.ts:201-217 | with fresh codes an exchange grants exactly when a live request was approved under the code, is unexpired and matches the verifier |
| `NativeLogin.ShownCodeRedeems` | apps/server/src/native-login.ts:166-217 | the code as displayed, with the right verifier in time, returns the approved grant |
| `Resync.Validate` | apps/server/src/hub.ts:2988-3013 | succeeds exactly on a bounded list of valid ids that is one-to-one, and returns its first occurrences in order |
| `Resync.BudgetNeverBinds` | apps/server/src/hub.ts:2998-3000 | the byte budget never refuses a list that the count and id limits accept |
| `Resync.DedupKeepsEntries` | apps/server/src/hub.ts:2998-3012 | the returned list has the same entries, each once |
| `Resync.ResyncAuthorities.Accept` | apps/server/src/hub.ts:2961-2983 | an accepted pair is not accepted again, and the owner it replaces is refused with every epoch from then on |
| `Resync.ResyncAuthorities.OnResync` | apps/server/src/hub.ts:2624-2634 | a malformed snapshot consumes nothing |
| `Resync.SnapshotsAreMonotone` | apps/server/src/hub.ts:2961-2983 | in every run epochs rise per owner, no pair repeats, a replaced owner never returns, at most 17 owners are accepted |
| `Resync.Drive` | apps/server/src/hub.ts:2961-2983 | the table driven by any snapshots of a device holds the authority of that run |
| `RateLimiter.FixedWindowLimiter.Allow` | apps/server/src/hub.ts:562-580 | the answer is whether the key's window, counted with this call, is within the limit; the window is found by the next call and the table keeps its size limit |
| `RateLimiter.AtMostTwiceTheLimit` | apps/server/src/hub.ts:562-580 | with a monotone clock a key that stays in the table is allowed at most twice the limit within one window length, ends included |
| `RateLimiter.TwiceTheLimitIsReached` | apps/server/src/hub.ts:562-580 | for every limit and window length twice the limit is reached within one window length |
| `RateLimiter.Drive` | apps/server/src/hub.ts:562-580 | a limiter driven by any calls answers each as the run says |
| `RateLimiter.EvictionNeedsFullTable` | apps/server/src/hub.ts:572-577 | a key is pushed out only after at least as many other keys as the table holds were used since its last use |
| `Credentials.MergeSettings` | apps/server/src/executor-settings.ts:183-236 | the written record, the warning, and failure exactly when something must be encrypted and no key is configured |
| `Credentials.ApplyEntries` | apps/server/src/executor-settings.ts:191-202 | the first loop's map and its changed flag |
| `Credentials.DropCustoms` | apps/server/src/executor-settings.ts:204-213 | exactly the removed custom providers lose their key |
| `Credentials.SortKeys` | apps/server/src/executor-settings.ts:230-230 | the ordered list of exactly the keys |
| `Credentials.MergeRefinesMap` | apps/server/src/executor-settings.ts:183-236 | on readable state one merge holds the plain-map result and its sorted key list |
| `Credentials.MergesRefineFold` | apps/server/src/executor-settings.ts:145-236 | for any sequence of patches the decrypted map is the fold of set, clear and drop, without an entry named `__proto__`, and the id list is its sorted key set |
| `Credentials.FoldExactly` | apps/server/src/executor-settings.ts:145-236 | the decrypted map is the plain fold exactly when the fold holds no key named `__proto__` |
| `Credentials.ProtoKeyIsLost` | apps/server/src/executor-settings.ts:191-202 | a merge that sets a key for a provider named `__proto__` stores nothing |
| `Credentials.UnreadableSurvivesExactly` | apps/server/src/executor-settings.ts:215-222 | an unreadable ciphertext survives exactly the patches that set nothing and clear or drop no inherited name; otherwise a warning is given |
| `Credentials.InheritedNameLosesCiphertext` | apps/server/src/executor-settings.ts:194-198 | clearing a provider named `constructor` replaces an unreadable ciphertext by nothing |

## Left out

- Error replies, log lines and message texts; the bytes of frames beyond their size.
- Delivery: the reasons for which admission rejects a request, the timer interface itself, and how often a retry is tried; a retry may fire at any moment.
- RevivedExactlyByLateHandover: the Execute that the server sends directly from an install acknowledgement is outside the statement.
- AbsentMeansDead: assumes that a device reports its live set truthfully at some moment after the request and never reuses a session id.
- IntegrityAlwaysHolds: names, paths, statuses and archive times of rows are not modelled; one project per repository root is not claimed, because the lookup may pick a project that is being deleted.
- ResurrectedExactlyByUnguarded: workspace, project and device guards work in the same way and are not modelled beside those for tasks.
- SubscriberConverges: is about connections to which no send threw (`BehindExactly` covers all); both take it that an entity's broadcasts leave after the commit they show and in commit order; the several messages of a snapshot are one frame.
- NoSwapInsideTransaction: shutdown clears the connections without taking the gate and is excluded, as in the source.
- SettledExactlyOnce: a control send that calls back into the registry synchronously is not modelled.
- ReportIsComplete: the spelling of labels is an arbitrary function, and the map of ports per session is one map on pairs.
- RegisterRequest: the generated token is taken to be new.
- NewCode: upper-casing covers the letters A to Z only; hashing and its collisions are a function parameter.
- Resync.Drive: follows one device; the entries of other devices are independent of it.
- AtMostTwiceTheLimit: a clock that steps back is not covered.
- SortKeys: compares code points; JavaScript compares UTF-16 units, which differs for characters outside the basic plane.
- MergeSettings: trimming of keys, JSON text and the cipher itself are parameters; the request schema in front of it is not modelled.
- ChannelAccount: region choice, configuration messages and the per-connection request window are not modelled.
- The database engine: transactions are taken to be serialized by the row locks the code requests; migrations and backups.
- The HTTP gateway, OAuth pages, password login, local control grants, notifications, agent settings and automatic updates.
