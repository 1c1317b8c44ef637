# Maestro: verified models of its concurrent and parsing core

Maestro runs coding agents on a Mac. A desktop process (`MacOS/brain`) owns jobs, chat sessions, schedules and
browser watches; a Chrome extension (`extension`) drives browser tabs for it. This project models the parts of both
where the difficulty lies in interleavings, arithmetic or incremental parsing, and proves what they promise.

Code that assigns fields, maps and buffers is modelled as a class (or a method with the source's loop) whose
contracts say that it computes a function of the old state; the laws are then proved of those functions, and of whole
runs built from them. Each concurrent component is a step system: a step is one stretch of code between two awaits or
two browser events, and a run is any sequence of possible steps.

| component | files |
|---|---|
| session lease and queue (`session-run-queue.ts`, `engine.ts`) | `session_run_queue`, `session_lease`, `local_engine`, `session_lease_proof`, `session_lease_exact`, `session_lease_runs`, `session_lease_attended`, `session_lease_settles`, `session_lease_waiting`, `session_lease_fair`, `session_lease_stalls`, `session_lease_fifo`, `session_lease_heartbeats`, `session_lease_answers`, `session_lease_limits` |
| active profile election and roles (`extension-bridge.ts`, `background.js`) | `extension_bridge`, `extension_election`, `extension_history`, `role_protocol`, `role_agreement`, `role_runs`, `role_history`, `role_order`, `role_flag`, `role_limits` |
| extension sessions (`background.js`) | `client_queue`, `tab_sessions`, `tab_session_runs`, `tab_session_atomic`, `tab_session_exact`, `tab_session_history`, `tab_session_owners`, `session_restore`, `session_restore_laws`, `session_restore_records` |
| browser watches (`browser-watch.ts`) | `browser_watch`, `browser_watch_runs`, `browser_watch_pace` |
| schedules (`cron.ts`) | `cron`, `cron_runner` |
| binary sniffing (`binary-detect.ts`) | `binary_detect`, `binary_damage` |
| line framing, live frames (`codex-bridge.ts`, `engine.ts`) | `line_framing`, `line_cap`, `line_tails`, `frame_throttle` |
| conversation import (`conversation-sync.ts`) | `conversation_sync`, `conversation_parsers`, `conversation_laws`, `conversation_rows` |

Two kinds of law are proved of each component: what never goes wrong in any run, and what exactly is done and when, read off
the history of steps, clocks and inputs alone.

`dafny verify dfyconfig.toml` checks everything.

## Hypotheses

Two steps of the session lease can break its guarantees, and are admitted under a condition on the state a caller
can read, which is proved to be exact (`SafetyIsExact`): an outside trigger must not claim a lease whose session still
has a live body, nor take over a job with parked callers that no dispatched run will answer (`TriggerSafe`); a recovery
sweep must not meet a live body whose job already has a terminal status, nor run again one whose job has lost its
`running` entry (`SweepSafe`).

That a parked caller is answered in the end needs one thing more of every step (`Clear`), again exact: unless a sweep is
armed after it, neither its own sweep nor a job it dispatches to a session nobody serves is denied a lock. The sweep at
boot is such a step. It is one call that no timer repeats (`MacOS/sidecar/src/headless-main.ts:917`): a lock denied there
is only logged.

The role protocol assumes that a client's old socket closes before its new one is opened and before its new hello is
handled (`OldSocketClosesFirst`), exact likewise: any step against that order breaks the invariant, and can be followed,
in that order, to a state with nothing left to read on the client's channels in which the roles disagree.

Clocks do not run backwards and timers do not fire early.

## Where the code departs from its own words

The models follow the code. A lemma shows each departure.

- Parked callers are said always to settle eventually (`engine.ts:2626-2630`). They do as long as every step, the sweep at
  boot included, is clear (`EveryCallerIsAnswered`, `EveryCallerIsServed`). When the sweep at boot is denied a session's
  lock, nothing is dispatched or tried again, and whoever parks there waits on nothing (`DeniedBootSweepStallsTheQueue`).
  When the run dispatched by a drain is denied the lock, its job fails but keeps the lease, and those behind it wait on
  nothing (`DeniedDispatchStallsTheQueue`). Both are cases of `UnclearStepStalls` and `StalledCallersStay`.
  A caller parked on a job that a second call then runs after reclaiming a stale lease is never answered
  (`ReclaimByAWaiterStrandsItsCallers`).
- UTF-8 text is said never to read as binary (`binary-detect.ts:1-5`); text that starts with "PK" does (`TextCanReadAsBinary`).
- Schedules are said never to fire for times missed while the app was closed (`cron.ts:6-7`), and interval schedules never
  to catch up (`cron.ts:125`); a stale interval slot does fire, once (`StaleIntervalSlotFires`).
- A slot missed in sleep is said to be caught up when the Mac is next awake within the slot's window (`store.ts:425-427`).
  Only the first slot missed is looked at: one missed later, on the day of waking, is not (`TodaysMissIsForgotten`).
- A post deferred because the chat is busy is said to be tried again at the next interval (`browser-watch.ts:314-316`);
  it is not until the condition has been false in between (`DeferredPostIsNotRetried`).

## Model

| member | source | states |
|---|---|---|
| SessionRunQueue.AcquireJoinsTheLine | MacOS/brain/session-run-queue.ts:59-80 | Read as a line whose head is the owner, a claim appends the job at most once, drops only a stale head, keeps everyone's order and never moves a live owner; which of the four outcomes is given when |
| SessionRunQueue.ReleaseServesTheHead | MacOS/brain/session-run-queue.ts:86-94 | The owner's release removes exactly the head and hands the lease to the next in line; anyone else's release only leaves the line |
| SessionRunQueue.DequeueLeavesTheOwner | MacOS/brain/session-run-queue.ts:99-103 | Cancelling a queued job takes that job alone out of the line; owner, token and heartbeat stay |
| SessionRunQueue.RecoverDropsTheTerminal | MacOS/brain/session-run-queue.ts:126-142 | Recovery is one rule: terminal jobs leave the line, the rest keep their order, the head is dispatched |
| SessionRunQueue.BeatHoldsTheLease | MacOS/brain/session-run-queue.ts:105-111 | For two minutes after a beat of the owner's process no other process takes its lease over or releases it, no other job gets it, and the process itself finds it its own |
| SessionRunQueue.ForeignBeatsHoldNothing | MacOS/brain/session-run-queue.ts:105-111 | After a beat of another process or job every claim is answered as if it had not been |
| SessionRunQueue.AcquiredAtIsTheHandover | MacOS/brain/session-run-queue.ts:59-142 | Through every transition a lease tells when it last changed hands |
| SessionLeaseRuns.OneBodyPerSession | MacOS/brain/engine.ts:2553-2611 | In every state of every safe run a session has at most one live body, post-turn work and release retries included, and it is the lease owner's |
| SessionLeaseRuns.LeaseStaysUntilTheBodyReturns | MacOS/brain/engine.ts:2594-2610 | Until the body's own end or release retry, no step takes its activation or its lease away |
| SessionLeaseRuns.NoCallerIsLost | MacOS/brain/engine.ts:2574-2592 | Every caller of `run` is answered, about to be answered by a live body, or parked on a job that waits in line, has a dispatched run, or awaits an armed sweep |
| SessionLeaseRuns.AnswersAreFinal | MacOS/brain/engine.ts:2539-2544 | An answer once given never changes, and an answered caller is parked nowhere and has no live body |
| SessionLeaseRuns.DuplicatesShareTheAnswer | MacOS/brain/engine.ts:2657-2663 | All callers parked on a drained job get the answer of the one run that was dispatched for it |
| SessionLeaseAttended.AttendanceIsExact | MacOS/brain/engine.ts:2562-2571 | From a state in which every session has a live body or a sweep is armed, a safe step leads to another if and only if it denies a lock neither to its own sweep nor to a job it dispatches, or a sweep is armed after it; a denied outside trigger does no harm |
| SessionLeaseAttended.AttendedThroughout | MacOS/brain/engine.ts:2640-2698 | Over every safe run, whatever leases were persisted: from the sweep at boot on every session stays attended if and only if that sweep and every later step is so |
| SessionLeaseAttended.BootAttendance | MacOS/sidecar/src/headless-main.ts:917 | The sweep at boot arms no timer; it leaves every session attended if and only if it gets the lock of every persisted session and none of the jobs it dispatches is denied one |
| SessionLeaseSettles.EveryCallerIsAnswered | MacOS/brain/engine.ts:2620-2630 | From an attended state, in whatever order the engine takes its own steps (bodies end, releases are retried, continuations run, sweeps fire) with the lock granted, it reaches a state in which every caller is answered, nobody is parked and no lease is left |
| SessionLeaseSettles.ParkedCallersMakeProgress | MacOS/brain/engine.ts:2640-2698 | After every safe run, whatever leases were persisted, whose steps were clear, the sweep at boot included, either every caller has been answered or the engine can take one of those steps |
| SessionLeaseWaiting.StepOvertakesNone | MacOS/brain/session-run-queue.ts:59-80 | No safe step that gets its locks puts a job ahead of one that was before it in a session's line: places in line only fall, or are given up |
| SessionLeaseFair.EveryCallerIsServed | MacOS/brain/engine.ts:2620-2630 | With safe outside calls, cancels, heartbeats and status writes interleaved without end: as long as bodies end, continuations run, armed sweeps fire and locks are granted, every caller there has been is answered |
| SessionLeaseStalls.UnclearStepStalls | MacOS/brain/engine.ts:2562-2571 | A step leaves a session with a lease, no live body and no armed sweep if and only if it denies a lock to its own sweep, at boot included, or to a job it dispatches, and arms no sweep |
| SessionLeaseStalls.StalledCallersStay | MacOS/brain/engine.ts:2562-2571 | Callers parked in such a session stay parked and unanswered over any run, until a job of the session is asked for or cancelled or a sweep is armed |
| SessionLeaseHeartbeats.HeartbeatIsTheLastSign | MacOS/brain/session-run-queue.ts:59-111 | Over every run a lease's heartbeat is the time at which its session last showed a sign of life: a new owner, a body that starts, a heartbeat of its body, a sweep that got its lock; calls that only queue are none |
| SessionLeaseHeartbeats.LeasePassesExactlyWhenSilent | MacOS/brain/session-run-queue.ts:65-80 | Over every run, a call of another job takes the lease from its owner, for the first in line or else itself, if and only if there has been no sign of life for more than two minutes; else its caller is parked and no body starts |
| SessionLeaseHeartbeats.BeatingKeepsTheLease | MacOS/brain/engine.ts:2526-2531 | As long as a live body claimed its lease or beat at most two minutes ago, no call of another job takes the lease or starts a body |
| SessionLeaseAnswers.WhatACallComesTo | MacOS/brain/engine.ts:2553-2603 | Which calls start at once, which wait, and which are answered at once and how, exactly, for every state: missing, running, sessionless, denied, contended, held, silent |
| SessionLeaseAnswers.TurnsAnswerTheirOutcome | MacOS/brain/engine.ts:2604-2652 | Over every run the caller whose turn ends is answered with what the turn came to and nothing else, at once or after the release retries |
| SessionLeaseAnswers.WhatACancelDoes | MacOS/brain/engine.ts:3249-3288 | A running job loses its handle and nothing more; a queued one leaves the line alone, marked cancelled, and all its callers are told; else nothing changes |
| SessionLeaseAnswers.SweepsStartTheUnfinished | MacOS/brain/engine.ts:2689-2699 | A sweep starts a body only of a job still pending or marked as running |
| SessionLeaseRuns.StepKeeps | MacOS/brain/engine.ts:2553-2709 | Every safe step keeps the whole invariant and changes no answer already given |
| SessionLeaseRuns.SafetyIsExact | MacOS/brain/engine.ts:2553-2709 | From any state that keeps the invariant a step keeps one live body per session, the lease owner's, and every parked caller accounted for, if and only if it is safe |
| SessionLeaseExact.TriggerSafetyIsExact | MacOS/brain/engine.ts:3272-3284 | An outside trigger keeps one live body per session, the owner's, and every parked caller accounted for, if and only if it is safe or denied the lock |
| SessionLeaseExact.SweepSafetyIsExact | MacOS/brain/engine.ts:2674-2698 | A recovery sweep, however many locks it gets and whichever dispatched jobs are denied one, keeps the same if and only if it is safe |
| SessionLeaseLimits.RetriggerAfterCancelOverlaps | MacOS/brain/engine.ts:3277-3284 | A job cancelled and triggered again before its body unwinds runs twice at once |
| SessionLeaseLimits.SweepDuringPostTurnOverlaps | MacOS/brain/engine.ts:2689-2698 | A sweep that meets post-turn work under a terminal status starts the next turn beside it |
| SessionLeaseLimits.GivingUpIsReached | MacOS/brain/engine.ts:2640-2652 | A run in which a body is denied the lock for all five release attempts, and leaves its lease as it is and a sweep armed |
| SessionLeaseLimits.ReclaimByAWaiterStrandsItsCallers | MacOS/brain/session-run-queue.ts:70-77 | There, a waiter's own second call that reclaims the stale lease leaves its parked callers unanswered for good |
| SessionLeaseLimits.DeniedDispatchStallsTheQueue | MacOS/brain/engine.ts:2562-2571 | A drained run that is denied the lock leaves the lease with its failed job and the queue behind it with nothing to wait for |
| SessionLeaseLimits.DeniedBootSweepLeavesTheLease | MacOS/sidecar/src/headless-main.ts:917 | A boot whose sweep is denied the lock changes nothing and arms nothing; a safe call made before the lease is stale then parks its caller with nothing the engine can do |
| SessionLeaseLimits.DeniedBootSweepStallsTheQueue | MacOS/sidecar/src/headless-main.ts:917 | In every run that starts so that caller stays parked and unanswered, until a job of the session is asked for or cancelled or a sweep is armed |
| SessionLeaseFifo.FirstComeFirstServed | MacOS/brain/engine.ts:2598-2664 | From any smooth state (no sweep armed, no release being retried, a body live in every leased session), while releases and drained jobs get the lock, the bodies of a session start in the order in which their jobs joined, one per joining; the jobs that joined are those started followed by the queue, cancelled ones struck out |
| SessionLeaseFifo.BootSweepIsSmooth | MacOS/sidecar/src/headless-main.ts:917 | The sweep at boot leads to a smooth state, whatever leases were persisted, if and only if it gets every lock it asks for |
| SessionLeaseFifo.SessionDrains | MacOS/brain/engine.ts:2656-2664 | A session's line of n jobs is empty after n turns end, however and whenever each does, and every caller still parked on its jobs then has a dispatched run that has answered |
| SessionLeaseFifo.OnlyUnwindingJobsAreUnsafe | MacOS/brain/engine.ts:3277-3284 | While lock attempts succeed and heartbeats are in time, a trigger is safe exactly unless its job still owns the lease without running |
| LocalEngines.LocalEngine.SettleParked | MacOS/brain/engine.ts:2539-2544 | The loop settles every parked caller of the job with one outcome and forgets them |
| LocalEngines.LocalEngine.Run | MacOS/brain/engine.ts:3636-3652 | The entry guard: missing job throws, running job is a no-op, else the lease wrapper |
| LocalEngines.LocalEngine.RunWithSessionLease | MacOS/brain/engine.ts:2553-2603 | Claim, fail closed, park, dispatch the promoted waiter, or execute, as the transition says |
| LocalEngines.LocalEngine.Dispatch | MacOS/brain/engine.ts:2574-2580 | A promoted job is run, and its continuation remembered |
| LocalEngines.LocalEngine.Settle | MacOS/brain/engine.ts:2659-2662 | The continuation settles the callers parked on the job with the run's answer |
| LocalEngines.LocalEngine.HeartbeatFires | MacOS/brain/engine.ts:2526-2531 | The heartbeat refreshes the lease of its own job alone |
| LocalEngines.LocalEngine.BodyEnds | MacOS/brain/engine.ts:2604-2611 | The `finally`: drop `running`, then the first release attempt |
| LocalEngines.LocalEngine.ReleaseAndDrainSession | MacOS/brain/engine.ts:2640-2664 | One attempt of the bounded release loop: hand over and dispatch, retry, or arm recovery |
| LocalEngines.LocalEngine.Cancel | MacOS/brain/engine.ts:3249-3288 | Cancelling a running job drops its handle, a queued one leaves the line with its callers settled |
| LocalEngines.LocalEngine.RecoverSessionRuns | MacOS/brain/engine.ts:2689-2699 | The sweep heals each persisted session in turn and dispatches what it found; where a lock is denied it throws, with nothing dispatched |
| LocalEngines.LocalEngine.RecoveryTimer | MacOS/brain/engine.ts:2674-2683 | The timer of the sweep is armed again exactly when the sweep throws |
| ExtensionElection.ExactlyOneActive | MacOS/brain/extension-bridge.ts:140-181 | After every attach, detach and takeover exactly one connected profile is active, the one with the greatest last-active time |
| ExtensionElection.LossPromotesTheMostRecent | MacOS/brain/extension-bridge.ts:157-170 | Losing the active profile promotes one active no earlier than any other left; losing another changes no role |
| ExtensionElection.ConnectingUnseatsNobody | MacOS/brain/extension-bridge.ts:140-155 | A connecting profile never unseats the active one |
| ExtensionHistory.PeersAreHistory | MacOS/brain/extension-bridge.ts:140-181 | After any attaches, detaches and takeovers a profile is connected if and only if it attached last, with the socket and name given then; its last-active time is when it last became active, was taken over or reattached as the active one |
| ExtensionHistory.PeersAreInOrder | MacOS/brain/extension-bridge.ts:140-158 | Peers stay in the order in which they joined |
| ExtensionHistory.WhoIsActive | MacOS/brain/extension-bridge.ts:140-181 | Who is active after one more event: the first to connect; whoever is taken over, if connected; when the active one leaves, the one left that held the role last, or joined first of those; nothing else moves the role |
| ExtensionBridges.MostRecent | MacOS/brain/extension-bridge.ts:165-166 | The first peer of greatest last-active time |
| ExtensionBridges.ExtensionBridge.MakeActive | MacOS/brain/extension-bridge.ts:173-181 | The loop marks exactly the named client, stamps it, and broadcasts |
| ExtensionBridges.ExtensionBridge.BroadcastLifecycle | MacOS/brain/extension-bridge.ts:183-189 | Every peer is sent its role and the peer list, in order |
| ExtensionBridges.ExtensionBridge.AttachPeer | MacOS/brain/extension-bridge.ts:140-155 | The new peers and everything sent, for new and for returning clients |
| ExtensionBridges.ExtensionBridge.DetachPeer | MacOS/brain/extension-bridge.ts:157-170 | The new peers and everything sent; commands in flight fail exactly when the active profile is lost |
| ExtensionBridges.ExtensionBridge.Takeover | MacOS/brain/extension-bridge.ts:111-114 | A known client becomes active, an unknown one changes nothing |
| ExtensionBridges.ExtensionBridge.PushSnapshots | MacOS/brain/extension-bridge.ts:208-215 | The coalesced push sends each peer its own active bit |
| RoleProtocol.Background.HandleMessage | extension/background.js:878-888 | Lifecycle messages fold into role, flag and peer cache |
| RoleProtocol.Background.OnOpen | extension/background.js:742-750 | Opening makes the role provisionally active |
| RoleProtocol.Background.OnClose | extension/background.js:754-760 | Closing turns the role off |
| RoleAgreement.BroadcastRefreshes | MacOS/brain/extension-bridge.ts:183-189 | What a broadcast puts on each channel leaves its reader with the role and list the bridge holds |
| RoleRuns.RolesAgree | extension/background.js:742-778 | Over every run in which old sockets close first, snapshots included: once a client's channels are drained its extension is active, on standby or off exactly as the bridge has it, and connected it holds the bridge's list |
| RoleRuns.ExactlyOneExtensionIsActive | extension/background.js:742-778 | And once all channels are drained, exactly one extension is active if any is connected |
| RoleHistory.PeersFollowTheEvents | MacOS/brain/extension-bridge.ts:119-170 | Over every run the bridge's peers are those of the hellos it has read, losses it has met and takeovers it was asked for, in that order |
| RoleHistory.RequestsAreServed | extension/background.js:780-783 | A takeover asked for in a standby extension makes its client the active one when the bridge has read what was sent before it, whatever happens meanwhile short of losing the socket |
| RoleHistory.MessagesAreHeeded | extension/background.js:878-886 | A message under way to an extension is read once those before it have been, however the bridge goes on sending, and then sets the role, flag or list it names |
| RoleHistory.RoleIsLastTold | extension/background.js:742-760 | Over every run an extension is provisionally active from the opening of its socket and then holds the role last told it, until the socket closes |
| RoleHistory.ListsNameTheActive | MacOS/brain/extension-bridge.ts:115 | Once all channels are drained, a connected extension's list names exactly the connected ones, and as active exactly the one in that role |
| RoleRuns.OrderIsExact | MacOS/brain/extension-bridge.ts:136 | A step keeps the protocol's invariant if and only if it respects the order assumed of sockets |
| RoleOrder.AgreementIsExact | MacOS/brain/extension-bridge.ts:136 | A step respects that order if and only if, however things go on from there in that order, extension and bridge agree on the role whenever a client's channels are drained |
| RoleFlag.FlagIsLastTold | extension/background.js:885-886 | Over every run, the flag an open extension has once it has read its channel is the active bit it was last greeted with or last sent in a snapshot |
| RoleFlag.FlagAgreementIsExact | extension/background.js:885-886 | A drained peer's flag agrees with its role if and only if that bit is still the client's |
| RoleLimits.LateHangupEvictsTheNewSocket | MacOS/brain/extension-bridge.ts:157-159 | A late close of a replaced socket leaves an extension active that the bridge does not know |
| RoleLimits.SnapshotFlagGoesStale | extension/background.js:885-886 | So after a takeover, until the next snapshot, the flag contradicts the agreed role on both sides |
| ClientQueues.Background.EnqueueClientCommand | extension/background.js:273-282 | A command is chained to the tail its client's entry names, and becomes the entry; which clients share an entry is `ClientsAreApart` |
| ClientQueues.Background.TailSettles | extension/background.js:277-279 | The entry is deleted only by the tail it names |
| ClientQueues.InOrderWithoutOverlap | extension/background.js:273-282 | Commands of one client start only when all before them have settled |
| ClientQueues.MapHoldsTheLiveTails | extension/background.js:275-280 | The map has an entry for a client exactly while it has an unsettled command, and it names the last one |
| ClientQueues.HeadCanAlwaysGo | extension/background.js:276 | Whatever the commands before it did, a waiting command can start exactly when it heads its client's line, so no line stalls |
| ClientQueues.ClientsAreApart | extension/background.js:273-282 | Over every run a command can start if and only if it is submitted, not started, and all submitted before it for the same client have settled, whatever other clients do; only commands without a client id share a queue, with a client named "__global__" |
| TabSessionRuns.LiveTabsAreOwned | extension/background.js:996-1205 | In every interleaving at await granularity, sessions ended from the popup outside the client queue included, each tab listed in a live session is owned by its client, so live sessions share no tab |
| TabSessionRuns.StepKeeps | extension/background.js:2143-2209 | Every stretch of every handler and listener keeps ownership, homes and the grip of waiting commands |
| TabSessionAtomic.OwnershipIsListing | extension/background.js:2143-2209 | With handlers uninterrupted a client owns exactly the tabs its live session lists, and the primary tab is absent or listed |
| TabSessionExact.ListingIsExact | extension/background.js:996-1205 | At await granularity, a step keeps both if and only if: an adopted tab goes to its client's live session or is listed there already, an opened tab's client is live, a closed tab is not the primary one, and the tabs its client owns when an end resumes, from the queue or the popup (`extension/background.js:2356-2361`), were all snapshotted |
| TabSessionExact.OwnershipIsListingWhileUndisturbed | extension/background.js:996-1205 | The same over every interleaving |
| TabSessionExact.PrimaryIsExact | extension/background.js:1159-1170 | A step keeps live sessions with tabs from having no primary one if and only if the session it adds a tab to has one or the tab is made primary; which tab that is, is `PrimaryIsTheLastNamed` |
| TabSessionHistory.PrimaryIsTheLastNamed | extension/background.js:1159-1170 | Over every interleaving the tab a session was started with, or the last one opened to be primary, is its primary tab for as long as it is not closed, removed or dragged out |
| TabSessionHistory.SessionIsItsHistory | extension/background.js:2143-2198 | Over every interleaving: an opened or adopted tab is listed last, tabs leave exactly by being closed, removed or dragged out, the others keep their order; a primary tab taken by the browser passes on to the first one left, and changes otherwise only by being named |
| TabSessionHistory.SessionsBegin | extension/background.js:1042-1053 | A session begins with the tab created for it, as its primary and only one, in its group |
| TabSessionHistory.OnlyStartsBegin | extension/background.js:1042-1053 | Nothing else gives a client a session |
| TabSessionHistory.SessionStep | extension/background.js:1084-1205 | A step ends a session if and only if it ends or drops it or removes its last tab; what each other step leaves of it |
| TabSessionHistory.CommandsGoOn | extension/background.js:996-1205 | Which stretch can follow each stretch of a command; closing the primary tab, and opening or ending without a session, go no further |
| TabSessionHistory.OthersLeaveTheCommand | extension/background.js:273-282 | A waiting command waits where it is until its own next stretch, whatever else happens |
| TabSessionHistory.OpenedTabsAreAdopted | extension/background.js:2143-2155 | A tab opened by a listed tab of a live session can be adopted, into that session |
| TabSessionHistory.TabsAreAdoptedOnce | extension/background.js:2143-2155 | Over every interleaving a tab is adopted only after a tab opened it, and never again after that, wherever it has gone since |
| TabSessionOwners.OwnersAreGainedAndFreed | extension/background.js:1042-1205 | Over every interleaving a tab is a client's if and only if the step gives it to the client, as its new session's, opened or adopted, or it was the client's and the step does not free it: closed, removed, dragged out, its session ended, or cleared before a new one |
| TabSessionOwners.EndedTabsAreReleased | extension/background.js:1084-1106 | However the end of a session is interleaved, after it the client has no session and the tabs listed when it began are nobody's |
| TabSessionOwners.PopupEndsTheSession | extension/background.js:2356-2362 | A session the popup ends stays to be ended until it is, whatever else happens, and then it is over in the same sense |
| TabSessionOwners.NewSessionsStartClean | extension/background.js:1120-1129 | When the window of a new session is about to be created, the client has no tab but those adopted since its tabs were listed to be cleared |
| TabSessionExact.EndDuringAdoptionLeavesAnOwner | extension/background.js:2143-2154 | Interrupted, an adoption can outlive its session and leave an owner without one |
| TabSessionExact.CloseCanLeaveADanglingPrimary | extension/background.js:1194-1205 | Interrupted, a close can leave a primary tab that is not listed |
| TabSessionExact.OpenAfterDragOutHasNoPrimary | extension/background.js:1159-1170 | A session can have a tab and no primary one without any interruption |
| TabSessions.Background.FinishEnd | extension/background.js:1098-1101 | Ending drops the owners of the snapshotted tabs and the session |
| TabSessions.Background.Drop | extension/background.js:175-181 | Dropping a session drops exactly its tabs' owners and the session |
| TabSessions.Background.TabRemoved | extension/background.js:2180-2198 | A removed tab leaves its session, which ends when empty; the primary passes on |
| TabSessions.Background.TabRegrouped | extension/background.js:2157-2174 | A tab dragged out of the group is released, the primary passes on |
| SessionRestore.Background.SerializeSessions | extension/background.js:183-194 | The saved records, one per session in order |
| SessionRestore.Background.ValidTabs | extension/background.js:233-242 | The tabs still in their group, in order, and whether any was lost |
| SessionRestore.Background.RestoreRecord | extension/background.js:227-266 | One saved record becomes a session with repaired primary and owners, or is dropped |
| SessionRestore.Background.RestoreSessions | extension/background.js:212-271 | The loop over all saved records |
| SessionRestoreLaws.RestoreIsRestriction | extension/background.js:212-271 | Restoring gives exactly the sessions that kept a tab, in order and once each, cut down to surviving tabs with primary repaired, owners of exactly the listed tabs, and asks to be persisted exactly when something was lost |
| SessionRestoreLaws.RoundTripIsExact | extension/background.js:183-194 | When all tabs survive, everything comes back unchanged if and only if every session lists its primary tab |
| SessionRestoreLaws.RestoreIsIdempotent | extension/background.js:212-271 | Restored sessions survive another round trip unchanged |
| SessionRestoreRecords.RecordComesBack | extension/background.js:212-266 | Any record, whatever it lacks, comes back if and only if it names a client and lists a tab still in its group: its tabs once each in order, its primary tab or the first, its window or that of the primary tab, its identifier or a new one |
| SessionRestoreRecords.AnyRecordsRestore | extension/background.js:212-271 | Of any records stored: the last of each client that comes back wins, in the order of the clients' first; a tab belongs to the client of the last record that brings it back; the result is persisted again if and only if something was missing or lost |
| BrowserWatches.Created | MacOS/brain/browser-watch.ts:140-157 | Interval and lifetime of a new watch are within their bounds for every input, and it starts unseen |
| BrowserWatches.CreatedKeepsWhatIsAsked | MacOS/brain/browser-watch.ts:150-158 | Interval and lifetime are those asked for, moved to the nearest bound if beyond it, 5 s and 30 minutes if not given |
| BrowserWatches.BrowserWatcher.Create | MacOS/brain/browser-watch.ts:140-165 | A new watch is added in front, no other changes |
| BrowserWatches.BrowserWatcher.Tick | MacOS/brain/browser-watch.ts:180-207 | The loop treats every watch as the transition of one watch says, whose effect over runs is `LooksExactlyWhenDue` and `ActiveUntilEnded` |
| BrowserWatches.BrowserWatcher.EvalOnce | MacOS/brain/browser-watch.ts:210-294 | The answer of an evaluation updates its watch alone |
| BrowserWatches.BrowserWatcher.Fired | MacOS/brain/browser-watch.ts:263-286 | The outcome of a post updates its watch alone |
| BrowserWatches.BrowserWatcher.CancelWatch | MacOS/brain/browser-watch.ts:168-172 | Cancelling deactivates the watch alone |
| BrowserWatchRuns.EvaluationsAreApart | MacOS/brain/browser-watch.ts:188-206 | Evaluations of a watch never overlap and start at least its interval, less the tolerance, apart |
| BrowserWatchPace.LooksExactlyWhenDue | MacOS/brain/browser-watch.ts:186-206 | Over every run a tick starts an evaluation if and only if the watch is active and unexpired with none under way, its interval less the tolerance is past since it last looked, and a browser is there; without one it notes that, and counts as a look |
| BrowserWatchPace.EvaluatesInTime | MacOS/brain/browser-watch.ts:194-206 | With ticks at most T apart and evaluations that return before the next is due, one starts at most an interval, less the tolerance, and T after the last look |
| BrowserWatchPace.ActiveUntilEnded | MacOS/brain/browser-watch.ts:186-191 | A watch is active until it is cancelled, expires at a tick, sees five identical errors in a row or, a one-shot, has posted |
| BrowserWatchPace.ReasonIsTheFirstEnd | MacOS/brain/browser-watch.ts:186-191 | And gives the first of these as its reason from then on |
| BrowserWatchPace.RecordShowsTheLast | MacOS/brain/browser-watch.ts:250-294 | The record shows the last result that came back or that there was no browser, and whether a post ever failed |
| BrowserWatchRuns.AttemptsAreRisingEdges | MacOS/brain/browser-watch.ts:258-294 | Attempts to post equal the rising edges of the non-error results, the record counts the posts, a one-shot posts at most once |
| BrowserWatchRuns.StreakIsTheTrailingRun | MacOS/brain/browser-watch.ts:232-256 | While active, the streak is the length of the run of identical errors last seen, below five |
| BrowserWatchRuns.InvalidExactlyAtFive | MacOS/brain/browser-watch.ts:236-247 | An active watch is cancelled as invalid exactly by the evaluation completing a run of five |
| BrowserWatchRuns.NoBrowserIsNeutral | MacOS/brain/browser-watch.ts:198-202 | Over any stretch of a run without an answer, ticks without a browser included, results and streak stay |
| BrowserWatchRuns.NextAttemptIsExact | MacOS/brain/browser-watch.ts:258-294 | From a point of a run at which the condition was last seen true, another attempt to post follows if and only if it is seen false and then true |
| BrowserWatchRuns.DeferredPostIsNotRetried | MacOS/brain/browser-watch.ts:314-322 | After a deferred post the record says the condition was true; until it is seen false nothing is posted or attempted, whatever ticks, true answers and errors follow, and another attempt follows if and only if a true answer follows a false one |
| BrowserWatchRuns.CancelledWatchCanStillPost | MacOS/brain/browser-watch.ts:168-172 | From a point of a run at which the watch is inactive it attempts to post once more if and only if the evaluation then under way comes back true and the condition was not known to be; it makes no other post |
| Cron.ParseFormat | MacOS/brain/cron.ts:24-30 | A text parses to a time of day if and only if it is that time as HH:MM, or before ten as H:MM; every other text is refused |
| Cron.CadenceDays | MacOS/brain/cron.ts:38-48 | A cadence that restricts the weekdays permits at least one |
| Cron.DayListsReadBack | MacOS/brain/cron.ts:44-46 | Every list of day names as the sheet writes it means exactly those days |
| Cron.LabelsReadBack | MacOS/brain/cron.ts:40-43 | What the labels mean: every day, the weekday of creation, Monday to Friday, the weekend |
| Cron.CadenceIsRead | MacOS/brain/cron.ts:38-48 | What every cadence text means: the first that fits of every day, weekly, Monday to Friday, the weekend and the days named, by what stands anywhere in it |
| Cron.EveryDayAnywhere | MacOS/brain/cron.ts:40 | "every" and "day" with any white space between mean every day wherever they stand |
| Cron.ComputeNextOccurrence | MacOS/brain/cron.ts:50-68 | The code's computation, with its bounded skip loop, is the function of the rows below |
| Cron.NextOccurrenceIsLeast | MacOS/brain/cron.ts:50-68 | The next occurrence is the least slot strictly after the given instant, within one period or seven days, and exists exactly when there is a period or a valid time; what a slot is, the next rows say |
| Cron.SlotsAreTheTimeWritten | MacOS/brain/cron.ts:58-66 | A schedule written ab:cd is due exactly at the full minutes at which a clock shows ab hours and cd minutes, on the weekdays its cadence permits |
| Cron.IntervalSlotsAreMultiples | MacOS/brain/cron.ts:52-57 | An interval schedule is due at the multiples of its minutes from its anchor, or its creation |
| Cron.NextOccurrenceIsTheTimeWritten | MacOS/brain/cron.ts:58-67 | The next occurrence is the first such minute on such a day |
| Cron.DefaultWindowIsTheDay | MacOS/brain/cron.ts:18-22 | Without a window of its own a missed slot may be caught up exactly until its local day ends |
| CronRunners.CronRunner.Start | MacOS/brain/cron.ts:79-91 | Every schedule is given its next run as the launch rules say |
| CronRunners.CronRunner.Tick | MacOS/brain/cron.ts:97-141 | The loop treats every schedule as the transition of one schedule says, and fires in list order |
| CronRunners.CronRunner.FireOneShot | MacOS/brain/cron.ts:107-117 | One schedule of the loop, one-shot branch |
| CronRunners.CronRunner.FireRecurring | MacOS/brain/cron.ts:118-140 | One schedule of the loop, recurring branch |
| CronRunners.RecurringFires | MacOS/brain/cron.ts:118-140 | Over runs of ticks, restarts and switches: fires are for genuine slots, due times strictly increase past the fire before, fires are 90 s apart, occurrence keys are distinct |
| CronRunners.OneShotFiresAtMostOnce | MacOS/brain/cron.ts:107-117 | A one-shot fires at most once and never early, even if switched on again |
| CronRunners.OneShotFires | MacOS/brain/cron.ts:107-117 | A tick that meets it due, on and not paused leaves exactly one fire, and the schedule off |
| CronRunners.EverySlotFires | MacOS/brain/cron.ts:97-141 | While the app stays awake, the period is at least two minutes and any last run was 90 s before the next, the fires are exactly the slots that have passed, each on time to within a tick |
| CronRunners.EverySlotFiresOnceMet | MacOS/brain/cron.ts:79-120 | The same for a schedule without a next run, such as one just switched on, from the first launch or tick that meets it on, 90 s after any last run |
| CronRunners.NextRunStays | MacOS/brain/cron.ts:79-120 | A next run that is set, or the time of a one-shot, is kept and shown through every launch and tick before it, and nothing fires |
| CronRunners.LateFiresAreCatchUps | MacOS/brain/cron.ts:123-135 | Over runs, a clock-mode fire over 90 s late is a catch-up the schedule allows, within the slot's window |
| CronRunners.OnlyFiresWhileOn | MacOS/brain/cron.ts:99-103 | Over every run whatever fires does so at a tick, last switched on and not paused |
| CronRunners.MissedWhileOffStaysMissed | MacOS/brain/cron.ts:99-103 | Once a tick or a launch has met a schedule off, or a tick paused, or it was switched off, nothing due by then fires any more |
| CronRunners.RecordIsTheLastFire | MacOS/brain/cron.ts:136-138 | The record tells when the last fire was, what it was due for and whether it was late |
| CronRunners.WakingUp | MacOS/brain/cron.ts:118-140 | After a sleep of any length exactly the first missed slot is considered, and fires if and only if the last run is 90 s past and it is on time, in interval mode, or may be caught up, has not been, and its window or day is not over; the rest are dropped |
| CronRunners.TodaysMissIsForgotten | MacOS/brain/cron.ts:124-135 | After more than a day a slot missed on the day of waking is not caught up although its window is open |
| CronRunners.StaleIntervalSlotFires | MacOS/brain/cron.ts:124-139 | A stale interval slot fires at the first tick after a restart, however old |
| CronRunners.MinuteSchedulesLoseSlots | MacOS/brain/cron.ts:121-122 | Over every run the 90 s guard keeps any schedule from firing four slots a minute apart in a row |
| CronRunners.FirstMinuteSlotLost | MacOS/brain/cron.ts:121-122 | On ticks every 30 s without fail a schedule meant to run every minute loses a slot after three minutes |
| BinaryDetect.SuspiciousCount | MacOS/brain/binary-detect.ts:48-74 | The walker's loop computes the recursive count |
| BinaryDetect.StartsWith | MacOS/brain/binary-detect.ts:14-18 | True exactly when the signature stands at the offset |
| BinaryDetect.IsBinarySample | MacOS/brain/binary-detect.ts:81-87 | The scans compute the verdict: NUL, magic, frame sync or ratio |
| BinaryDetect.WalkerCountsControls | MacOS/brain/binary-detect.ts:48-74 | On every prefix of every well-formed UTF-8 text (RFC 3629, section 4) the count is the number of disallowed ASCII controls |
| BinaryDetect.CleanIffSegmented | MacOS/brain/binary-detect.ts:62-71 | The walker finds nothing exactly in bytes that split into non-control characters up to one cut off at the end |
| BinaryDetect.TextVerdict | MacOS/brain/binary-detect.ts:23-87 | A sample of text is called binary exactly if it holds a NUL, starts with an ASCII magic, or is over a tenth controls |
| BinaryDamage.WalkerCountsBadBytes | MacOS/brain/binary-detect.ts:48-74 | For all bytes: the walker counts, up to the first sequence the sample cuts off, the disallowed controls and the bytes outside ASCII that belong to no whole sequence, each once |
| BinaryDamage.VerdictIsExact | MacOS/brain/binary-detect.ts:23-87 | For all bytes: binary if and only if not empty and with a NUL, one of the sixteen signatures at its place, an MP3 frame's start, or over a tenth such bytes |
| BinaryDetect.CleanTextIsText | MacOS/brain/binary-detect.ts:76-87 | Text without controls and without an ASCII magic at its start is never called binary, wherever it is cut |
| BinaryDetect.KnownFormatsAreBinary | MacOS/brain/binary-detect.ts:23-40 | PDF, MP4, PNG, JPEG, ZIP and gzip files read as binary whatever follows their signature |
| BinaryDetect.TextCanReadAsBinary | MacOS/brain/binary-detect.ts:33 | Text starting with "PK" is called binary |
| LineFraming.LinesAreTheCut | MacOS/brain/codex-bridge.ts:130-139 | Lines and rest are the only way to cut a text at its newlines |
| LineFraming.LineReader.OnData | MacOS/brain/codex-bridge.ts:132-139 | The buffer loop keeps the reader in step with the fold of its chunks, cap included |
| LineFraming.LineReader.TakeLines | MacOS/brain/codex-bridge.ts:135-138 | The loop handles every complete non-blank line and leaves the rest |
| LineFraming.LineReader.OnClose | MacOS/brain/engine.ts:2367-2368 | The final drain handles a partial line that is not blank |
| LineFraming.ChunksDoNotMatter | MacOS/brain/codex-bridge.ts:130-141 | In any chunking exactly the non-blank lines of the text are handled, in order, and the rest is kept |
| LineFraming.CapIsExact | MacOS/brain/engine.ts:2357-2359 | The capped reader keeps in step exactly while no partial line is over the cap |
| LineFraming.CodexChunksDoNotMatter | MacOS/brain/engine.ts:2353-2368 | A stream whose lines fit the cap is read alike in every chunking, its unterminated last line included |
| LineFraming.LongLinesDependOnChunks | MacOS/brain/engine.ts:2357-2359 | Past the cap the same text is read differently in two chunkings |
| LineTails.BlankIsWhite | MacOS/brain/codex-bridge.ts:137 | A line is dropped as blank exactly if it holds only the white space of ECMAScript |
| LineTails.LongLinesKeepTheirEnds | MacOS/brain/engine.ts:2353-2368 | Of any stream in any chunking all lines are handled in order: those that fit whole, of longer ones an end of at least the cap's length, none that is blank |
| LineCap.CapCostsExactlyLongLines | MacOS/brain/engine.ts:2353-2368 | A stream is read alike in every chunking, exactly its lines that are not blank handled whole and in order, if and only if each of them, the unterminated last one included, is within the cap |
| FrameThrottle.LiveWriter.OnProgress | MacOS/brain/engine.ts:3708-3719 | `flush` sends or arms as the transition says |
| FrameThrottle.LiveWriter.Send | MacOS/brain/engine.ts:3691-3707 | `sendFrame` sends the newest value, persisting once a second, unless settled |
| FrameThrottle.LiveWriter.OnTrailer | MacOS/brain/engine.ts:3717 | The trailing timer disarms itself and sends |
| FrameThrottle.LiveWriter.Settle | MacOS/brain/engine.ts:3720 | Settling disarms the timer for good |
| FrameThrottle.FramesAreSpaced | MacOS/brain/engine.ts:3686-3719 | Frames are 50 ms apart, persisted ones a second, each with a later flush than the one before |
| FrameThrottle.NewestIsSentOrDue | MacOS/brain/engine.ts:3712-3718 | While unsettled the output flushed last has been sent, or the timer is armed, due 50 ms after the last frame, and sends it |
| FrameThrottle.EventSends | MacOS/brain/engine.ts:3691-3719 | Over every run, until settled, a flush sends its output at once if and only if the last frame is 50 ms old, and the timer sends the output flushed last; a frame is persisted if and only if the last persisted one is a second old |
| FrameThrottle.SettledForGood | MacOS/brain/engine.ts:3720 | Nothing is sent after settling, whatever follows |
| FrameThrottle.ValuesAreFlushed | MacOS/brain/engine.ts:3691-3711 | Every frame carries a value as it was flushed |
| ConversationParsers.ParseClaude | MacOS/brain/conversation-sync.ts:222-249 | The Claude loop returns the kept turns of the fold of its rows |
| ConversationParsers.ParseCodex | MacOS/brain/conversation-sync.ts:325-359 | The Codex loop likewise |
| ConversationParsers.ParseConductor | MacOS/brain/conversation-sync.ts:426-450 | The Conductor loop likewise |
| ConversationParsers.Parser.Claude | MacOS/brain/conversation-sync.ts:226-246 | One row of the Claude loop applies its event, in place |
| ConversationParsers.Parser.Codex | MacOS/brain/conversation-sync.ts:329-355 | One row of the Codex loop applies its event, in place |
| ConversationParsers.Parser.AssistantMessage | MacOS/brain/conversation-sync.ts:241-245 | A reply opens a turn if none is open and appends thinking, text and tools in that order |
| ConversationParsers.Parser.Kept | MacOS/brain/conversation-sync.ts:248 | The filter keeps exactly the turns that hold something |
| ConversationLaws.TurnsAreTheStream | MacOS/brain/conversation-sync.ts:222-248 | Unrolling the turns gives back the stream of messages and blocks: each sits in the turn it belongs to, in order |
| ConversationLaws.ClaudeKeepsAll | MacOS/brain/conversation-sync.ts:222-249 | Transcripts hold exactly the emitted blocks, inputs exactly the kept messages, in order; outputs are the last text; the filter drops none of them |
| ConversationLaws.CodexKeepsAll | MacOS/brain/conversation-sync.ts:325-359 | The same of Codex rows |
| ConversationLaws.ConductorKeepsAll | MacOS/brain/conversation-sync.ts:426-450 | The same of Conductor rows |
| ConversationRows.ClaudeTurnsAreTheRows | MacOS/brain/conversation-sync.ts:222-249 | The turns, unrolled, are what the rows' parts say: which rows start a turn and when it is dated, what a reply adds and in which order, where results go, what is clipped, left out or ignored |
| ConversationRows.CodexTurnsAreTheRows | MacOS/brain/conversation-sync.ts:325-359 | The same of Codex rows |
| ConversationRows.ConductorTurnsAreTheRows | MacOS/brain/conversation-sync.ts:426-450 | The same of Conductor rows |
| ConversationRows.ReturnedHoldSomething | MacOS/brain/conversation-sync.ts:248 | Exactly the turns that hold a message or a block come back |
| ConversationLaws.StrayResultsBecomeAHumanTurn | MacOS/brain/conversation-sync.ts:233-239 | Over all rows: the imported human messages are exactly those typed and those made of tool results that meet no open turn, in order; they are the typed ones alone if and only if every row of results meets an open turn, or strips to nothing or a caveat |
| ConversationLaws.StrayCallsAreDropped | MacOS/brain/conversation-sync.ts:346-355 | A Codex import holds exactly the blocks of its rows other than calls that meet no open turn, and loses none if and only if every call meets one |

## Left out

- Other processes: a lease is contended only through its token; a second process that acts on the same leases is not part of this model.
- The disk: lease, job, schedule, watch and session stores are values; file locks appear only as lock attempts that may fail.
- Deletion of jobs and sessions while turns run, and the re-dispatch of pending idempotent jobs after a sweep (`engine.ts:2703-2708`), which acts like an outside trigger.
- The turn body itself: prompts, agents, review, git; it appears as a body that may write its job's status and drop its `running` entry at any time.
- SessionLeaseFair.EveryCallerIsServed: takes it that bodies end and armed timers fire; whether a body ends is the agent's affair.
- CronRunners.EverySlotFires: states nothing for periods under two minutes, where `CronRunners.MinuteSchedulesLoseSlots` shows that one-minute schedules lose slots.
- Edits of a schedule's time or cadence between ticks; daylight saving (days have 24 hours, instants are local); fractional intervals; the order in which a tick visits different schedules.
- Trimming and lower-casing of cadence and time texts: both are taken as already trimmed, cadences as already in lower case.
- The text of posts and notices, the lookup of a watch's page, and `stop()` of the watcher, which forgets evaluations under way.
- Ping and pong on either socket, tokens and handshake time-outs, profile names on reconnect, the bridge's remote calls other than that they fail when the active profile is lost.
- BinaryDetect.IsBinarySample: compares the ratio with a tenth over the reals; for samples of a few kilobytes the floating-point comparison decides alike. `mimeForPath` is not part of this model.
- LineCap.CapCostsExactlyLongLines: counts characters; the source's cap counts UTF-16 code units, of which a character outside the basic plane takes two.
- Decoding of bytes to text at chunk boundaries and JSON parsing: chunks are text and rows are decoded.
- The contents of frames other than the flushed output: progress, transcript tail and counters.
- Labels of tool calls and the wrappers stripped from messages: labels come with the rows, stripping is any function whose result is trimmed.
- SessionRestore.Background.RestoreSessions: looks at all tabs as of one moment; tabs closed while the restore itself runs are not part of this model.
- Visual settings of a session, cached session configurations and debugger attachments, which do not decide ownership.
- Tab ids are taken never to be reused.
