# Verification of the Proton worker's controller and four algorithms

A Dafny model of the parts of MailExpert in which guarantees span many functions, with proofs of those
guarantees. `dafny verify dfyconfig.toml` checks everything.

**The Bridge controller** (`deploy/proton-worker/controller.py`). `BridgeTypes.dfy` has the data, with the world around
the controller: a clock that only grows, and Bridge as a process with users whose every call may succeed, fail, or fail
after taking effect, with the native calls logged. `BridgeSpec.dfy` gives every critical section as a function on the
state. The two places that give up the lock are separate steps: a wake-up of the drain (`DrainRound`) and the two halves of a
recovery (`RecoverNative`, `RecoverFinish`). `BridgeMachine.dfy` runs the steps in any order with anything Bridge can do.
`BridgeShape.dfy`, `BridgeInvariant.dfy` and `BridgeSections.dfy` prove the invariant; `BridgeController.dfy` is the class with its fields
updated in place, every critical section a step of the machine that keeps the invariant of the object; `BridgeFrames.dfy`,
`BridgePromises.dfy`, `BridgeRemovals.dfy`, `BridgeGate.dfy` and `BridgeTiming.dfy` the promises over runs; `BridgeAccounts.dfy` the accounts of
created users, `BridgeOrphans.dfy` exactly when a user is lost, `BridgeRuns.dfy` runs in which it is. `BridgeUsers.dfy` has what becomes of
users no sign-in created and on whose word anybody is signed in, `BridgeVerdicts.dfy` the events of a sign-in, `BridgeAnswers.dfy` what the
answers of the RPCs mean, `BridgeGateTimes.dfy` how long the gate stays closed, `BridgeTicks.dfy` what a tick does, `BridgeBackoff.dfy` the
spacing of recoveries.

The worker can die between critical sections (`Reload`) and inside one, before or in any of its native calls (`crash` of an
answer); Bridge dies with it, and the next worker reads the journal. Between two native calls a section touches only memory and
the journal, which is replaced as a whole, so no other point leaves anything else behind; a crash after the journal write of an
expired gate, in the rest of the same tick, is one after snapshot_end.

Of a sign-in Bridge sends nothing after its terminal event (`finished`, `already_logged_in`, an error that is not
retryable), reports the user it created, and reports an existing user only while it exists; a restart drops the old
event stream.

**Where users are lost.** NoOrphans holds as long as no user was lost at one of four points, and `slipped` is set there exactly
when one is: (1) when a user is created (BirthLoses); (2) when a marked attempt is reconciled (UnmarkLoses); (3) when a restart of
Bridge frees the slot (RestartLoses); (4) when a new worker takes over (ReloadLoses). Each has its exact condition, and
`BridgeRuns.dfy` a run from a fresh worker: a user of the start snapshot that is created again; a committed attempt, its link
removed, that hides a user created again; a recovery before tick has marked an ended holder; a worker restart under an ended
holder, behind a drain whose shutdown failed, and under an attempt that inherited the clean-up of a user of its own start
snapshot. The module's opening comment (controller.py:3-8: the slot is held until the users the attempt may have created have been
reconciled) promises more than the code does there.

**A linked user** is never pending, but remove_user asks Bridge before it writes the journal: a worker that dies in between
leaves a link whose user is on its way out. LinkedRemoval shows that this is the only way, LinkedIsAsked a run.

**A removal** blocks sign-ins for a bounded time (RemovalStopsBlocking) if Bridge stays alive and nothing else brings a
recovery: a restart asks for every removal again and renews its time (RestartRenews), also the restarts of `_ensure_started`, which
have no backoff, so a Bridge that is restarted at least every 120 seconds never lets the removal come due.

**The AI run scheduler** (`frontend/src/aiRuns.js`, `frontend/src/aiResults.js`): `AiRuns.dfy` is the module's state and functions, with
promises as callbacks that come at any later time in any order; `AiRunsSafety.dfy` its invariant; `AiRunsRegistry.dfy` the state updated
in place; `AiRunsPromises.dfy` what holds over histories; `AiResults.dfy` the stored results against a most-recently-saved list.

**From `backend/src/routes/mail.js`**: `MoveCounts.dfy` (counts of a queued move), `ArchiveNames.dfy` (names in a ZIP), `FolderRename.dfy`,
`FolderRenameMirror.dfy` and `FolderRenameTables.dfy` (the rename of a subtree in four tables, section 6.3.5 of RFC 3501),
`SnoozeThread.dfy` (the reply graph, section 3.6.4 of RFC 5322). **The CLI parser** (`backend/src/cli/args.js`) is `CliArgs.dfy`, against a
grammar of lines.

`Dicts.dfy` has insertion-ordered dictionaries and sorted listings, `Wrappers.dfy` optional values.

## Model

| member | source | states |
|---|---|---|
| BridgeSections.RunKeeps | deploy/proton-worker/controller.py:92-938 | In every state of every run (any worker start, any critical sections in any order, any answers and events of Bridge, the worker dying between sections or before or in any native call) the invariant `BridgeInvariant.Inv` holds: well-formed attempts, one active attempt that holds the slot, no linked user being removed, recovery timers in range, leases apart, a sealed gate still, a well-formed journal that is in step with links and attempts as long as the worker lives. |
| BridgeSections.StepKeeps | deploy/proton-worker/controller.py:92-938 | Each of the twenty kinds of step keeps that invariant, whatever Bridge answers. |
| BridgeAccounts.NoOrphans | deploy/proton-worker/controller.py:259-292 | No orphan user over whole runs, crashes inside sections included: unless a user was lost at one of the four points below (which `slipped` records exactly then), every user a sign-in created is linked, being removed, owned by a live uncommitted attempt flagged createdByAttempt, or outside the start snapshot of the slot holder or of an attempt marked reconcile. |
| BridgeAccounts.StepCounts | deploy/proton-worker/controller.py:728-762 | Each step keeps the accounts of created users in order, or loses a user at one of those points (the inductive step of NoOrphans). |
| BridgeOrphans.BirthLoses | deploy/proton-worker/controller.py:800-810 | A sign-in loses the user it creates if and only if the user was in its start snapshot and no link, removal or other owner covers it; nothing else is lost while Bridge goes on. |
| BridgeOrphans.UnmarkLoses | deploy/proton-worker/controller.py:748-762 | Reconciling a marked attempt loses a user if and only if the user came after its start snapshot, nothing covers it, no other mark would find it, and another attempt checking or connected as it makes `_reconcile_orphans` leave it alone. |
| BridgeOrphans.ReconcileLoses | deploy/proton-worker/controller.py:728-746 | Reconciling all with no attempt active and every listing answered frees the slot and loses a user if and only if nothing covers it and every marked attempt leaves it alone. |
| BridgeOrphans.RestartLoses | deploy/proton-worker/controller.py:718-746 | A restart of Bridge with no attempt active and every listing answered loses a user if and only if nothing covers it and every marked attempt leaves it alone: under an ended holder that is not marked yet, whatever its sign-in created. |
| BridgeOrphans.ReloadLoses | deploy/proton-worker/controller.py:129-153 | A new worker loses a user if and only if the journal it reads has neither a link nor a removal of it, no connected owner, and no active or marked attempt that started before it was there. |
| BridgeOrphans.ForgottenIsSettled | deploy/proton-worker/controller.py:652-686 | An attempt that tick forgets has ended or is committed, and its user, if a sign-in created it, is linked, being removed or accounted for by an attempt that stays. |
| BridgeRuns.RecreatedIsLost | deploy/proton-worker/controller.py:800-810 | A run from a fresh worker: a user of the start snapshot goes while the sign-in runs (its link was removed) and is created by it again. |
| BridgeRuns.HiddenIsLost | deploy/proton-worker/controller.py:754-757 | A run: a committed attempt whose link was removed stays connected in memory and hides the user a later, correctly marked sign-in creates again. |
| BridgeRuns.RestartIsLost | deploy/proton-worker/controller.py:625-631 | A run: the event stream ends after a cancel, the next tick recovers Bridge before the holder is due, and the user of the late sign-in is lost. |
| BridgeRuns.ReloadedIsLost | deploy/proton-worker/controller.py:143-146 | A run: a worker restart after a cancel; the slot is not journaled, so only attempts that were active are marked. |
| BridgeRuns.UnwrittenIsLost | deploy/proton-worker/controller.py:527-537 | A run: a drain whose shutdown fails has marked the holder without writing the journal; a worker restart then loses its user. |
| BridgeRuns.InheritedIsLost | deploy/proton-worker/controller.py:901-908 | A run: a worker restart under a checking attempt that inherited the clean-up of a user of its own start snapshot. |
| BridgePromises.SlotProtocolHolds | deploy/proton-worker/controller.py:254-321 | In every reachable state at most one attempt is active, every active one is the slot holder, the slot names a known attempt that is not connected, and every native.login was made for a journaled slot holder with no reconciliation, recovery, snapshot or live attempt removal outstanding. |
| BridgePromises.LoginOnlyForNew | deploy/proton-worker/controller.py:259-292 | native.login is reached only through start_connection with an ID not known before, once, and the ID is known afterwards. |
| BridgePromises.NoSecondLogin | deploy/proton-worker/controller.py:266-270 | While an attempt is remembered it reaches native.login no second time, through any run, also across worker restarts. |
| BridgePromises.NoLoginBeforeReconciled | deploy/proton-worker/controller.py:254-257 | Through any run in which some attempt stays marked for reconciliation, nothing reaches native.login. |
| BridgePromises.CrashSafe | deploy/proton-worker/controller.py:129-152 | Wherever the worker dies (between sections, or before or in a native call inside one), the next one starts with the full invariant, exactly the links, attempts and commits of the journal, its removals with their reasons and fresh counters, an empty slot, no active attempt, and a mark exactly on the attempts the journal has active or marked. |
| BridgePromises.JournalInStep | deploy/proton-worker/controller.py:155-167 | As long as the worker lives the journal has the links, the attempts and the commits of its memory. |
| BridgePromises.DurableLinks | deploy/proton-worker/controller.py:155-167 | No step but a commit or a removal changes the links of the journal, whatever dies on the way. |
| BridgePromises.NoLoginBeforeCrashReconciled | deploy/proton-worker/controller.py:143-146 | After a crash in the middle of a sign-in nothing reaches native.login until the marks are gone. |
| BridgePromises.LinkDiscipline | deploy/proton-worker/controller.py:327-348 | Per step and link of the journal, crashes inside sections included: its generation changes only through a commit naming the current one, it goes only through a removal naming it, it appears only through a commit of a connected attempt of its user and address. |
| BridgePromises.LinkStays | deploy/proton-worker/controller.py:337-341 | Over runs: a link keeps its generation until somebody names that generation. |
| BridgePromises.CommittedStays | deploy/proton-worker/controller.py:342-345 | An attempt committed in the journal stays so, and connected, through every step for as long as it is remembered; so does memory as long as the worker lives. |
| BridgePromises.CommittedStaysOverRuns | deploy/proton-worker/controller.py:342-345 | The same through every run, also across worker restarts. |
| BridgeRemovals.LinkedUserIsSafe | deploy/proton-worker/controller.py:887-924 | In every reachable state no linked user is pending removal, none was linked when it was passed to native.remove_user, and no removal was newly opened for a user another uncommitted checking or connected attempt held. |
| BridgeRemovals.LinkedRemoval | deploy/proton-worker/controller.py:390-415 | A step hands to native.remove_user a user whose link the journal still has afterwards if and only if it is a remove_user of the user's last link, with no heirs, in which the worker dies between the call and the journal write. |
| BridgeRuns.LinkedIsAsked | deploy/proton-worker/controller.py:407-413 | A run that does so: the next worker has the link of a user that Bridge was asked to remove. |
| BridgeRemovals.CleanUpInherited | deploy/proton-worker/controller.py:887-908 | An attempt that ends while others hold its user asks Bridge for nothing; each of them inherits the clean-up. |
| BridgeRemovals.RemovalTimersStep | deploy/proton-worker/controller.py:662-679 | One pass of the removal timers: before it is due a removal is left alone; Bridge is to be recovered exactly if some due attempt removal has one of its two recoveries left and recovery is allowed; each such removal spends one, one without any left is stuck (and blocks sign-in no more), others only ask again. |
| BridgeRemovals.RecoveriesBounded | deploy/proton-worker/controller.py:662-679 | Over runs: while a removal goes on without being opened anew and the worker lives, the recoveries it has spent and spends are at most two, and once stuck it stays so. |
| BridgeRemovals.RemovalStopsBlocking | deploy/proton-worker/controller.py:662-679 | Bounded liveness: in a calm run with Bridge alive and no other reason to recover it, an attempt removal that has spent r recoveries keeps sign-ins out for at most (2 - r)(300 + 2d) + 120 + d seconds; then its user is gone or it is stuck. |
| BridgeRemovals.RestartRenews | deploy/proton-worker/controller.py:724-726 | Why the condition is needed: every restart that finds the user still there renews the time of its removal, so restarts at least every 120 seconds keep it from ever coming due. |
| BridgePromises.RecoverySpacing | deploy/proton-worker/controller.py:688-699 | A recovery stamps its time, at least min(recovery_seconds, 300) after the one before; nothing else touches the stamp. |
| BridgePromises.RecoveriesApart | deploy/proton-worker/controller.py:688-699 | Any two recoveries of one worker are at least min(recovery_seconds, 300) apart. |
| BridgeTiming.SlotIsFreed | deploy/proton-worker/controller.py:603-650 | Bounded liveness: with the gate open, restarts and listings succeeding and a tick at least every d seconds (tick waits for a running recovery), a sign-in holds the slot at most ttl + max(recovery_seconds, 300) + 4d seconds. |
| BridgeTiming.StepTimed | deploy/proton-worker/controller.py:603-650 | Every step keeps the slot holder within those bounds. |
| BridgeTiming.TickHolder | deploy/proton-worker/controller.py:603-644 | After the work of a tick the slot holder is not active past its lifetime, and if it ended recovery_seconds ago and recovery is allowed, Bridge is recovered. |
| BridgeTiming.RestartFrees | deploy/proton-worker/controller.py:718-737 | A successful restart frees the slot of an ended holder. |
| BridgeGate.DrainSeals | deploy/proton-worker/controller.py:497-546 | When snapshot_begin returns from its drain Bridge is not started (and stopped, if it was started), no lease is held, no attempt is active or waits for its commit, no recovery runs. |
| BridgeGate.DrainAnswers | deploy/proton-worker/controller.py:548-563 | The wait is bounded: the first wake-up snapshot_wait_seconds or more after the begin answers the call, whatever happened in between, and then the gate is sealed for it, open, or no longer its own. |
| BridgeGate.GateHolds | deploy/proton-worker/controller.py:497-601 | From then until the gate opens all of that stays true and no link changes and Bridge is not launched, under every interleaving without a worker restart. |
| BridgeGate.SealedStep | deploy/proton-worker/controller.py:205-223 | A step under a sealed gate leaves it sealed or opens it; links never change, Bridge is not launched while it is closed. |
| BridgeGate.BeginVouches | deploy/proton-worker/controller.py:505-515 | A repeated snapshot_begin, or one that takes over an expired gate, is answered at once; the gate is sealed exactly if an earlier call had drained it. |
| BridgeGate.BeginAgainDoesNotWait | deploy/proton-worker/controller.py:505-515 | While a sender holds a lease both are accepted over the held lease: the drain must be shorter than the gate's lifetime and the ID used once. |
| BridgeGate.LeaseIsReachable | deploy/proton-worker/controller.py:464-483 | That situation arises from the first acquire of a new worker. |
| BridgeGate.ForgottenProcessRunsOn | deploy/proton-worker/controller.py:625-631 | A Bridge process the controller has forgotten (stream ended, nothing needs Bridge) is not stopped by the snapshot: the gate is sealed while it runs. |
| BridgeGate.LeasesApart | deploy/proton-worker/controller.py:464-495 | In every reachable state held and cancelled leases are disjoint, at most 4096 cancelled ones are remembered, each once. |
| BridgeGate.LeaseStays | deploy/proton-worker/controller.py:485-488 | A granted lease is held until its own release or a worker restart, through every run. |
| BridgeGate.ReleasedStays | deploy/proton-worker/controller.py:485-488 | Acquire, then DELETE: the lease is not held afterwards, until it is asked for again. |
| BridgeGate.CancelWins | deploy/proton-worker/controller.py:471-495 | DELETE, then the late acquire: refused, nothing held, if fewer than 4096 DELETEs came in between. |
| BridgeGate.DeletesPileUp | deploy/proton-worker/controller.py:489-492 | DELETEs of leases nobody holds: exactly the newest 4096 are remembered. |
| BridgeGate.CancelLost | deploy/proton-worker/controller.py:489-492 | The bound is sharp: after 4096 DELETEs of other leases the late acquire is granted. |
| BridgeUsers.FoundUserStays | deploy/proton-worker/controller.py:887-899 | Over whole runs, worker deaths included: a user that Bridge had before the first worker, and whose last link nobody cuts, is never pending, never passed to native.remove_user, and stays in Bridge. |
| BridgeUsers.RemovalsAreDue | deploy/proton-worker/controller.py:748-762 | In every reachable state: whoever was asked to go, or waits to go in memory or journal, was not in Bridge before the first worker, or lost its last link to a remove_user that named its generation. |
| BridgeUsers.WaitingStays | deploy/proton-worker/controller.py:913-938 | Once a user is pending in memory and journal it is so until Bridge has it no more or a sign-in creates it again, through every run and every death of the worker. |
| BridgeUsers.SignedInOnBridgesWord | deploy/proton-worker/controller.py:826-849 | Over whole runs: no attempt is connected, in memory or journal, but for a user of whom Bridge said in an event of the run that it owns the address, is signed in and has split mode on. |
| BridgeUsers.StepHeard | deploy/proton-worker/controller.py:826-849 | Per step: only an event Bridge confirms signs anybody in; a user found in Bridge is spared by every step that does not cut its last link, a waiting one goes on waiting. |
| BridgeVerdicts.OnlyOwnUserGoes | deploy/proton-worker/controller.py:800-810 | The terminal event of a sign-in asks Bridge to remove its user only if the sign-in finished with a user outside the start snapshot of the slot holder; no other user is asked to go. |
| BridgeVerdicts.LateEnd | deploy/proton-worker/controller.py:800-810 | A sign-in that ends after its attempt frees the slot; a user of the start snapshot, or a linked one, is left alone; any other is handed to every live attempt that uses it, or waits to go, in the journal too. |
| BridgeVerdicts.FinishedIsJudged | deploy/proton-worker/controller.py:826-849 | The verdict on a finished sign-in follows from Bridge's answer alone: a foreign address fails the attempt and frees the slot, a signed-in user in split mode connects it and frees the slot, anything else leaves it checking in the slot. |
| BridgeVerdicts.ChangedIsJudged | deploy/proton-worker/controller.py:812-824 | The same verdict, whenever Bridge reports a change of the user of an attempt still checking. |
| BridgeVerdicts.EventTells | deploy/proton-worker/controller.py:765-798 | What challenges, errors and a verification demand make of the slot holder, ended or not; only a final error frees the slot. |
| BridgeVerdicts.StreamEndIsLoss | deploy/proton-worker/controller.py:781-783 | When the event stream ends the process counts as lost, and nothing else changes. |
| BridgeVerdicts.GoneIsForgotten | deploy/proton-worker/controller.py:812-821 | On a change of its user a removal is over if and only if Bridge lists the user no more. |
| BridgeAnswers.CommitAnswers | deploy/proton-worker/controller.py:327-348 | Exactly when a commit is accepted; then the link is the attempt's, with the named generation, also when it replaces another, and the attempt is committed, in memory and journal, and nothing else changes; a refused commit changes nothing. |
| BridgeAnswers.RemoveAnswers | deploy/proton-worker/controller.py:390-415 | An answer other than a refusal means the named link is gone, and no other, in memory and in the journal of a living worker; unlinked, that another link or an attempt with the clean-up keeps the user; removing, that the user waits to go, journaled; removed, that there was nothing to do. A refusal leaves all links. |
| BridgeAnswers.RemoveAccepts | deploy/proton-worker/controller.py:399-409 | A removal that names a link is not refused with the gate open and Bridge alive or another link of the user left. |
| BridgeAnswers.CredentialsAnswers | deploy/proton-worker/controller.py:350-388 | Credentials go only to a caller entitled by a connected attempt or by a link under its generation, for a user not pending, of whom Bridge says in this call that it owns the address, is signed in and has split mode on. |
| BridgeAnswers.CredentialsGranted | deploy/proton-worker/controller.py:350-388 | And they do go to such a caller when Bridge is alive and answers so. |
| BridgeAnswers.StartAnswers | deploy/proton-worker/controller.py:259-292 | A start of a known attempt, or while busy, closed or without address or password, changes nothing; a new one is refused without an attempt, or is then the slot holder with its address, authenticating, or failed if Bridge did not take it. |
| BridgeAnswers.StartNeeds | deploy/proton-worker/controller.py:254-276 | A new sign-in is accepted only with the slot free, the gate open, no recovery, no attempt active or marked, and no attempt removal that is not stuck. |
| BridgeAnswers.StartGoesOn | deploy/proton-worker/controller.py:259-292 | With the slot free and a Bridge that answers, a new sign-in is accepted, running in Bridge and journaled as active, with the users Bridge listed as its start snapshot. |
| BridgeAnswers.ContinueAnswers | deploy/proton-worker/controller.py:294-309 | A challenge answer is taken exactly from the slot holder that waits for this challenge; the attempt goes on, or has failed if Bridge did not take it; no other attempt changes. |
| BridgeAnswers.CancelAnswers | deploy/proton-worker/controller.py:311-321 | After a cancel the attempt is neither active nor connected without a commit; one that was is cancelled, any other is untouched; the slot is kept while its sign-in may run. |
| BridgeAnswers.AcquireAnswers | deploy/proton-worker/controller.py:464-483 | A lease is granted exactly if it was not cancelled and is held already or gate and worker are open, and held afterwards exactly if granted; no other lease changes. |
| BridgeAnswers.ReleaseAnswers | deploy/proton-worker/controller.py:485-495 | A release says whether the lease was held; it is not afterwards, and one that was not is the newest remembered. |
| BridgeAnswers.BeginAnswers | deploy/proton-worker/controller.py:497-515 | When snapshot_begin waits, is answered at once or is refused; a refusal changes nothing. |
| BridgeAnswers.RenewAnswers | deploy/proton-worker/controller.py:580-587 | A renewal is accepted exactly from the gate's own snapshot; a refused one changes nothing. |
| BridgeAnswers.BootStarts | deploy/proton-worker/controller.py:198-203 | A worker with links, removals or marks that answers its boot has Bridge started and not lost; one without leaves Bridge alone. |
| BridgeAnswers.ShutdownCloses | deploy/proton-worker/controller.py:243-252 | After a shutdown a Bridge that was started is stopped, ticks do nothing, sign-ins, new leases and new snapshots are refused without effect. |
| BridgeAnswers.JournalRoundTrip | deploy/proton-worker/controller.py:129-167 | Writing the journal and loading it gives every attempt back but for times and split request, one that was active failed and marked, with the same links and removals. |
| BridgeGateTimes.GateLasts | deploy/proton-worker/controller.py:497-612 | Over runs: once a snapshot has taken or renewed the gate at time c it is its own at least until c + snapshot_ttl, unless it ends it or a drain of it is refused; a tick before then does nothing at all. |
| BridgeGateTimes.GateLapses | deploy/proton-worker/controller.py:510-515 | And no longer unless renewed: from c + snapshot_ttl on a tick opens it and a begin takes it over. |
| BridgeGateTimes.RepeatDoesNotProlong | deploy/proton-worker/controller.py:505-508 | A begin repeated by the snapshot that holds the gate does not prolong it. |
| BridgeGateTimes.EndOpens | deploy/proton-worker/controller.py:565-578 | snapshot_end opens the gate of its own snapshot, says so, and starts a Bridge that links need, or sets the time of the next try; any other changes nothing. |
| BridgeGateTimes.DrainWaits | deploy/proton-worker/controller.py:548-563 | The drain is over exactly when no lease is held, no attempt within its lifetime is active or waits for its commit, nothing recovers and no attempt removal blocks, or at its deadline; it leaves the slot free or its holder marked. If Bridge does not stop, the gate opens and the process counts as lost. |
| BridgeGateTimes.OthersKeepGate | deploy/proton-worker/controller.py:418-446 | No step but begin, drain, end, renew, tick and a worker restart touches whose the gate is or how long. |
| BridgeTicks.TickSettles | deploy/proton-worker/controller.py:652-686 | After a tick no attempt past its lifetime is active or waits for its commit, and none that ended or was committed a lifetime ago is remembered, but for the slot holder and those marked. |
| BridgeTicks.TickStarts | deploy/proton-worker/controller.py:632-637 | A stopped Bridge that links need is started by the tick from the time the last failure set, or the start has failed and the next try is recovery_seconds later. |
| BridgeTicks.TickRecovers | deploy/proton-worker/controller.py:625-627 | A started Bridge that links need and that does not run is recovered from the time the last recovery set. |
| BridgeTicks.TickMarks | deploy/proton-worker/controller.py:616-624 | An ended holder that has kept the slot for recovery_seconds is marked for reconciliation. |
| BridgeTicks.TickWaits | deploy/proton-worker/controller.py:632-637 | Before that time no tick starts it. |
| BridgeTicks.TickRemembers | deploy/proton-worker/controller.py:652-686 | A tick changes the state of no attempt within its lifetime and forgets none of those, nor one that ended or was committed less than a lifetime ago. |
| BridgeTicks.TickRetries | deploy/proton-worker/controller.py:638-646 | A living Bridge that does not list its users while an attempt is marked is asked again after 2, 4, 8, ... and at most 60 seconds; from the fifth failure on it is recovered. |
| BridgeTicks.FailurePutsOff | deploy/proton-worker/controller.py:728-746 | A failed reconciliation keeps the slot and puts off the end of its holder to now. |
| BridgeTicks.RecoverEnds | deploy/proton-worker/controller.py:704-716 | When a recovery is over Bridge is started exactly if its restart succeeded and the worker was not shut down; after a failure the end of the slot holder counts from now. |
| BridgeBackoff.WaitsDouble | deploy/proton-worker/controller.py:688-699 | Any recovery and the next of the same worker, in any run, are as far apart as the first one set; if less than five minutes apart the second sets twice that wait, at most five minutes, else recovery_seconds. |
| BridgeBackoff.RecoveryBacksOff | deploy/proton-worker/controller.py:688-699 | One recovery: it comes no earlier than the last one set, and sets the next so. |
| BridgeFrames.Frames | deploy/proton-worker/controller.py:92-938 | Which step may change links, leases, sign-in calls, slot, attempts, timers and flags; all others leave them alone. |
| BridgeControllers.BridgeController.constructor | deploy/proton-worker/controller.py:93-153 | A new worker starts in the state its journal loads to. The object has the whole invariant `Inv` from here on. |
| BridgeControllers.BridgeController.Boot | deploy/proton-worker/controller.py:198-203 | Bridge is started when links, removals or marks exist. On an object with the invariant `Inv` the method, updating fields in place, makes exactly this step of the machine and keeps the invariant. |
| BridgeControllers.BridgeController.Shutdown | deploy/proton-worker/controller.py:243-251 | The worker closes once. On an object with the invariant `Inv` the method, updating fields in place, makes exactly this step of the machine and keeps the invariant. |
| BridgeControllers.BridgeController.StartConnection | deploy/proton-worker/controller.py:259-292 | All refusals in their order; otherwise the sign-in. On an object with the invariant `Inv` the method, updating fields in place, makes exactly this step of the machine and keeps the invariant. |
| BridgeControllers.BridgeController.ContinueConnection | deploy/proton-worker/controller.py:294-309 | A challenge is answered. On an object with the invariant `Inv` the method, updating fields in place, makes exactly this step of the machine and keeps the invariant. |
| BridgeControllers.BridgeController.CancelConnection | deploy/proton-worker/controller.py:311-321 | An attempt is cancelled. On an object with the invariant `Inv` the method, updating fields in place, makes exactly this step of the machine and keeps the invariant. |
| BridgeControllers.BridgeController.CommitConnection | deploy/proton-worker/controller.py:327-348 | A signed-in attempt is committed. On an object with the invariant `Inv` the method, updating fields in place, makes exactly this step of the machine and keeps the invariant. |
| BridgeControllers.BridgeController.Credentials | deploy/proton-worker/controller.py:350-388 | Credentials for an attempt or a link. On an object with the invariant `Inv` the method, updating fields in place, makes exactly this step of the machine and keeps the invariant. |
| BridgeControllers.BridgeController.RemoveUser | deploy/proton-worker/controller.py:390-415 | One link goes, its user with the last. On an object with the invariant `Inv` the method, updating fields in place, makes exactly this step of the machine and keeps the invariant. |
| BridgeControllers.BridgeController.AcquireSendLease | deploy/proton-worker/controller.py:464-483 | A send is reserved. On an object with the invariant `Inv` the method, updating fields in place, makes exactly this step of the machine and keeps the invariant. |
| BridgeControllers.BridgeController.ReleaseSendLease | deploy/proton-worker/controller.py:485-495 | A send is over, or cancelled in advance. On an object with the invariant `Inv` the method, updating fields in place, makes exactly this step of the machine and keeps the invariant. |
| BridgeControllers.BridgeController.SnapshotBegin | deploy/proton-worker/controller.py:497-520 | The gate closes, or is held already. On an object with the invariant `Inv` the method, updating fields in place, makes exactly this step of the machine and keeps the invariant. |
| BridgeControllers.BridgeController.DrainRound | deploy/proton-worker/controller.py:520-563 | One wake-up of the drain, and the end of snapshot_begin. On an object with the invariant `Inv` the method, updating fields in place, makes exactly this step of the machine and keeps the invariant. |
| BridgeControllers.BridgeController.SnapshotEnd | deploy/proton-worker/controller.py:565-601 | The gate opens. On an object with the invariant `Inv` the method, updating fields in place, makes exactly this step of the machine and keeps the invariant. |
| BridgeControllers.BridgeController.SnapshotRenew | deploy/proton-worker/controller.py:580-587 | The gate stays closed longer. On an object with the invariant `Inv` the method, updating fields in place, makes exactly this step of the machine and keeps the invariant. |
| BridgeControllers.BridgeController.Tick | deploy/proton-worker/controller.py:603-686 | The timers. On an object with the invariant `Inv` the method, updating fields in place, makes exactly this step of the machine and keeps the invariant. |
| BridgeControllers.BridgeController.RecoverNative | deploy/proton-worker/controller.py:688-706 | Bridge is recovered outside the lock. On an object with the invariant `Inv` the method, updating fields in place, makes exactly this step of the machine and keeps the invariant. |
| BridgeControllers.BridgeController.RecoverFinish | deploy/proton-worker/controller.py:707-716 | And reconciled under it. On an object with the invariant `Inv` the method, updating fields in place, makes exactly this step of the machine and keeps the invariant. |
| BridgeControllers.BridgeController.Deliver | deploy/proton-worker/controller.py:765-786 | An event of Bridge. On an object with the invariant `Inv` the method, updating fields in place, makes exactly this step of the machine and keeps the invariant. |
| BridgeControllers.BridgeController.Load | deploy/proton-worker/controller.py:129-153 | The loops give the attempts, links and removals of the journal: active attempts failed and marked, removals with fresh counters. |
| BridgeControllers.BridgeController.ForgetCancelled | deploy/proton-worker/controller.py:491-492 | The popping loop leaves exactly the newest 4096 cancelled leases. |
| BridgeControllers.BridgeController.Expire | deploy/proton-worker/controller.py:652-660 | The loop over a snapshot of the attempts, which its body changes, makes the pass that stops or expires each one past its lifetime. |
| BridgeControllers.BridgeController.RemovalTimers | deploy/proton-worker/controller.py:662-679 | The loop over a snapshot of the removals makes the pass of RemovalTimersStep, with its recover flag. |
| BridgeControllers.BridgeController.Prune | deploy/proton-worker/controller.py:681-686 | The loop forgets exactly the prunable attempts. |
| BridgeControllers.BridgeController.AfterRestart | deploy/proton-worker/controller.py:718-726 | Reconciliation, then the loop over the removals there were before it. |
| BridgeControllers.BridgeController.ReconcileFlagged | deploy/proton-worker/controller.py:730-733 | The loop reconciles every attempt still marked when its turn comes; its flag says whether all went well. |
| BridgeControllers.BridgeController.ReconcileOrphans | deploy/proton-worker/controller.py:748-762 | The loop over the sorted orphans removes each, and the mark is cleared, unless the listing fails. |
| BridgeControllers.BridgeController.OnUserChanged | deploy/proton-worker/controller.py:812-824 | A removal that Bridge has carried out ends; the loop checks the attempts of this user again. |
| BridgeControllers.BridgeController.MarkHeirs | deploy/proton-worker/controller.py:906-907 | The loop flags exactly the heirs. |
| AiRunsPromises.SchedulerHolds | frontend/src/aiRuns.js:35-128 | After every step of any history: active counts the entries holding a slot and is at most 3; the queue is exactly the registry's queued entries, without repeats, in start order; none waits while a slot is free; launches follow start order; each launch is released exactly once, at the latest by its finally; a stream goes on exactly for the listed entries, those of all others are aborted. |
| AiRunsSafety.StepKeeps | frontend/src/aiRuns.js:48-128 | Every call and every promise callback keeps the scheduler's invariant. |
| AiRunsSafety.ReleaseKeeps | frontend/src/aiRuns.js:35-46 | A released slot goes to the head of the queue at once. |
| AiRunsSafety.FinallyKeeps | frontend/src/aiRuns.js:83-83 | finally gives the slot back unless a cancellation did, and launches a prefix of the queue, nothing else. |
| AiRunsSafety.DiscardKeeps | frontend/src/aiRuns.js:86-93 | A discarded entry leaves registry and queue, its slot goes on, nothing is saved. |
| AiRunsSafety.AbortAllKeeps | frontend/src/aiRuns.js:118-128 | Aborting all empties registry and queue, launches nothing and saves nothing. |
| AiRunsSafety.ResolveKeeps | frontend/src/aiRuns.js:62-72 | A listed run that resolves with text leaves the registry, others stay. |
| AiRunsPromises.LateIsHarmless | frontend/src/aiRuns.js:50-83 | A delta, resolve, reject or finally of a cancelled, replaced or aborted run changes no registry entry, no other run's text and no stored result; its finally may only let waiting runs start. |
| AiRunsPromises.GoneForGood | frontend/src/aiRuns.js:50-83 | A run that has left the registry never comes back and saves nothing in any later history. |
| AiRunsPromises.ResultIsSaved | frontend/src/aiRuns.js:62-68 | A listed run that resolves with text calls saveResult exactly once, under its own message and action, and the stored results of the message then show the text. |
| AiRunsPromises.StartReplaces | frontend/src/aiRuns.js:98-108 | A request without message, action or function does nothing; a queued or streaming run is reused unless forced; otherwise the new entry, younger than all, is what the registry has, loading without text, and the other entries stay. |
| AiRunsPromises.CancelAborts | frontend/src/aiRuns.js:86-116 | A cancelled run is off registry and queue, has no slot, and its stream, if it was launched, is aborted; others stay, but that waiting runs may start. |
| AiRunsPromises.AbortAllAborts | frontend/src/aiRuns.js:119-128 | Aborting all does so to every run the registry has, launches none and leaves entries of earlier runs as they were. |
| AiRunsPromises.ReplacedIsAborted | frontend/src/aiRuns.js:98-108 | And a start that replaces a run does so to that run. |
| AiRunsPromises.CallbackShows | frontend/src/aiRuns.js:55-82 | What a listed run's delta, result without text, error or abort shows; no other entry changes. |
| AiRunsRegistry.RunRegistry.constructor | frontend/src/aiRuns.js:20-33 | The registry starts empty, with the scheduler's invariant. |
| AiRunsRegistry.RunRegistry.Start | frontend/src/aiRuns.js:98-108 | Afterwards the run of a valid request is listed; nothing is saved. In place, on a registry with the scheduler's invariant, exactly this step of the scheduler, which keeps it. |
| AiRunsRegistry.RunRegistry.Cancel | frontend/src/aiRuns.js:111-116 | Afterwards the run of the message and action is not listed; nothing is saved. In place, on a registry with the scheduler's invariant, exactly this step of the scheduler, which keeps it. |
| AiRunsRegistry.RunRegistry.AbortAll | frontend/src/aiRuns.js:119-128 | Afterwards registry and queue are empty; nothing is saved. In place, on a registry with the scheduler's invariant, exactly this step of the scheduler, which keeps it. |
| AiRunsRegistry.RunRegistry.Delta | frontend/src/aiRuns.js:55-59 | Text arrives. In place, on a registry with the scheduler's invariant, exactly this step of the scheduler, which keeps it. |
| AiRunsRegistry.RunRegistry.Resolve | frontend/src/aiRuns.js:62-72 | The run resolves. In place, on a registry with the scheduler's invariant, exactly this step of the scheduler, which keeps it. |
| AiRunsRegistry.RunRegistry.Reject | frontend/src/aiRuns.js:73-82 | The run fails or was aborted. In place, on a registry with the scheduler's invariant, exactly this step of the scheduler, which keeps it. |
| AiRunsRegistry.RunRegistry.Finally | frontend/src/aiRuns.js:83-83 | The promise is over. In place, on a registry with the scheduler's invariant, exactly this step of the scheduler, which keeps it. |
| AiRunsRegistry.RunRegistry.PumpQueue | frontend/src/aiRuns.js:42-46 | The loop launches from the front of the queue while slots are free. |
| AiRunsRegistry.RunRegistry.GetRuns | frontend/src/aiRuns.js:132-144 | Exactly the registry's entries of the message by action, queued ones as loading. |
| AiRunsRegistry.RunRegistry.GetAiState | frontend/src/aiRuns.js:148-155 | The stored results of the message as done, overlaid with its runs. |
| AiResults.HistoryRefines | frontend/src/aiResults.js:27-59 | From a well-formed store, through any saves and removals (writes may fail), the store stays well-formed and holds what a plain list of the 200 most recently saved messages holds. |
| AiResults.SavedRefines | frontend/src/aiResults.js:33-45 | One save moves the message to the end of that list and drops the oldest beyond 200. |
| AiResults.RemovedRefines | frontend/src/aiResults.js:48-59 | One removal takes one result, and the message with its last. |
| AiResults.SavedIsRead | frontend/src/aiResults.js:33-45 | A saved result is read back; other messages keep theirs; only the least recently saved message of a full store can go. |
| AiResults.EvictedWf | frontend/src/aiResults.js:40-43 | The eviction loop keeps the store well-formed and drops exactly the front of the list. |
| AiResults.AiResultsCache.SaveResult | frontend/src/aiResults.js:33-45 | The stored value becomes the specified one, or stays when the write fails. |
| AiResults.AiResultsCache.RemoveResult | frontend/src/aiResults.js:48-59 | Likewise; nothing is written when there is nothing to remove. |
| MoveCounts.QueueMove | backend/src/routes/mail.js:493-524 | The rows the queue moved, as the subsequence of the rows asked for whose IDs it answered, and the net change of every folder but the All Mail the rows go to and an All Mail some row has left; the changes sum to zero when none is left out. |
| MoveCounts.NetIsRecount | backend/src/routes/mail.js:497-521 | The net change of a folder is rows after minus rows before, total and unread, for any mix of sources and rows already in the destination. |
| MoveCounts.AdjustmentsAreRecount | backend/src/routes/mail.js:500-522 | What is adjusted for a tracked folder is what a recount finds. |
| MoveCounts.MovedRows | backend/src/routes/mail.js:495-496 | Exactly the subsequence of the rows asked for whose IDs the queue answered: every occurrence, nothing else, in their order. |
| ArchiveNames.FreeName | backend/src/routes/mail.js:855-861 | The renaming loop ends for every set of used names and answers the first free one of the name and its numbered candidates; a free name is kept. |
| ArchiveNames.CandidatesDiffer | backend/src/routes/mail.js:858-861 | The candidates for one name differ from each other and from the name. |
| ArchiveNames.DecimalInjective | backend/src/routes/mail.js:859-859 | Different numbers render differently. |
| ArchiveNames.ArchiveEntries | backend/src/routes/mail.js:847-864 | One entry per fetched attachment, in order, with its content, under the first free name. |
| ArchiveNames.ArchivedNames | backend/src/routes/mail.js:847-864 | The names are pairwise distinct and a name not used before is kept. |
| FolderRenameTables.MailTables.RenameFolder | backend/src/routes/mail.js:1420-1517 | The tables change only if the rename goes through, which is exactly when the fields are valid, the account exists, no move is under way and the server agrees. Both unique keys hold afterwards; the new path is the old one with what follows its last delimiter replaced; no snooze or move is lost and both their paths follow; every folder left keeps its name, but that the one at the new path takes the new one; unless the new name puts the tree into itself, folders and messages are exactly those of before under their new paths and nothing of the account is left under the old one; the rest stays. |
| FolderRename.NewPathIs | backend/src/routes/mail.js:1431-1433 | Split, replace and join: the new name replaces what follows the last delimiter. |
| FolderRename.SplitEnds | backend/src/routes/mail.js:1431-1433 | Splitting and joining give the path back; the last part follows the last delimiter. |
| FolderRename.MovedInjective | backend/src/routes/mail.js:1461-1464 | The path map is injective on the subtree. |
| FolderRename.MovedInTree | backend/src/routes/mail.js:1461-1464 | A path of the old tree lands in the old tree again exactly if the new name is the old last component or continues it with the delimiter. |
| FolderRename.InsideIsInTree | backend/src/routes/mail.js:1431-1433 | That condition is when the new path lies in the old tree. |
| FolderRenameMirror.FolderMeetsNone | backend/src/routes/mail.js:1451-1464 | After the delete no folder the update moves meets another row at its new path. |
| FolderRenameMirror.MessageMeetsNone | backend/src/routes/mail.js:1469-1483 | Likewise for messages of the same UID. |
| FolderRenameMirror.FolderKeysKept | backend/src/routes/mail.js:1451-1468 | The unique key (account, path) is kept. |
| FolderRenameMirror.MessageKeysKept | backend/src/routes/mail.js:1469-1483 | The unique key (account, uid, folder) is kept. |
| FolderRenameMirror.FoldersLeft | backend/src/routes/mail.js:1451-1464 | A folder row that stays is under the old path afterwards if and only if it was before and the new name is the old last component or continues it with the delimiter. |
| FolderRenameMirror.MessagesLeft | backend/src/routes/mail.js:1469-1483 | Likewise a message row. |
| FolderRenameMirror.SnoozesLeft | backend/src/routes/mail.js:1485-1497 | Likewise both paths of a snooze. |
| FolderRenameMirror.MovesLeft | backend/src/routes/mail.js:1498-1506 | Likewise both paths of a queued move. |
| FolderRenameMirror.PlainNameIsOutside | backend/src/routes/mail.js:1431-1433 | A differing name without the delimiter never does. |
| FolderRenameMirror.SameNameDeletesTree | backend/src/routes/mail.js:1451-1459 | Renaming to the same name deletes every folder and message row of the subtree as its own stale double. |
| FolderRenameMirror.FoldersMirrored | backend/src/routes/mail.js:1451-1464 | Otherwise the folders afterwards are exactly the mapped folders before. |
| FolderRenameMirror.MessagesMirrored | backend/src/routes/mail.js:1469-1483 | Likewise the messages, by UID and folder. |
| FolderRenameMirror.OthersStay | backend/src/routes/mail.js:1451-1483 | Outside the subtree nothing changes but the name of the folder at the new path. |
| FolderRenameMirror.RowsFollow | backend/src/routes/mail.js:1485-1506 | No snooze or queued move is lost and both paths of each follow the same map; the folder at the new path takes the new name, every other keeps its own; rows of other accounts stay. |
| SnoozeThread.GatherSnoozeConversation | backend/src/routes/mail.js:2289-2360 | A letter without thread is alone; otherwise the acted-on Message-ID first, then once each, in pool order, every other reachable Message-ID with a letter in the same folder that is not snoozed, and nothing else. |
| SnoozeThread.Search | backend/src/routes/mail.js:2328-2333 | The search ends and `seen` is exactly the connected component in the undirected reply graph, in whatever order neighbours are taken. |
| SnoozeThread.Neighbours | backend/src/routes/mail.js:2320-2327 | The adjacency sets are exactly the undirected links between letters of the pool. |
| SnoozeThread.Pick | backend/src/routes/mail.js:2347-2352 | The first letter of each qualifying Message-ID, in pool order. |
| SnoozeThread.ClosedHoldsPath | backend/src/routes/mail.js:2328-2333 | A set closed under neighbours holds every path that starts in it. |
| CliArgs.ParseArgs | backend/src/cli/args.js:24-74 | The loop computes the specified outcome, which the lemmas below describe. |
| CliArgs.AcceptsExactly | backend/src/cli/args.js:24-74 | A line is accepted, with these flags and args, if and only if it consists of valid items (positionals, boolean flags, `--flag=value`, `--flag value`, aliases, `--` and the rest) without a repeated flag and asks for help, or has a word for every required positional and none too many; the flags are those given, the args the words by place. |
| CliArgs.LineAnswers | backend/src/cli/args.js:61-73 | The answer to any line that reads: help gives empty args; too few words name exactly the required positionals not reached, too many the first extra word; otherwise each name reached has the word at its place. |
| CliArgs.RefusesExactly | backend/src/cli/args.js:30-60 | An option is refused exactly when the words are a line up to it and it is unknown, given before, boolean with a value, or last without the value it needs. |
| CliArgs.OptionNames | backend/src/cli/args.js:43-47 | After two dashes an alias or a flag, an alias first; after one dash only an alias. |
| CliArgs.ScanLine | backend/src/cli/args.js:30-60 | Every such line is read as what it says. |
| CliArgs.ScannedIsLine | backend/src/cli/args.js:30-60 | Whatever is read is such a line, which renders back to the same words. |
| CliArgs.ApartIsJoined | backend/src/cli/args.js:51-59 | `--flag value` parses as `--flag=value` wherever an option may stand, whatever follows. |
| CliArgs.RoundTrip | backend/src/cli/args.js:24-74 | Any flags in canonical form in any order, then `--` and any fitting words, parse back to the same flags and args. |
| CliArgs.AssignedAt | backend/src/cli/args.js:69-72 | Each positional gets the word at its place, and no other name is set. |

## Left out

- BridgeAccounts.NoOrphans: speaks of runs in which no user was lost, because the code can lose one; BridgeOrphans.dfy has the exact condition at each point, BridgeRuns.dfy a run.
- BridgeOrphans.RestartLoses: assumes that every listing of users is answered, because after one that fails the attempts of the others are reconciled one by one (UnmarkLoses) and the slot is kept.
- BridgeRemovals.LinkedUserIsSafe: speaks of the links of memory; what a crash leaves in the journal is LinkedRemoval.
- BridgeRemovals.RemovalStopsBlocking: speaks of one removal with no other reason to recover Bridge, because every recovery and restart renews the time of all removals.
- BridgeGate.ReleasedStays: assumes a living worker, because a dead one takes no DELETE.
- BridgeGate.GateHolds: speaks of the gate after a drain that sealed it, not after a repeated or reclaiming snapshot_begin, because those do not wait (BeginAgainDoesNotWait shows it).
- BridgeGateTimes.GateLasts: speaks of one worker, because a new one has no gate; of a repeated begin it says nothing, because that does not prolong the gate (RepeatDoesNotProlong).
- BridgeTicks.TickStarts: speaks of a worker with links, because removals and marks may be gone by the time tick looks after the process; so does TickRecovers.
- BridgeTicks.TickMarks: speaks of a started Bridge, because one that is not is started in the same tick, which reconciles and frees the slot.
- BridgeTicks.TickRetries: speaks of a worker with a free slot, no removals and nothing to expire, because those may bring a recovery of their own in the same tick.
- BridgeVerdicts.GoneIsForgotten: speaks of a user no attempt is checking, because its check may ask Bridge to remove it again.
- BridgeGate.DrainSeals: says that the process is gone only if the controller counted it as started, because a forgotten process is not stopped.
- BridgeTiming.SlotIsFreed: assumes that no restart and no listing of users fails in the run, because with failures the controller puts the end of the holder off on purpose.
- FolderRenameTables.MailTables.RenameFolder: the name comes without surrounding blanks, and a refusal of the server and any other failure are one reply; the worker's hold on the folder and the renewal of move guards are not modelled.
- MoveCounts.QueueMove: takes the queue's answer as given (each moved row once, with the folder and read state it saw); services/moveQueue.js is not part of this model.
- SnoozeThread.GatherSnoozeConversation: takes the Message-IDs of References and In-Reply-To as given, and the live snoozes as a set.
- ArchiveNames.ArchiveEntries: takes file names as safeFilename answers them; size limits and streaming are not modelled.
- AiResults.HistoryRefines: stored text that is JSON of another shape (a data member that is no map of results, IDs that are names of object members) is not modelled.
- Operations and run entries are values in dictionaries, by their ID, not heap objects; aliasing of two references to one of them is not modelled.
- deploy/proton-worker/native.py and worker.py: gRPC, processes, sockets and HTTP are not modelled beyond which calls and events exist.
- The journal is one value replaced at once; writing, fsync, renaming and JSON text are not modelled, and a write never fails.
- Passwords, challenge secrets and the contents of credentials are opaque; ID patterns are not modelled (IDs are numbers in the order of their texts), lower case is ASCII only, an address is any text with an at sign of at most 320 characters.
- snapshot_begin measures its wait on time.monotonic, the model on the clock of the controller.
- Shutdown is one step, though the controller stops Bridge after it has released the lock.
- An ID of a lease is always given; the random one for a request without is not modelled.
- Events of an unknown kind do nothing in the code and have no case here; an error event with an unknown code ends the attempt and is OtherError; an event without a user names None, and a changed user that nobody knows changes nothing.
- health() and logging: reads without state. Listeners of the run registry: notifications only.
- RFC 3501 delimiters are one character; the default is '/'.
- JavaScript lookups that find members of Object.prototype (an option called `--constructor`) are not modelled.
- parseCount, the CLI commands, their output and the Google app CLI: printing and thin calls.
- Express routes, sign-in flows, SQL access, IMAP calls, React and the AI provider are not modelled.
