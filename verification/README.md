# dora: a verified model of the coordinator and its neighbours

This project models four parts of dora in Dafny 4.11 and proves what they promise.

* **The coordinator** (`binaries/coordinator`). One event loop owns the live dataflows, the
  pending restarts, the results and the archive, the daemon connections and a persistent
  store. Each handler runs to completion, so each is one atomic step.
* **The CLI session** (`binaries/cli/src/ws_client.rs`). It multiplexes requests, log
  streams and topic subscriptions over one WebSocket.
* **The build-input fingerprint** (`binaries/cli/src/session.rs`). It decides when a
  cached build may be reused.
* **The wire-format gate** (`scripts/qa/breaking_changes.py`). It decides whether a new
  release can still decode what an old one sends.

`dafny verify dfyconfig.toml` checks the whole project.

## How the model is built

**The coordinator as a specification.** What the coordinator knows about one dataflow is a
`Slot`: its live entry, its pending restart, its stored record, and every message sent on
its behalf. `SlotStep` says how one event moves one slot. `Step` says how an event moves
the whole `State`, and `StepIsPointwise` connects the two. A run is any sequence of enabled
events from the empty state. Everything outside the coordinator's control is part of the
event: the clock, which store operations fail, what daemons acknowledge, where a start
placed its nodes, and the iteration order of hash maps. Every theorem about runs is
therefore a statement about all of those choices.

**The coordinator as it is written.** `CoordinatorLoop.EventLoop` is the imperative
counterpart. It has the source's own fields (maps and insertion-ordered maps that handlers
reassign, loop by loop), and one method per handler. `EventLoop.Handle` is proved to take
exactly the specified step, for every event and every state that satisfies the invariant.
So each theorem about `Step` is a theorem about the handlers.

**Three smaller objects** follow the same scheme: `Builds.BuildTable`,
`Replication.StateLog` and `WsSession.Multiplexer`.

**Files.** `common.dfy` has the insertion-ordered map. `coordinator_types.dfy`,
`dataflow_slot.dfy` and `coordinator.dfy` are the specification. `loop_steps.dfy` and
`coordinator_loop.dfy` are the handlers. The theorems about the coordinator are in

* `coordinator_invariants.dfy`, `reply_conservation.dfy`, `answer_meaning.dfy`: what every
  step keeps, that every caller is answered once, and that every message is true;
* `restart_safety.dfy`, `ready_barrier.dfy`, `barrier_verdict.dfy`,
  `disconnect_confluence.dfy`, `recovery_spacing.dfy`, `watchdogs.dfy`: the protocols with
  the daemons and their time limits;
* `dataflow_identity.dfy`, `dataflow_names.dfy`, `node_homes.dfy`: what a dataflow is, how it
  is called and where its nodes are;
* `terminal_verdicts.dfy`, `finish_and_clean.dfy`, `record_contents.dfy`,
  `record_versions.dfy`, `results_history.dfy`: what the store and the histories say.

`builds.dfy`, `replication.dfy`, `ws_session.dfy`, `wire_gate.dfy`, `fnv.dfy` and
`fingerprint.dfy` stand on their own.

**Hiding definitions.** Some predicates have the form
`forall z {:trigger Open(z)} :: Open(z) && z == 0 ==> P`. They mean `P`. The guard keeps
the solver from unfolding `P` until a proof writes `assert Open(0)`.

## Where the code differs from what it promises

The model follows the code. For each promise below the condition under which it holds is
proved, and a run or an input on which it fails. The condition is exact unless the item says
otherwise.

1. *A properly finished dataflow cannot be resurrected*
   (`binaries/coordinator/src/dataflow_events.rs:190-193`). A failed one can: a report
   revives it if and only if the report names it, it has left the archive, its record is
   readable and its descriptor resolves (`FinishedFailureRevivesIff`). If only the descriptor
   does not resolve, the record still ends up as Running with nothing live behind it.
   `FailedDataflowComesBack` is the run: finish with a failing node, process restart, report.
2. *Only fully completed dataflows are eligible for clean*
   (`binaries/coordinator/src/control_requests.rs:895`). Clean deletes the record of a
   dataflow that waits for its daemons if and only if the history holds a partial result
   (`CleanDeletesRecoveringIff`). `CleanForgetsAWaitingDataflow` gives the run for every
   dataflow on two daemons, and `ForgottenDataflowIsIgnored` what follows.
3. *Members of a live dataflow are connected daemons.* True unless a status report comes
   from a daemon that is not registered, about a dataflow it can claim, and then false
   (`MembersStayConnectedIff`). `LostDaemonRejoins` is the run: start, a tick that drops the
   daemon, its status report.
4. *A live dataflow without daemons is owned by the spawn watchdog*
   (`binaries/coordinator/src/daemon_liveness.rs:188-192`). Not after a late spawn success,
   and only then (`StaysAttendedIff`, `AttendedRun`). `LateSuccessStrands` is the run: start, a tick that
   drops the only daemon, its spawn report. `StrandedOutlivesTicks` says what follows.
5. *Catch-up brings a daemon to the head of the log.* It does if and only if every owed
   entry is for a node this daemon runs and can reach, and the nodes' channels take them all
   (`CatchUpReachesHeadIff`). In a dataflow on several daemons an entry for another daemon's
   node is never passed (`ForeignEntryStalls`). `ForeignWriteStalls` is the run: after a single
   write for another daemon's node, a daemon is never at the head again without a full replay.
6. *A terminal verdict is final.* It is, through every continuation without a clean, if and
   only if its dataflow is not live (`VerdictIsFinalIff`). That is so in every run whose
   writes for this dataflow succeed (`TerminalVerdictIsAbsorbing`). `LostWriteUndoesVerdict`
   is the run with one lost write: report, tick, ready.
7. *After the pruned-log fallback the daemon is caught up.* The fallback sends what is
   stored and readable, and deletes nothing. It brings the daemon up to date, whatever the
   daemon had applied so far, if and only if every parameter touched since its
   acknowledgement is still stored and its node is readable (`ReplayAlwaysSyncsIff`).
   `MissedDeletionStays` is the run in which a deleted parameter stays for good.
8. *An unchanged protocol passes the gate.* If and only if, in every JSON enum, the last
   mention of a variant keeps the form and the fields of every earlier mention
   (`CompatibleReflexiveIff`). `ListedTwiceFails` is an enum with two members that fails
   against itself; with distinct names every protocol passes (`DistinctIsCompatible`).
9. *The canonical text tells build inputs apart.* It does for inputs without line breaks,
   without `=` in variable names, and without the literal value `none`
   (`CanonicalIsUnique`). This condition is sufficient, and none of its three parts can be
   dropped (`NewlineIsAmbiguous`, `EqualsIsAmbiguous`, `NoneIsAmbiguous`).
10. *Restarting the coordinator marks running dataflows as failed*
    (`binaries/coordinator/src/lib.rs:419-420`). The code marks them Recovering, if and only
    if they were in flight and the store could be listed and written (`BootRecoversIff`).
11. *What was stored while a daemon could not be reached is replayed when it reconnects*
    (`binaries/coordinator/src/control_requests.rs:1093-1095` and `:1159-1161`). An entry
    rebuilt from the store has an empty log, so only the barrier's parameter replay is left.
    It brings the daemon up to date, whatever the daemon had applied so far, if and only if
    every parameter that changed since is stored and readable (`RebuiltSyncsIff`).
    `OfflineDeletionStays`: a parameter deleted in between stays with the daemon in every run
    until it is written again.
12. *The barrier's parameter replay restores the desired state*
    (`binaries/coordinator/src/params.rs:201-202`). It collects values once and sends them
    from a background task. Sending one keeps the daemon as close to the store as the log can
    tell, if and only if the value is still the stored one or its parameter has an
    unacknowledged change (`ChangeKeepsBehindIff`, `UntouchedSendIsSafe`).
    `LateSendUndoesCatchUp` is the run: collect, set, acknowledge, send.
13. *The ready barrier waits for every daemon of a dataflow placed on several*
    (`binaries/coordinator/src/handlers.rs:739-743`). It does while the entry lives: whenever it
    is released, each placed daemon was ready, was lost or reported the dataflow, or the entry
    was dropped in between (`BarrierWaitsForEveryone`). An entry rebuilt from the store awaits
    nobody, so its first ready report releases the barrier. `RebuiltBarrierDoesNotWait` is the
    run: start on two daemons, process restart, report and ready of one.
14. *The name of a running dataflow is unique*
    (`binaries/coordinator/src/control_requests.rs:616-625`). It is, except after a report
    that revives a dataflow whose name was given away in the meantime, and only then
    (`NamesStayUniqueIff`, `NamesAreUnique`). `TwoOfTheSameName` is the run: exit of the only
    daemon, start under the same name, report.
15. *The version of a record increases with every persist*
    (`libraries/coordinator-store/src/lib.rs:128-129`). It never falls (`VersionNeverFalls`),
    and a changed record has a higher version if and only if the live entry is not behind the
    record or the change is that of a process restart (`VersionRisesIff`). The live entry
    falls behind when a report promotes its record. `TwoRecordsOneVersion` is the run: start,
    report, stop.

## Model

| member | source | states |
|---|---|---|
| `ReplyConservation.RepliesAreConserved` | binaries/coordinator/src/control_requests.rs:660-801 | In every run of one coordinator process, for every dataflow and caller: times parked plus times answered equals the requests that brought the caller. Nobody is lost, nobody is answered twice. |
| `ReplyConservation.StepConserves` | binaries/coordinator/src/dataflow_events.rs:54-269 | Every event other than a process restart changes that account by exactly the caller it brings, on any state. |
| `ReplyConservation.FinishAccount` | binaries/coordinator/src/dataflow_events.rs:71-236 | Completing a dataflow moves the restart caller, the stop waiters and the spawn waiters from parked to answered, one for one. |
| `ReplyConservation.TearDownAccount` | binaries/coordinator/src/spawn_build.rs:512-653 | Tearing down a failed spawn turns every parked stop waiter and restart caller into one answer; only the spawn waiters, who were answered before, leave the account. |
| `ReplyConservation.DisconnectAccount` | binaries/coordinator/src/daemon_liveness.rs:366-418 | Losing daemons, with or without a reclaim, loses no parked caller. |
| `CoordinatorInvariants.InvStep` | binaries/coordinator/src/lib.rs:472-587 | Every enabled event keeps: pending restarts are live, no failed spawn stays live, no machine is registered twice, histories are well-formed, live and archived dataflows are disjoint. |
| `CoordinatorInvariants.InvRun` | binaries/coordinator/src/lib.rs:349-365 | The invariant holds in every state of every run. |
| `CoordinatorInvariants.HistoriesStayValid` | binaries/coordinator/src/lib.rs:40-51 | Results and archive stay duplicate-free ordered maps, and only dataflows that went down in this very step enter the archive. |
| `CoordinatorInvariants.ArchivedStaysDown` | binaries/coordinator/src/daemon_events.rs:468-487 | A status report never brings back a dataflow while it is archived, whatever it lists and however often. |
| `CoordinatorInvariants.ConnsKeepIdentity` | binaries/coordinator/src/daemon_events.rs:41-95 | No two registered daemons ever share a machine id, and at most one has none. |
| `CoordinatorInvariants.SupersededConnectionIsIgnored` | binaries/coordinator/src/daemon_events.rs:280-370 | An exit or endpoint report over a replaced connection changes no connection, no dataflow and no history. |
| `CoordinatorInvariants.MembersStayConnectedIff` | binaries/coordinator/src/daemon_liveness.rs:233-286 | Members stay connected across an event if and only if it is not a claim by an unregistered daemon. |
| `CoordinatorInvariants.MembersConnectedRun` | binaries/coordinator/src/daemon_events.rs:155-187 | In every run where reports come from registered daemons, every member of every live dataflow is connected. |
| `CoordinatorInvariants.LostDaemonRejoins` | binaries/coordinator/src/daemon_events.rs:450-554 | The run for every dataflow on one daemon: start, a tick that drops the daemon, its report of the dataflow. The daemon is a member again and not connected. |
| `CoordinatorInvariants.StaysAttendedIff` | binaries/coordinator/src/daemon_liveness.rs:184-206 | Every event keeps "no daemons implies a pending spawn", except exactly the late spawn success. |
| `CoordinatorInvariants.AttendedRun` | binaries/coordinator/src/daemon_liveness.rs:188-206 | In every run without a late spawn success for a dataflow, it is never live without daemons and without a pending spawn. |
| `CoordinatorInvariants.LateSuccessStrands` | binaries/coordinator/src/spawn_build.rs:178-211 | The run for every dataflow on one daemon: start, a tick that drops the daemon before the spawn times out, then its spawn success leaves it live, spawned and without daemons. |
| `CoordinatorInvariants.StrandedOutlivesTicks` | binaries/coordinator/src/daemon_events.rs:118-264 | No tick that loses none of its awaited daemons ends a stranded dataflow. |
| `TerminalVerdicts.LiveIsInFlightRun` | binaries/coordinator/src/daemon_events.rs:226-262 | With the writes for a dataflow succeeding, no run has it live with a record that is Recovering, Succeeded or Failed. |
| `TerminalVerdicts.OverIsAbsorbing` | binaries/coordinator/src/daemon_liveness.rs:288-293 | No event revives a dataflow that is over, and none but clean touches its record, whatever the store does. |
| `TerminalVerdicts.TerminalVerdictIsAbsorbing` | binaries/coordinator/src/daemon_events.rs:468-623 | In every run whose writes for this dataflow succeeded up to the verdict, a Succeeded or terminally Failed record is the same record ever after, across reports, ticks, disconnects, stops and process restarts, until a clean deletes it; then it stays deleted and the dataflow stays down. |
| `TerminalVerdicts.VerdictIsFinalIff` | binaries/coordinator/src/daemon_events.rs:226-262 | On every state with the invariant: a Succeeded or terminally Failed record survives every continuation without a clean, and already every next event, exactly if its dataflow is not live. |
| `TerminalVerdicts.FinishedFailureRevivesIff` | binaries/coordinator/src/daemon_events.rs:488-554 | On every state and every report: an ordinary failure comes to life exactly when it is named, unarchived, readable and resolvable, whether or not the write succeeds; its record turns Running exactly when it is named, unarchived, readable and the write succeeds. |
| `TerminalVerdicts.FailedDataflowComesBack` | binaries/coordinator/src/dataflow_events.rs:188-194 | For every dataflow that finishes with a failing node: after a process restart, a report of it leaves it live and Running. |
| `TerminalVerdicts.LostWriteUndoesVerdict` | binaries/coordinator/src/daemon_events.rs:502-554 | The run of a waiting dataflow whose promotion is lost: live with a Recovering record after the report, terminally Failed while live after the tick, Running after its ready report. |
| `TerminalVerdicts.BootRecoversIff` | binaries/coordinator/src/lib.rs:419-453 | A new process leaves nothing live and a record is Recovering afterwards exactly if it was before, or was in flight and the store could be listed and written; other records stay as they are. |
| `RestartSafety.ReplacementWaitsForEveryHolder` | binaries/coordinator/src/dataflow_events.rs:81-137 | Whenever a replacement is launched, the restart was accepted earlier, every daemon that held the dataflow then has reported it finished since, and there was no stop and no loss of a member in between. |
| `RestartSafety.RestartHistory` | binaries/coordinator/src/lib.rs:601-673 | A pending restart was accepted at some step and pending ever since; each holder at acceptance still holds the dataflow or has finished it. |
| `RestartSafety.CancelledRestartNeverRuns` | binaries/coordinator/src/daemon_liveness.rs:157-167 | Once a request's restart is gone, no later launch is for that request. |
| `RestartSafety.StopCancels` | binaries/coordinator/src/control_requests.rs:680-684 | A stop, by id or by name, leaves no restart pending whatever the daemons answer, and tells the parked caller. |
| `RestartSafety.LossCancels` | binaries/coordinator/src/daemon_liveness.rs:207-217 | Losing a member, by exit or by tick, leaves no restart pending. |
| `DisconnectConfluence.DisconnectTwice` | binaries/coordinator/src/daemon_liveness.rs:169-218 | Two batches of lost daemons agree with their union on live entry, membership sets, restart, persisted status and answers, whatever the clock reads at each. |
| `DisconnectConfluence.BatchesAgree` | binaries/coordinator/src/daemon_liveness.rs:425-446 | Any sequence of batches agrees with one batch of all of them. |
| `DisconnectConfluence.ExitsAgree` | binaries/coordinator/src/daemon_events.rs:315-370 | Exits of connected daemons in any order, each at its own time, leave every dataflow as one batch would. |
| `DisconnectConfluence.BatchActsOnce` | binaries/coordinator/src/daemon_liveness.rs:188-206 | A batch reclaims exactly the affected spawned dataflows left without a daemon, and sends one barrier release for exactly those whose last awaited daemon went while others survive. |
| `ReadyBarrier.BarrierWaitsForEveryone` | binaries/coordinator/src/dataflow_events.rs:29-53 | In every run, whenever the barrier of a dataflow on several daemons is released, each of them has been ready, was lost, or reported the dataflow since the start; or its entry was dropped in between. |
| `ReadyBarrier.ReadyReleasesIff` | binaries/coordinator/src/dataflow_events.rs:33-48 | The converse: while the entry lives, a ready report releases the barrier exactly if after it no placed daemon is still awaited. |
| `ReadyBarrier.AwaitedSinceStart` | binaries/coordinator/src/handlers.rs:739-743 | While its entry lives, a dataflow awaits exactly those placed daemons that were neither heard of nor lost since the start, for readiness and for the spawn. |
| `ReadyBarrier.SpawnCompletesIff` | binaries/coordinator/src/spawn_build.rs:178-211 | A successful spawn report completes the spawn exactly if after it every placed daemon has reported its part, was lost, or reported the dataflow. |
| `ReadyBarrier.BroadcastMeansNobodyAwaited` | binaries/coordinator/src/ready_barrier.rs:163-207 | Only a ready report or a loss releases a barrier, once, and then nobody is awaited. |
| `ReadyBarrier.RebuiltBarrierDoesNotWait` | binaries/coordinator/src/state.rs:563-580 | The run for every dataflow on two daemons: after a process restart, the ready report of the one that came back releases the barrier although the other was never heard of. |
| `BarrierVerdict.VerdictSurvives` | libraries/coordinator-store/src/lib.rs:110-127 | With the writes for a dataflow succeeding, its entry and its record, however often dropped and rebuilt, say that the barrier was released exactly if it was broadcast, with the verdict of the last broadcast. |
| `BarrierVerdict.ReplayRepeatsTheVerdict` | binaries/coordinator/src/ready_barrier.rs:114-155 | So every replay to a daemon that reports later repeats the verdict of the last broadcast, across reclaims and process restarts. |
| `BarrierVerdict.VerdictIsCollected` | binaries/coordinator/src/dataflow_events.rs:33-41 | While the entry lives, the verdict consists of what the ready reports since the start named, all of it, in order. |
| `AnswerMeaning.MessagesAreTrue` | binaries/coordinator/src/control_requests.rs:660-801 | Every answer and every message to a daemon in every run goes back to a step that made it true: its caller had asked or waited, and the spawn, stop, restart, failure, rollback, re-spawn, broadcast or replay it speaks of happened just then, with these nodes and results. |
| `AnswerMeaning.StepAddsTrue` | binaries/coordinator/src/dataflow_events.rs:54-269 | Every event only adds messages, and those it adds are true of it. |
| `AnswerMeaning.OrphanIsStopped` | binaries/coordinator/src/daemon_events.rs:468-487 | A connected daemon that reports a dataflow which is archived or over is told to stop it. |
| `AnswerMeaning.MissedBarrierIsReplayed` | binaries/coordinator/src/daemon_events.rs:521-554 | A connected daemon that reports a live dataflow after its barrier is told the verdict. |
| `AnswerMeaning.FailedSpawnIsRolledBack` | binaries/coordinator/src/spawn_build.rs:512-653 | When a spawn fails, exactly the daemons that had started nodes are rolled back. |
| `DataflowIdentity.IdentityIsKept` | binaries/coordinator/src/state.rs:550-605 | In every run, the live entry, the record, a pending restart and the archive carry the name, descriptor and flavour of the start, and entry and record its creation time, across losses, reports, reclaims and process restarts. |
| `DataflowIdentity.IdentityStep` | binaries/coordinator/src/state.rs:607-643 | Every event keeps them. |
| `DataflowIdentity.ConsistentRun` | binaries/coordinator/src/lib.rs:601-673 | In every run entry, record and restart of each dataflow agree on what it is. |
| `DataflowIdentity.RestartLaunchesTheSame` | binaries/coordinator/src/dataflow_events.rs:93-137 | A deferred restart launches, under the new id, the name, descriptor and flavour of the old dataflow, placed where the start put it, and the caller is told that id. |
| `DataflowNames.ResolveIs` | binaries/coordinator/src/handlers.rs:35-68 | A name means the one live dataflow that has it; if none has, the one archived dataflow that had it; nothing if there are several. |
| `DataflowNames.NamesStayUniqueIff` | binaries/coordinator/src/control_requests.rs:602-658 | Live dataflows keep distinct names across every event, except exactly a report that revives one whose name was given away. |
| `DataflowNames.NamesAreUnique` | binaries/coordinator/src/control_requests.rs:616-625 | In every run without such a report no two live dataflows share a name. |
| `DataflowNames.TwoOfTheSameName` | binaries/coordinator/src/daemon_events.rs:502-554 | The run for every named dataflow on one daemon: exit of the daemon, start under the same name, report. Two live dataflows have the name. |
| `NodeHomes.HomeIsTheLastClaim` | binaries/coordinator/src/daemon_liveness.rs:233-286 | In every run the coordinator knows each node of a live dataflow where it was placed, or where the last report that named it came from. |
| `NodeHomes.RespawnIsTheLastClaim` | binaries/coordinator/src/daemon_events.rs:640-690 | What a daemon is asked to re-spawn is exactly what was last claimed to be on it. |
| `Watchdogs.GivenUpInRunIff` | binaries/coordinator/src/daemon_liveness.rs:68-82 | Over runs: a tick gives up a connected daemon exactly if it was silent for more than 30 seconds, the heartbeat failed, or ten ticks in a row timed out over this connection. |
| `Watchdogs.CountsTimeouts` | binaries/coordinator/src/daemon_events.rs:118-187 | The counter of a connection is the number of timeouts in a row since it was made, and below ten. |
| `Watchdogs.GivenUpIff` | binaries/coordinator/src/daemon_liveness.rs:68-82 | One tick, spelled out; the counter of a daemon that stays goes up by one after a timeout and to zero otherwise. |
| `Watchdogs.SpawnGivenUpIff` | binaries/coordinator/src/spawn_build.rs:392-477 | Over runs: a tick gives up a pending spawn exactly if the dataflow was started more than 60 seconds before; the record is then terminally Failed. |
| `Watchdogs.ReclaimWindow` | binaries/coordinator/src/daemon_events.rs:226-262 | Over runs: a dataflow that began to wait for its daemons is given up by a later tick exactly if more than 60 seconds have passed since, and the store could be listed and written; until then its record stays. |
| `Watchdogs.RegisterIs` | binaries/coordinator/src/daemon_events.rs:41-95 | An accepted registration makes the new connection the only one of its machine, under the id the machine had; other machines are not touched. |
| `Watchdogs.HeartbeatIs` | binaries/coordinator/src/daemon_events.rs:266-278 | A heartbeat moves the time of its sender, if registered, and nothing else. |
| `Watchdogs.EndpointIs` | binaries/coordinator/src/daemon_events.rs:280-313 | An endpoint report moves the endpoint of its sender over its current connection, and nothing else. |
| `RecordContents.RecordIsAPicture` | binaries/coordinator/src/state.rs:607-643 | Every event that changes a record writes a picture of the live entry as it leaves it, field by field, or only restamps status, version and time. |
| `RecordContents.StatusTells` | binaries/coordinator/src/daemon_events.rs:488-554 | Every event that changes a record writes the status that fits what happened: pending for a start, running for a completed spawn or a report, stopping for a stop or restart, recovering for a reclaim or process restart, the verdict of the nodes for a finish, terminal failure for a spawn or wait that was given up. |
| `RecordContents.ReleaseIsRecorded` | binaries/coordinator/src/ready_barrier.rs:43-105 | A released barrier is recorded, as running if no node exited early, otherwise with the stored status, or pending if there is none. |
| `RecordVersions.VersionRisesIff` | libraries/coordinator-store/src/lib.rs:128-129 | In every run, an event that changes a record raises its version exactly if the live entry is not behind the record or the event is a process restart; otherwise the version stays. |
| `RecordVersions.VersionNeverFalls` | binaries/coordinator/src/state.rs:607-643 | In every run a version never falls while the record exists. |
| `RecordVersions.TwoRecordsOneVersion` | binaries/coordinator/src/daemon_events.rs:513-518 | The run for every start: report, then stop. The last two records differ and carry the same version. |
| `ResultsHistory.LateResultIsMerged` | binaries/coordinator/src/dataflow_events.rs:238-267 | A result that arrives after its dataflow went down counts for the nodes it names; everything else that was known stays. |
| `ResultsHistory.UnknownResultIsIgnored` | binaries/coordinator/src/dataflow_events.rs:238-267 | A result of a dataflow that is neither live nor archived is not recorded. |
| `ResultsHistory.FailedSpawnIsListed` | binaries/coordinator/src/spawn_build.rs:763-827 | A dataflow whose spawn is given up, by report or by timeout, is listed as failed: every placed node failed on its daemon, and what other daemons reported stays. |
| `ResultsHistory.DownIsArchived` | binaries/coordinator/src/spawn_build.rs:512-653 | A dataflow that completes, or whose spawn a daemon reports as failed, is archived under its name. |
| `ResultsHistory.TimedOutIsArchived` | binaries/coordinator/src/spawn_build.rs:392-477 | A tick that gives up no more spawns than the archive holds archives each of them. |
| `ResultsHistory.ArchiveStaysBounded` | binaries/coordinator/src/lib.rs:40-51 | In no run does the archive hold more than 200 dataflows. |
| `RecoverySpacing.AttemptsAreSpaced` | binaries/coordinator/src/daemon_events.rs:625-712 | In every run, two re-spawn attempts for the same dataflow and daemon with no report of it running in between are at least 30 seconds apart. |
| `RecoverySpacing.RespawnIsSentIff` | binaries/coordinator/src/daemon_events.rs:640-690 | A re-spawn leaves exactly on an attempt to a connected daemon, never for a failed spawn or while one is in flight; otherwise the slot is untouched. |
| `RecoverySpacing.AttemptIsDueIff` | binaries/coordinator/src/daemon_events.rs:640-712 | The converse over runs: when a member reports without the dataflow, a re-spawn is attempted exactly if it has nodes there, its spawn is neither failed nor in flight there, and every attempt not answered by a report is at least 30 seconds old. |
| `FinishAndClean.VerdictMatchesList` | binaries/coordinator/src/control_requests.rs:867-883 | When a finish completes a dataflow, its persisted verdict is Succeeded exactly when the listing shows it as finished. |
| `FinishAndClean.FinishOrderIsIrrelevant` | binaries/coordinator/src/dataflow_events.rs:54-208 | Whatever the order in which its daemons report, and whatever happens to other dataflows in between, a dataflow completes with the union of their results, in its record, its answers and the history; only the last event's clock, store and placement show. |
| `FinishAndClean.FinishOrdersAgree` | binaries/coordinator/src/dataflow_events.rs:165-208 | Two interleaved runs with the same finish reports give the same persisted verdict, the same answers to everyone waiting, and the same results in the history wherever the cap left an entry. |
| `FinishAndClean.DoneVerdict` | binaries/coordinator/src/dataflow_events.rs:175-204 | The final record is Succeeded exactly if no node of any daemon failed, otherwise a failure that is not terminal. |
| `FinishAndClean.FinishedVerdict` | binaries/coordinator/src/dataflow_events.rs:165-208 | Over whole runs: once every daemon reported, in any order and amid events of other dataflows, the record is Succeeded exactly if no collected node failed. |
| `FinishAndClean.ListedFinishedIff` | binaries/coordinator/src/control_requests.rs:867-883 | The listing shows a dataflow as finished exactly if it is not live, has results, and no node of any daemon failed; as failed exactly if some node did. |
| `FinishAndClean.FinishProgress` | binaries/coordinator/src/dataflow_events.rs:58-70 | While daemons are missing the dataflow stays live on exactly those, with the results so far, across events that concern other dataflows. |
| `FinishAndClean.ElsewhereKeepsSlot` | binaries/coordinator/src/dataflow_events.rs:54-70 | An event that does not address a live dataflow, takes none of its daemons and meets none of its timeouts leaves it exactly as it was. |
| `FinishAndClean.ElsewhereKeepsResults` | binaries/coordinator/src/spawn_build.rs:374-387 | Such an event, evictions and teardowns of others included, keeps the results collected so far. |
| `FinishAndClean.CleanIsAPartition` | binaries/coordinator/src/control_requests.rs:986-1017 | Clean touches no live dataflow and nothing it failed to delete; a cleaned one leaves store, results and archive and nothing else changes. |
| `FinishAndClean.CleanConverges` | binaries/coordinator/src/control_requests.rs:906-914 | The candidates of the next clean are exactly the failures of this one. |
| `FinishAndClean.CleanNeedsTheStore` | binaries/coordinator/src/control_requests.rs:946-968 | If the store cannot be listed nothing changes at all. |
| `FinishAndClean.CleanDeletesRecoveringIff` | binaries/coordinator/src/control_requests.rs:926-944 | Clean deletes a Recovering record exactly when the history holds results for it. |
| `FinishAndClean.CleanForgetsAWaitingDataflow` | binaries/coordinator/src/control_requests.rs:895-904 | For every spawned dataflow on two daemons: one finishes, the other disconnects, a clean follows, and the record is gone. |
| `FinishAndClean.ForgottenDataflowIsIgnored` | binaries/coordinator/src/daemon_events.rs:488-623 | A report about a dataflow with no record and no archive entry neither adopts nor stops it. |
| `FinishAndClean.ExitLeavesRecovering` | binaries/coordinator/src/daemon_liveness.rs:366-418 | Losing the last daemon of a spawned dataflow persists it as Recovering and removes it from the live set. |
| `Coordinator.StepIsPointwise` | binaries/coordinator/src/lib.rs:472-587 | The state machine moves every dataflow, known or not, by its own slot step in the context of the old state. |
| `Coordinator.RegisteredId` | binaries/coordinator/src/daemon_events.rs:41-95 | A registering machine is given the id it already has, if it has one. |
| `DataflowSlot.SyntheticResults` | binaries/coordinator/src/spawn_build.rs:763-827 | The results made up for a failed spawn name every placed node as failed, on the daemon it was placed on, and nothing else; without placed nodes they still name a failure. |
| `Common.DropOldestKeeps` | binaries/coordinator/src/dataflow_events.rs:76-78 | Evicting from the archive meets the cap and keeps the values and the order of what stays. |
| `Common.DropOldestExceptKeeps` | binaries/coordinator/src/spawn_build.rs:374-387 | Capping the results keeps every entry of a live dataflow, all values, and meets the cap unless only live ones are left. |
| `Common.EvictOldest` | binaries/coordinator/src/spawn_build.rs:643-645 | The eviction loop drops oldest entries until the cap is met, and no more. |
| `CoordinatorLoop.EventLoop.constructor` | binaries/coordinator/src/lib.rs:455-471 | A new coordinator is the initial state of every run. |
| `CoordinatorLoop.EventLoop.Handle` | binaries/coordinator/src/lib.rs:472-587 | Refinement: for every enabled event the imperative handler takes exactly the step of the specification and keeps the invariant. |
| `CoordinatorLoop.EventLoop.CancelPendingRestart` | binaries/coordinator/src/daemon_liveness.rs:157-167 | Removes the restart, if any, and answers its caller; nothing else moves. |
| `CoordinatorLoop.EventLoop.PutRecord` | binaries/coordinator/src/state.rs:607-642 | The generation moves even if the write is lost; the record changes only if it is not. |
| `LoopSteps.PruneMembership` | binaries/coordinator/src/daemon_liveness.rs:176-186 | Removing the lost daemons one by one from three sets is removing the whole set, and `affected` is set exactly if one of them held one. |
| `CoordinatorLoop.EventLoop.CleanupDisconnected` | binaries/coordinator/src/daemon_liveness.rs:169-218 | After both loops every live dataflow is pruned, restarts of exactly the affected ones are cancelled, and the actions are exactly the reclaims and releases that are due, each once. |
| `CoordinatorLoop.EventLoop.BroadcastAllNodesReady` | binaries/coordinator/src/ready_barrier.rs:80-207 | Releasing the barrier marks it, persists the right status and sends one broadcast. |
| `CoordinatorLoop.EventLoop.BeginReclaim` | binaries/coordinator/src/daemon_liveness.rs:366-418 | An orphaned dataflow is parked as Recovering and its stop waiters are answered. |
| `CoordinatorLoop.EventLoop.ApplyActions` | binaries/coordinator/src/daemon_liveness.rs:425-446 | Applying the action list in order completes the disconnect of every dataflow on it and touches no other. |
| `CoordinatorLoop.EventLoop.Disconnect` | binaries/coordinator/src/daemon_liveness.rs:169-446 | Cleanup and actions together are, for every dataflow at once, the specified disconnect. |
| `CoordinatorLoop.EventLoop.HandleExit` | binaries/coordinator/src/daemon_events.rs:315-370 | An exit over the current connection removes the daemon and disconnects it from every dataflow; over any other it does nothing. |
| `CoordinatorLoop.EventLoop.HandleHeartbeat` | binaries/coordinator/src/daemon_events.rs:266-278 | Only the sender's heartbeat time moves, and only if it is registered. |
| `CoordinatorLoop.EventLoop.HandleEndpoint` | binaries/coordinator/src/daemon_events.rs:280-313 | Only the current connection may set the endpoint. |
| `CoordinatorLoop.EventLoop.FindMachine` | binaries/coordinator/src/state.rs:47-53 | The scan finds the registered id of a machine if and only if there is one. |
| `CoordinatorLoop.EventLoop.HandleRegister` | binaries/coordinator/src/daemon_events.rs:32-116 | A registration reuses the machine's id and supersedes its connection; a rejected one changes nothing. |
| `CoordinatorLoop.EventLoop.CheckHeartbeats` | binaries/coordinator/src/daemon_events.rs:118-187 | The heartbeat loop drops exactly the daemons whose decision is to disconnect. |
| `CoordinatorLoop.EventLoop.CapResults` | binaries/coordinator/src/spawn_build.rs:374-387 | The cap loop evicts the oldest finished entries and stops at the cap or when only live ones are left. |
| `CoordinatorLoop.EventLoop.ArchiveDataflow` | binaries/coordinator/src/spawn_build.rs:636-646 | A dataflow that left the live set is archived once, within the cap. |
| `CoordinatorLoop.EventLoop.TearDownFailedSpawn` | binaries/coordinator/src/spawn_build.rs:512-653 | A failed spawn leaves the live set, rolls back the daemons that started it, gets its synthetic results and its archive entry. |
| `CoordinatorLoop.EventLoop.FailSpawnOf` | binaries/coordinator/src/spawn_build.rs:222-253 | A spawn failure resolves the waiters with the error, persists a terminal failure, and tears down. |
| `CoordinatorLoop.EventLoop.CollectStuck` | binaries/coordinator/src/spawn_build.rs:401-423 | The first pass finds exactly the overdue pending spawns, in iteration order. |
| `CoordinatorLoop.EventLoop.FailAll` | binaries/coordinator/src/spawn_build.rs:425-476 | The second pass fails each of them once and leaves the histories as if done one after the other. |
| `CoordinatorLoop.EventLoop.CheckSpawnTimeouts` | binaries/coordinator/src/spawn_build.rs:392-477 | Both passes together are the watchdog's share of a tick. |
| `CoordinatorLoop.EventLoop.SweepRecoveries` | binaries/coordinator/src/daemon_events.rs:226-262 | Every Recovering record older than the timeout fails terminally, no other record changes. |
| `CoordinatorLoop.EventLoop.HandleTick` | binaries/coordinator/src/daemon_events.rs:118-264 | Heartbeats, disconnects, spawn watchdog and recovery sweep compose, in this order, to the specified tick on every dataflow. |
| `CoordinatorLoop.EventLoop.HandleReady` | binaries/coordinator/src/dataflow_events.rs:29-53 | A ready report is handled as one step of the model, in which `ReadyReleasesIff`, `BarrierWaitsForEveryone` and `VerdictIsCollected` say when the barrier is released and with which verdict. |
| `CoordinatorLoop.EventLoop.HandleSpawnReport` | binaries/coordinator/src/spawn_build.rs:50-136 | The first failure fails the spawn for good; a success counts only once nobody else is awaited. |
| `CoordinatorLoop.EventLoop.HandleWaitForSpawn` | binaries/coordinator/src/control_requests.rs:112-118 | A waiter is parked while the spawn is pending and answered at once otherwise. |
| `CoordinatorLoop.EventLoop.Launch` | binaries/coordinator/src/handlers.rs:708-774 | A placed dataflow becomes live and is persisted as Pending. |
| `CoordinatorLoop.EventLoop.CompleteRestart` | binaries/coordinator/src/dataflow_events.rs:93-137 | A waiting restart is removed, its replacement launched if it could be placed, and its caller answered either way. |
| `CoordinatorLoop.EventLoop.CloseFinished` | binaries/coordinator/src/dataflow_events.rs:165-236 | The verdict is persisted before everyone who waits is answered with the results. |
| `LoopSteps.AllSucceeded` | binaries/coordinator/src/control_requests.rs:877-881 | The loop over daemons and nodes finds success exactly if no node of any daemon failed, node by node. |
| `CoordinatorLoop.EventLoop.HandleFinished` | binaries/coordinator/src/dataflow_events.rs:54-269 | A finish removes the daemon and adds its result; the last one archives, restarts, persists and answers; a late one is merged or dropped. |
| `CoordinatorLoop.EventLoop.ReestablishRunning` | binaries/coordinator/src/daemon_liveness.rs:233-286 | A reported dataflow is relinked or rebuilt from its record with the reported nodes assigned to the sender, or left alone if it cannot be. |
| `CoordinatorLoop.EventLoop.ReconcileEntry` | binaries/coordinator/src/daemon_events.rs:469-622 | Per stored status: promote, relink, stop as an orphan, or ignore. |
| `CoordinatorLoop.EventLoop.ReconcileReport` | binaries/coordinator/src/daemon_events.rs:468-623 | Reconciling a report entry by entry is, for each dataflow, reconciling its own entries in order. |
| `CoordinatorLoop.EventLoop.RecoverOne` | binaries/coordinator/src/daemon_events.rs:641-712 | One live dataflow is re-spawned, cleared or skipped as the specification says. |
| `CoordinatorLoop.EventLoop.AutoRecover` | binaries/coordinator/src/daemon_events.rs:625-712 | The loop does that for every live dataflow, once each. |
| `CoordinatorLoop.EventLoop.HandleReport` | binaries/coordinator/src/daemon_events.rs:450-712 | Reconciliation followed by auto-recovery is the specified report step; connections and histories stay. |
| `CoordinatorLoop.EventLoop.HandleStop` | binaries/coordinator/src/control_requests.rs:660-733 | A stop cancels the restart first; a finished dataflow is answered from the history, an unacknowledged stop is rejected, an acknowledged one parks the caller and persists Stopping. |
| `CoordinatorLoop.EventLoop.HandleStopByName` | binaries/coordinator/src/control_requests.rs:735-801 | The same for a name, with unknown and ambiguous names refused without effect. |
| `CoordinatorLoop.EventLoop.HandleRestart` | binaries/coordinator/src/lib.rs:601-673 | At most one restart per dataflow; it is deferred until the dataflow finished. |
| `CoordinatorLoop.EventLoop.HandleRestartByName` | binaries/coordinator/src/control_requests.rs:236-262 | The same for a name. |
| `CoordinatorLoop.EventLoop.Resolve` | binaries/coordinator/src/handlers.rs:35-68 | A name resolves to the only live dataflow that has it, else to the only archived one, else to nothing. |
| `CoordinatorLoop.EventLoop.HandleStart` | binaries/coordinator/src/control_requests.rs:602-658 | A start with a taken name or without a placement is refused without effect; otherwise it is launched. |
| `CoordinatorLoop.EventLoop.HandleBoot` | binaries/coordinator/src/lib.rs:419-453 | A new process keeps only the store, and marks what was in flight as Recovering. |
| `CoordinatorLoop.EventLoop.FinishedInMemory` | binaries/coordinator/src/control_requests.rs:926-944 | The first pass lists exactly the finished entries of the history, each once. |
| `CoordinatorLoop.EventLoop.FinishedOnDisk` | binaries/coordinator/src/control_requests.rs:969-984 | The second pass adds exactly the completed records that only the store knows; together they are the candidates, each once. |
| `CoordinatorLoop.EventLoop.Purge` | binaries/coordinator/src/control_requests.rs:990-1017 | The loop splits the candidates by whether the delete worked and forgets exactly the deleted ones. |
| `CoordinatorLoop.EventLoop.HandleClean` | binaries/coordinator/src/control_requests.rs:892-1032 | Every candidate lands in exactly one of `cleaned` and `failed`, by whether its delete worked. |
| `CoordinatorLoop.EventLoop.HandleList` | binaries/coordinator/src/control_requests.rs:850-890 | Exactly the live and the finished dataflows are listed, none twice, each with its status. |
| `Builds.BuildInvRun` | binaries/coordinator/src/dataflow_events.rs:333-373 | In every run, running and finished builds are disjoint, each build was finalized at most once, and every running build given to some daemon still awaits one. |
| `Builds.BuildInvStep` | binaries/coordinator/src/spawn_build.rs:315-335 | Every build event keeps that invariant. |
| `Builds.OutcomeIsFinal` | binaries/coordinator/src/dataflow_events.rs:358-370 | Once a build has an outcome, late results, losses and ticks leave it as it is. |
| `Builds.SuccessNeedsEveryone` | binaries/coordinator/src/daemon_liveness.rs:467-500 | In every run, a build succeeds only if every daemon it was given to reported success before being lost. |
| `Builds.BuildRepliesAreConserved` | binaries/coordinator/src/control_requests.rs:82-91 | In every run each caller waiting for a build is parked or answered, once per request. |
| `Builds.PruneLost` | binaries/coordinator/src/daemon_liveness.rs:473-486 | Removing lost daemons one by one leaves the build without all of them and with one error for each it awaited. |
| `Builds.BuildTable.HandleBuild` | binaries/coordinator/src/control_requests.rs:46-81 | A new build awaits exactly the daemons it was given to; the whole table otherwise stays. |
| `Builds.BuildTable.HandleWait` | binaries/coordinator/src/control_requests.rs:82-91 | A caller is parked at a running build, answered from the cache for a finished one, refused for an unknown one. |
| `Builds.BuildTable.HandleResult` | binaries/coordinator/src/dataflow_events.rs:333-373 | A result is counted once; the last awaited one finalizes the build. |
| `Builds.BuildTable.HandleLost` | binaries/coordinator/src/daemon_liveness.rs:467-500 | Losing daemons prunes every running build and finalizes exactly those left without any. |
| `Builds.BuildTable.HandleTick` | binaries/coordinator/src/spawn_build.rs:682-749 | Overdue builds fail by timeout, all others stay. |
| `Builds.BuildTable.FinalizeBuild` | binaries/coordinator/src/spawn_build.rs:315-335 | Finalizing answers every waiter with the outcome, caches it within the cap, and removes the build; `RepliesTellTheOutcome` and `WaiterIsTold` say over runs that this is the one outcome. |
| `Builds.RepliesTellTheOutcome` | binaries/coordinator/src/spawn_build.rs:315-335 | In every run, whoever is told that a build finished is told its one outcome. |
| `Builds.WaiterIsTold` | binaries/coordinator/src/spawn_build.rs:320-331 | Whoever waits for a build when it ends is told its outcome in that very step. |
| `Builds.WaitIsAnswered` | binaries/coordinator/src/control_requests.rs:82-91 | A caller waits while the build runs, is told the cached outcome once it is over, and is refused only if nothing is cached. |
| `Builds.ResultIsCached` | binaries/coordinator/src/dataflow_events.rs:333-373 | The outcome of a build that a result completes is in the cache right after. |
| `Builds.ErrorsAreReal` | binaries/coordinator/src/dataflow_events.rs:333-373 | A failed build names at least one error, and each is a failure its daemon reported or a daemon that was lost. |
| `Builds.ErrorsKeepTheirOrder` | binaries/coordinator/src/dataflow_events.rs:333-373 | Over runs: the errors a running build has collected stay in front of later ones, in its record and in the failure it ends with. |
| `Builds.CacheStaysBounded` | binaries/coordinator/src/spawn_build.rs:315-335 | In no run are more than 100 finished builds cached. |
| `Builds.EveryoneSucceedsIsBuilt` | binaries/coordinator/src/dataflow_events.rs:333-373 | If every daemon of a build reports success, with no failure, no loss of a daemon still awaited and no timeout before, the build succeeds. |
| `Builds.TimesOutIff` | binaries/coordinator/src/spawn_build.rs:682-749 | A tick gives up a running build exactly if it began longer ago than the timeout, and leaves it untouched otherwise. |
| `Builds.StartedWhen` | binaries/coordinator/src/spawn_build.rs:682-749 | A running build keeps the time it began at and the daemons it was given to. |
| `Replication.DeltaIs` | binaries/coordinator/src/state.rs:511-539 | The delta after an acknowledgement is exactly the later entries, and is missing exactly when some of those were pruned. |
| `Replication.PruneKeepsNeeded` | binaries/coordinator/src/state.rs:489-506 | Pruning never takes a delta away from a live daemon. |
| `Replication.AppendForcesFallbackIff` | binaries/coordinator/src/state.rs:471-486 | Appending costs a daemon its delta exactly when the log is full and it still needs the oldest entry. |
| `Replication.AckIs` | binaries/coordinator/src/daemon_events.rs:769-790 | An acknowledgement moves nobody back or past the head, and at most cuts off the front of the log. |
| `Replication.WorldInvRun` | binaries/coordinator/src/state.rs:467-539 | In every run the log is consecutively numbered up to the head and nobody acknowledged more than the head. |
| `Replication.AcksOnlyGrow` | binaries/coordinator/src/daemon_events.rs:769-790 | No change moves an acknowledgement back. |
| `Replication.AcksGrowInRun` | binaries/coordinator/src/params.rs:25-94 | The same over any stretch of any run. |
| `Replication.SelectionIsBehind` | binaries/coordinator/src/control_requests.rs:1076-1209 | A daemon that applied everything up to its acknowledgement plus any in-order selection of later operations differs from the store only in parameters that the owed operations decide. |
| `Replication.CatchUpConverges` | binaries/coordinator/src/daemon_events.rs:714-745 | Delivering all owed entries makes such a copy equal to the store, and delivering them again changes nothing. |
| `Replication.BehindStepIff` | binaries/coordinator/src/params.rs:25-121 | For one given copy: closeness survives every change except exactly an acknowledging replay that skips a parameter on which that copy differs, and the sending of a stale value. |
| `Replication.ChangeKeepsBehindIff` | binaries/coordinator/src/params.rs:25-121 | A change keeps every possible copy that close exactly if it is neither a fully confirmed replay that skips a parameter touched since the acknowledgement, nor the sending of a collected value that the store no longer has for a parameter without an unacknowledged change; the condition names only the log's history, the store, what was collected and the readable nodes. |
| `Replication.BehindRun` | binaries/coordinator/src/daemon_events.rs:714-767 | In every run without such a change, a daemon lags behind the store in nothing but what it is still owed. |
| `Replication.SafeRunConverges` | binaries/coordinator/src/daemon_events.rs:714-767 | In every run of safe changes a daemon lags behind the store in nothing but what it is owed, and has exactly the store's parameters once its acknowledgement reached the head. |
| `Replication.UntouchedSendIsSafe` | binaries/coordinator/src/params.rs:194-313 | In every run, a value collected at one step may be sent at a later one if nothing the daemon acknowledged by then touched its parameter in between. |
| `Replication.LateSendUndoesCatchUp` | binaries/coordinator/src/ready_barrier.rs:137-155 | The run: a barrier release collects a value, the parameter is set anew and acknowledged, the collected value arrives. The daemon counts as caught up and holds the old value. |
| `Replication.ReplaySyncsIff` | binaries/coordinator/src/params.rs:96-121 | For one given copy: after a fully confirmed replay the daemon agrees on every parameter that was read, and equals the store exactly when the copy already agreed on the skipped ones. |
| `Replication.ReplayAlwaysSyncsIff` | binaries/coordinator/src/params.rs:96-121 | A fully confirmed replay syncs every copy the daemon may have exactly if every parameter touched since its acknowledgement is still stored and readable. |
| `Replication.MissedDeletionStays` | binaries/coordinator/src/params.rs:75-85 | The run: set and acknowledged, deleted without delivery, enough other writes to push the deletion out of the log, replay. The daemon counts as caught up and keeps the deleted parameter. |
| `Replication.RebuiltSyncsIff` | binaries/coordinator/src/state.rs:550-605 | A daemon whose entry was rebuilt from the store is up to date after a complete parameter replay, for every copy it may have, exactly if every parameter it had not acknowledged or that changed in between is stored and readable. |
| `Replication.OfflineDeletionStays` | binaries/coordinator/src/state.rs:406-446 | A parameter deleted while its dataflow had no live entry stays with a daemon that comes back with it, through replays, catch-ups and the fallback of every run, until that parameter is written again. |
| `Replication.CatchUpReachesHeadIff` | binaries/daemon/src/coordinator_events.rs:79-180 | One catch-up reaches the head exactly when every owed entry is for a node this daemon runs and can reach, and the channels take all of them. |
| `Replication.ForeignEntryStalls` | binaries/daemon/src/coordinator_events.rs:79-180 | In every run without a replay for it, a daemon never acknowledges past the first entry for another daemon's node. |
| `Replication.ForeignWriteStalls` | binaries/coordinator/src/state.rs:471-539 | After one stored write for a node of another daemon, a daemon stays below the head of the log in every run without a full replay for it. |
| `Replication.StateLog.AppendStateLog` | binaries/coordinator/src/state.rs:471-486 | Appends one entry with the next number and drops the oldest beyond the cap. |
| `Replication.StateLog.LeastLiveAck` | binaries/coordinator/src/state.rs:499-504 | The loop finds the least acknowledgement among live daemons. |
| `Replication.StateLog.PruneStateLog` | binaries/coordinator/src/state.rs:489-506 | Drops exactly what every live daemon acknowledged. |
| `Replication.StateLog.StateLogDelta` | binaries/coordinator/src/state.rs:511-539 | Returns the delta of the specification, or nothing when it is incomplete. |
| `Replication.StateLog.HandleAck` | binaries/coordinator/src/daemon_events.rs:769-790 | Records the acknowledgement if it is new and known, and prunes. |
| `Replication.StateLog.ReplayFallback` | binaries/coordinator/src/params.rs:25-94 | Within the backoff nothing is sent; otherwise every collected parameter is, and the acknowledgement moves to the head only if each was confirmed. |
| `Replication.SendEach` | binaries/coordinator/src/params.rs:228-313 | Every item is sent, the confirmed ones are exactly those not refused, and the failure count is exactly the number of refused ones. |
| `Replication.CollectItems` | binaries/coordinator/src/params.rs:96-121 | Collects all stored parameters of the readable nodes; unreadable ones are skipped and not counted. |
| `Replication.ApplyCatchUp` | binaries/daemon/src/coordinator_events.rs:79-180 | The daemon applies the longest prefix whose nodes are connected and whose channels take it, wherever the channels stop, and acknowledges exactly that. |
| `WireGate.GateIsExact` | scripts/qa/breaking_changes.py:936-1004 | The findings contain no break if and only if every old type is kept: same kind and attributes, and members equal, extended, or variant-wise included, by format. |
| `WireGate.PositionsKept` | scripts/qa/breaking_changes.py:232-273 | In a type that is kept, which is what the gate decides, every old field position and variant index still means the same member. |
| `WireGate.OrderedIsExact` | scripts/qa/breaking_changes.py:232-273 | The ordered comparison passes exactly the unchanged lists, or exactly those that extend the old one when additions are allowed. |
| `WireGate.ExtendsIsPrefix` | scripts/qa/breaking_changes.py:232-273 | On duplicate-free lists, extending is having the old list as a prefix. |
| `WireGate.BodiesAreExact` | scripts/qa/breaking_changes.py:279-341 | JSON variant bodies pass exactly when each shared variant keeps its form and each old field. |
| `WireGate.MembersAreExact` | scripts/qa/breaking_changes.py:963-1003 | The member comparison of a type passes exactly when its members are kept under that type's format. |
| `WireGate.CompatibleTransitive` | scripts/qa/breaking_changes.py:936-1004 | A chain of releases that each pass against the previous one passes end to end. |
| `WireGate.CompatibleReflexiveIff` | scripts/qa/breaking_changes.py:279-341 | A protocol passes against itself exactly if, in every JSON enum, the last mention of a variant keeps the form and every field of each earlier mention. |
| `WireGate.BodiesKeptIff` | scripts/qa/breaking_changes.py:279-341 | Comparing the bodies of a variant list with itself passes exactly if every last mention covers the earlier ones, for the dictionary that keeps the last. |
| `WireGate.DistinctIsCompatible` | scripts/qa/breaking_changes.py:279-341 | A protocol whose JSON variant names are distinct passes against itself. |
| `WireGate.RepeatedVariantFails` | scripts/qa/breaking_changes.py:279-341 | Every JSON enum that lists a variant twice, the second time with a lost field or another form, fails against itself. |
| `WireGate.ListedTwiceFails` | scripts/qa/breaking_changes.py:279-341 | A concrete such enum of the `ws_protocol` module. |
| `WireGate.ModuleOfPath` | scripts/qa/breaking_changes.py:963-963 | The module of a type is the part of its name before the first `::`. |
| `WireGate.CompareOrdered` | scripts/qa/breaking_changes.py:232-273 | The loops report exactly the findings of the specification, in order. |
| `WireGate.SplitJsonVariantBodies` | scripts/qa/breaking_changes.py:279-341 | The body comparison reports exactly the findings of the specification. |
| `WireGate.DiffType` | scripts/qa/breaking_changes.py:939-1003 | One type's comparison breaks if and only if the type is not kept. |
| `WireGate.DiffWireTypes` | scripts/qa/breaking_changes.py:936-1004 | The whole diff reports a break if and only if some old type is not kept. |
| `WireGate.PostcardIff` | scripts/qa/breaking_changes.py:759-767 | A type is positional exactly if its module is none of the seven that frame by name. |
| `WireGate.StructPassesIff` | scripts/qa/breaking_changes.py:936-1004 | A struct passes exactly if its framing is unchanged and its fields are unchanged; in those seven modules, if the old fields are kept and only followed by new ones. |
| `WireGate.RemovalsAreNamed` | scripts/qa/breaking_changes.py:232-273 | Every member that is gone, and no other, is reported as a break. |
| `WireGate.AdditionsAreNamed` | scripts/qa/breaking_changes.py:232-273 | Every new member, and no other, is reported as added, at the given level. |
| `Fnv.OneByteDiffers` | binaries/cli/src/session.rs:346-355 | Two byte strings of any length that differ in exactly one byte never share a digest. |
| `Fnv.CommonSuffix` | binaries/cli/src/session.rs:346-355 | Appending a common suffix neither creates nor removes a collision. |
| `Fnv.MixTwice` | binaries/cli/src/session.rs:351-351 | Mixing the same byte in twice undoes it. |
| `Fnv.MultiplyInvertible` | binaries/cli/src/session.rs:352-352 | Multiplying by the prime modulo 2^64 can be undone. |
| `Fnv.StepInjective` | binaries/cli/src/session.rs:350-353 | One round is injective in the state. |
| `Fnv.HexInjective` | binaries/cli/src/session.rs:354-354 | Fixed-width hex determines the number. |
| `Fnv.FingerprintIsDigest` | binaries/cli/src/session.rs:354-354 | Equal printed fingerprints are equal 64-bit digests. |
| `Fnv.KnownAnswers` | binaries/cli/src/session.rs:346-355 | The digests of the empty string, of a zero byte and of the low byte of the basis are those of FNV-1a with 64 bits. |
| `Fnv.XorBitIs` | binaries/cli/src/session.rs:351-351 | Mixing is exclusive or, bit by bit. |
| `Fnv.HexDigitIs` | binaries/cli/src/session.rs:354-354 | The printed digits are lower-case positional hex, most significant first. |
| `Fnv.Fnv1a64Hex` | binaries/cli/src/session.rs:346-355 | The loop computes the 16-digit fingerprint of the fold over all bytes. |
| `BuildFingerprint.CanonicalIsUnique` | binaries/cli/src/session.rs:153-285 | For admissible inputs, equal canonical texts have equal build inputs: every node, source, environment, directory and operator, in order. |
| `BuildFingerprint.CanonicalSeesIff` | binaries/cli/src/session.rs:153-285 | For nodes with admissible inputs, the canonical texts of two lists agree exactly if the nodes agree, one by one, in every field a build depends on. |
| `BuildFingerprint.InputsSeenIff` | binaries/cli/src/session.rs:163-281 | The inputs of two nodes agree exactly if the nodes agree in their id, build command, source, environment, directory, and in the listings of their operators. |
| `BuildFingerprint.OperatorsSeenIff` | binaries/cli/src/session.rs:241-252 | Two operator lists have the same inputs exactly if for every id they list the same builds in the same order. |
| `BuildFingerprint.ShownIsInjective` | binaries/cli/src/session.rs:206-220 | Printing an environment value loses nothing within one kind of value. |
| `BuildFingerprint.JoinInjective` | binaries/cli/src/session.rs:158-166 | Lines without line breaks can be read back from the text. |
| `BuildFingerprint.NodeUnique` | binaries/cli/src/session.rs:163-281 | The lines of one node determine it and say where it ends. |
| `BuildFingerprint.NoneIsAmbiguous` | binaries/cli/src/session.rs:171-179 | A command or directory spelled `none` has the same text as a missing one, for all other inputs. |
| `BuildFingerprint.EqualsIsAmbiguous` | binaries/cli/src/session.rs:209-217 | An `=` can move between a variable's name and value without changing the text. |
| `BuildFingerprint.NewlineIsAmbiguous` | binaries/cli/src/session.rs:209-217 | A line break in a value reads like another variable. |
| `BuildFingerprint.ReorderKeepsInputs` | binaries/cli/src/session.rs:241-252 | Reordering uniquely named operators never changes the inputs. |
| `BuildFingerprint.IgnoredKeepInputs` | binaries/cli/src/session.rs:264-278 | Fields that do not concern the build never change the inputs. |
| `BuildFingerprint.CanonicalText` | binaries/cli/src/session.rs:153-285 | The nested loops write exactly the canonical text. |
| `BuildFingerprint.FingerprintBuildInputs` | binaries/cli/src/session.rs:153-285 | The loops compute the fingerprint of the canonical text; what that text sees of the nodes is `CanonicalSeesIff`. |
| `BuildFingerprint.Session.InvalidateIfBuildInputsChanged` | binaries/cli/src/session.rs:296-318 | Keeps the cached build if and only if the recorded fingerprint still matches, and says which. |
| `BuildFingerprint.SameBuildSameFingerprint` | binaries/cli/src/session.rs:296-318 | Edits that leave every field a build depends on as it was never drop the cache. |
| `BuildFingerprint.OneByteEditIsNoticed` | binaries/cli/src/session.rs:296-318 | If the encoded canonical texts of two node lists differ in exactly one byte, the fingerprint recorded for the one is never that of the other, so the session drops its build. |
| `WsSession.SessionInv` | binaries/cli/src/ws_client.rs:274-436 | In every session with fresh ids, no id is in two pending maps, nobody is answered twice, answers go to the command's caller, topic data flows only under an acknowledged subscription. |
| `WsSession.TurnKeepsInv` | binaries/cli/src/ws_client.rs:282-424 | Every turn of the loop keeps that invariant. |
| `WsSession.AckHadOurVersion` | binaries/cli/src/ws_client.rs:449-531 | Whatever acknowledged a topic subscription was a frame with our protocol version. |
| `WsSession.TopicsAckedIff` | binaries/cli/src/ws_client.rs:470-514 | A subscription is acknowledged exactly when the coordinator subscribed it under our version. |
| `WsSession.AnswerIsJustified` | binaries/cli/src/ws_client.rs:449-531 | Every answer in every session is justified by an input the session saw: a command that did not parse, or the response with its id, whose content decides the answer. |
| `WsSession.ResponseAnswersAtOnce` | binaries/cli/src/ws_client.rs:449-531 | The first response to a waiting command answers it in that very turn, as its content says. |
| `WsSession.LogEventIsForwarded` | binaries/cli/src/ws_client.rs:378-383 | A log event reaches exactly the log subscribers that still listen. |
| `WsSession.LogDataComesFrom` | binaries/cli/src/ws_client.rs:378-383 | Log data in a session comes from a log event with that payload, and goes to a receiver acknowledged before. |
| `WsSession.LogSubscribersWereAcked` | binaries/cli/src/ws_client.rs:449-531 | Every log subscriber was acknowledged. |
| `WsSession.TopicDataComesFrom` | binaries/cli/src/ws_client.rs:397-412 | Topic data in a session comes from a binary frame of that subscription with that payload. |
| `WsSession.AckEstablishes` | binaries/cli/src/ws_client.rs:470-514 | An acknowledgement establishes the subscription in the same turn. |
| `WsSession.LogAckEstablishes` | binaries/cli/src/ws_client.rs:449-469 | So does the acknowledgement of a log subscription. |
| `WsSession.GoneReceiverIsDropped` | binaries/cli/src/ws_client.rs:397-412 | A frame for a receiver that is gone ends its subscription and reaches nobody. |
| `WsSession.SessionEndsIff` | binaries/cli/src/ws_client.rs:282-424 | A turn ends the session exactly if the connection is lost or a command cannot be sent. |
| `WsSession.SubscriptionStands` | binaries/cli/src/ws_client.rs:397-412 | An established subscription stands until it is interrupted, and every frame for it in the meantime reaches its receiver. |
| `WsSession.LogSubscriptionStands` | binaries/cli/src/ws_client.rs:378-383 | A log subscription stands until its receiver is dropped. |
| `WsSession.Multiplexer.HandleCommand` | binaries/cli/src/ws_client.rs:284-365 | A command is parked in the one map of its kind, or answered at once if it does not parse; a failed send ends the session with the command parked. |
| `WsSession.Multiplexer.HandleResponse` | binaries/cli/src/ws_client.rs:449-531 | A response settles exactly the command that waits for it, in the order the maps are searched; what it is told is `AnswerIsJustified` and `ResponseAnswersAtOnce`. |
| `WsSession.Multiplexer.ForwardLog` | binaries/cli/src/ws_client.rs:378-383 | A log event reaches every log subscriber that still listens, and forgets the others. |
| `WsSession.Multiplexer.HandleBinary` | binaries/cli/src/ws_client.rs:397-412 | A binary frame reaches exactly the established subscription it names. |
| `WsSession.Multiplexer.Finish` | binaries/cli/src/ws_client.rs:426-436 | When the connection is gone everyone who still waits is told that it is closed, once, and nobody is told anything else. |
| `WsSession.Multiplexer.Run` | binaries/cli/src/ws_client.rs:274-436 | For every sequence of inputs, each command taken off the queue has been answered exactly once by the end, and nobody else was; what is added at the end says that the connection closed. |

## Assumptions

* A new dataflow gets an unused id and is placed on connected daemons, and a new daemon id
  is unused (`Coordinator.Enabled`). The source draws random 128-bit ids. A new connection
  starts with no timeouts.
* Failed store operations are chosen by the environment, per dataflow and per event. The
  theorems that need writes to succeed say so.
* Times are natural numbers of milliseconds. The clock may jump in any direction, and
  `Elapsed` saturates at zero as the source's subtraction does.
* `DisconnectConfluence.ExitsAgree` compares exits under the same store behaviour. Messages
  to daemons are not compared: a barrier may have been released before the rest went.

## Left out

- Adding, removing and replacing nodes and mappings of a running dataflow, and the topology rebuild behind it.
- Sockets, JSON and serde framing, tokio tasks and back-pressure: a send is an outcome, a reply is a token.
- Logs, metrics, topic-debug streams, trace spans, artifacts, authentication: plumbing that would only add easy members.
- Grace and force durations of a stop, and the texts of error replies.
- Names in listings and the sort order of listings and clean replies: they are compared as sets of ids with a status.
- Generated dataflow names and label-based placement: a start's placement comes with the event.
- The random id in the sentinel entry of a failed spawn that reached no daemon: the model uses a fixed one.
- The content of barrier messages per daemon. The parameter replay they start is modelled beside the replication log, with its values sent in any order.
- 64-bit overflow of the log sequence, of record generations and of heartbeat counters.
- `Builds.BuildTable` is an object of its own beside `EventLoop`: its loss and tick events are those of the coordinator, and both never share state.
- `Replication.StateLog` is likewise the log of one dataflow entry and ends with it.
- The Rust and schema extractors of the gate, `diff_schema`, and the parser of one variant: the parser is a parameter, so the theorems hold for any.
- UTF-8 encoding of the canonical text is a parameter of the fingerprint.
- Collisions of the digest beyond one-byte differences and common suffixes: they exist, as in any 64-bit hash.
- Reading and writing the session file.
- Destroying the coordinator and its daemons: it ends every run of the model.
- Replication.BehindRun: a daemon's copy is never reset by a re-spawn of its nodes, and the daemon a node runs on (`homes`) is fixed while an entry lives; a run covers one entry, and `Rebuilt` connects it to the next.
- Replication.SafeRunConverges: the same limits hold for it.
- Replication.BehindStepIff: its condition names the daemon's copy; `ChangeKeepsBehindIff` states the same for all copies without naming one.
- Replication.ReplaySyncsIff: its condition names the daemon's copy; `ReplayAlwaysSyncsIff` states the same for all copies without naming one.
- Sending, applying and acknowledging a catch-up are one step, with the acknowledgement optional.
