/** The share of the coordinator's state that belongs to one dataflow id, and
    what each event does to it. The coordinator is the pointwise product of
    these slots; see module Coordinator. */
module DataflowSlot {
  import opened Common
  import opened CoordinatorTypes

  datatype Slot = Slot(
    live: Option<Dataflow>,        // running_dataflows
    restart: Option<Restart>,      // pending_restarts
    record: Option<Record>,        // persisted store
    out: seq<Output>)              // everything sent on behalf of this dataflow

  const EMPTY_SLOT := Slot(None, None, None, [])

  // ----- persistence -------------------------------------------------------

  function MakeRecord(df: Dataflow, status: Status, now: Millis): Record {
    Record(df.name, df.descriptor, df.uv, status, df.daemons, df.nodeToDaemon,
           df.exited, df.barrierReleased, df.generation, df.createdAt, now)
  }

  /** `make_record` on the live entry followed by `put_dataflow`; a failed write
      is only logged, but the generation was bumped all the same. */
  function Persist(slot: Slot, df: Dataflow, status: Status, now: Millis, durable: bool): Slot {
    var df' := df.(generation := df.generation + 1);
    slot.(live := Some(df'), record := if durable then Some(MakeRecord(df', status, now)) else slot.record)
  }

  function Reply(callers: seq<Caller>, answer: Answer): (r: seq<Output>)
    ensures |r| == |callers|
  {
    seq(|callers|, i requires 0 <= i < |callers| => Answered(callers[i], answer))
  }

  function Emit(slot: Slot, outs: seq<Output>): Slot {
    slot.(out := slot.out + outs)
  }

  // ----- restarts ----------------------------------------------------------

  function CancelRestart(slot: Slot, reason: CancelReason): Slot {
    if slot.restart.None? then slot
    else Emit(slot.(restart := None), [Answered(slot.restart.value.caller, RestartCancelled(reason))])
  }

  // ----- ready barrier -----------------------------------------------------

  /** A successful barrier promotes to Running; a failed one keeps the stored
      status, or falls back to Pending when there is none or it cannot be read. */
  function BarrierStatus(slot: Slot, df: Dataflow, readable: bool): Status {
    if df.exited == [] then Running
    else if readable && slot.record.Some? then slot.record.value.status
    else Pending
  }

  function ReleaseBarrier(slot: Slot, df: Dataflow, now: Millis, readable: bool, durable: bool): Slot {
    var df' := df.(barrierReleased := true);
    Emit(Persist(slot, df', BarrierStatus(slot, df', readable), now, durable),
         [BarrierBroadcast(df'.daemons, df'.exited)])
  }

  function ReadySlot(slot: Slot, d: DaemonId, exited: seq<NodeId>, now: Millis, readable: bool, durable: bool): Slot {
    if slot.live.None? then slot
    else
      var df := slot.live.value;
      var df' := df.(pendingDaemons := df.pendingDaemons - {d}, exited := df.exited + exited);
      if df'.pendingDaemons == {} then ReleaseBarrier(slot, df', now, readable, durable)
      else slot.(live := Some(df'))
  }

  // ----- disconnects -------------------------------------------------------

  predicate Affected(df: Dataflow, lost: set<DaemonId>) {
    !((df.daemons + df.pendingDaemons + df.pendingSpawn) !! lost)
  }

  function Prune(df: Dataflow, lost: set<DaemonId>): Dataflow {
    df.(daemons := df.daemons - lost, pendingDaemons := df.pendingDaemons - lost,
        pendingSpawn := df.pendingSpawn - lost)
  }

  /** Every daemon of a spawned dataflow is gone. */
  predicate Orphaned(df: Dataflow, lost: set<DaemonId>) {
    Affected(df, lost) && df.spawn.SpawnOk? && df.daemons - lost == {}
  }

  /** The last daemon the ready barrier waited for is gone, others survive. */
  predicate BarrierFreed(df: Dataflow, lost: set<DaemonId>) {
    && Affected(df, lost) && df.spawn.SpawnOk? && df.daemons - lost != {}
    && df.pendingDaemons != {} && df.pendingDaemons - lost == {}
  }

  function Reclaim(slot: Slot, df: Dataflow, now: Millis, durable: bool): Slot {
    Emit(Persist(slot, df, Recovering, now, durable).(live := None), Reply(df.stopWaiters, Stopped(map[])))
  }

  function DisconnectSlot(slot: Slot, lost: set<DaemonId>, now: Millis, readable: bool, durable: bool): Slot {
    if slot.live.None? || !Affected(slot.live.value, lost) then slot
    else
      var df := Prune(slot.live.value, lost);
      var s1 := CancelRestart(slot, DaemonLost).(live := Some(df));
      if Orphaned(slot.live.value, lost) then Reclaim(s1, df, now, durable)
      else if BarrierFreed(slot.live.value, lost) then ReleaseBarrier(s1, df, now, readable, durable)
      else s1
  }

  // ----- finish ------------------------------------------------------------

  predicate AllOk(r: DaemonResult) {
    forall n :: n in r ==> r[n]
  }

  predicate EveryDaemonOk(results: Results) {
    forall d :: d in results ==> AllOk(results[d])
  }

  function Verdict(results: Results): Status {
    if EveryDaemonOk(results) then Succeeded else Failed(false)
  }

  function SpawnWaiters(s: Spawn): seq<Caller> {
    if s.SpawnPending? then s.waiters else []
  }

  /** Does this finish event complete the dataflow? */
  predicate Completes(slot: Slot, d: DaemonId) {
    slot.live.Some? && slot.live.value.daemons <= {d}
  }

  function RestartOutcome(restart: Option<Restart>, started: Option<Placement>): seq<Output> {
    if restart.None? then []
    else if started.Some? then [Answered(restart.value.caller, RestartedAs(started.value.uuid))]
    else [Answered(restart.value.caller, RestartFailed)]
  }

  /** `results` already holds this daemon's own result. */
  function FinishSlot(slot: Slot, d: DaemonId, results: Results, started: Option<Placement>, now: Millis,
                      durable: bool): Slot {
    if slot.live.None? then slot
    else
      var df := slot.live.value.(daemons := slot.live.value.daemons - {d});
      if df.daemons != {} then slot.(live := Some(df))
      else
        var s1 := Emit(slot.(restart := None), RestartOutcome(slot.restart, started));
        var s2 := Persist(s1, df, Verdict(results), now, durable).(live := None);
        Emit(s2, Reply(df.stopWaiters, Stopped(results)) + Reply(SpawnWaiters(df.spawn), SpawnFailed))
  }

  /** A freshly started dataflow (`start_dataflow`, then persisted as Pending). */
  function NewDataflow(p: Placement, name: Option<string>, descriptor: Descriptor, uv: bool, now: Millis): Dataflow {
    Dataflow(name, descriptor, uv, p.daemons, if |p.daemons| > 1 then p.daemons else {}, p.daemons,
             [], false, p.nodeToDaemon, SpawnPending([]), [], now, 0, now, map[])
  }

  function StartSlot(slot: Slot, p: Placement, name: Option<string>, descriptor: Descriptor, uv: bool, now: Millis,
                     durable: bool): Slot {
    Persist(slot, NewDataflow(p, name, descriptor, uv, now), Pending, now, durable)
  }

  // ----- spawn results -----------------------------------------------------

  /** Per-daemon results for a dataflow whose spawn failed: every assigned node
      failed, or one sentinel entry when nothing was assigned. */
  function SyntheticResults(df: Dataflow): (r: Results)
    ensures !EveryDaemonOk(r)
    ensures exists d, n :: d in r && n in r[d] && !r[d][n]
    ensures forall n :: n in df.nodeToDaemon ==>
              df.nodeToDaemon[n] in r && n in r[df.nodeToDaemon[n]] && !r[df.nodeToDaemon[n]][n]
    ensures forall d, n :: d in r && n in r[d] && df.nodeToDaemon.Keys != {} ==>
              n in df.nodeToDaemon && df.nodeToDaemon[n] == d && !r[d][n]
  {
    if df.nodeToDaemon.Keys == {} then
      var sentinel := DaemonId(Some("watchdog"), 0);
      var r: Results := map[sentinel := map["watchdog" := false]];
      assert sentinel in r && "watchdog" in r[sentinel];
      r
    else
      var r: Results := map d | d in df.nodeToDaemon.Values :: map n | n in df.nodeToDaemon && df.nodeToDaemon[n] == d :: false;
      assert exists d, n :: d in r && n in r[d] && !r[d][n] by {
        var n :| n in df.nodeToDaemon;
        var d := df.nodeToDaemon[n];
        assert d in r && n in r[d] && !r[d][n];
      }
      r
  }

  /** `teardown_failed_spawn`; `results` already includes the synthetic entry. */
  function TearDown(slot: Slot, df: Dataflow, rollback: set<DaemonId>, results: Results): Slot {
    var s1 := if rollback == {} then slot else Emit(slot, [Rollback(rollback)]);
    var s2 := CancelRestart(s1, SpawnGaveUp);
    Emit(s2.(live := None), Reply(df.stopWaiters, Stopped(results)))
  }

  /** The spawn fails terminally: resolve the waiters, persist, tear down. */
  function FailSpawn(slot: Slot, df: Dataflow, results: Results, now: Millis, durable: bool): Slot {
    var s1 := Persist(slot, df, Failed(true), now, durable);
    var s2 := Emit(s1, Reply(SpawnWaiters(df.spawn), SpawnFailed));
    TearDown(s2, df, df.daemons - df.pendingSpawn, results)
  }

  /** Does this report make the dataflow's spawn fail terminally? */
  predicate SpawnFails(slot: Slot, ok: bool) {
    slot.live.Some? && !ok && slot.live.value.spawn.SpawnPending?
  }

  function SpawnResultSlot(slot: Slot, d: DaemonId, ok: bool, archived: bool, results: Results, now: Millis,
                           durable: bool): Slot {
    if slot.live.None? then
      if ok && archived then Emit(slot, [Rollback({d})]) else slot
    else
      var df := slot.live.value.(pendingSpawn := slot.live.value.pendingSpawn - {d});
      if !df.spawn.SpawnPending? then slot.(live := Some(df))
      else if !ok then FailSpawn(slot, df, results, now, durable)
      else if df.pendingSpawn != {} then slot.(live := Some(df))
      else
        var s1 := Emit(slot, Reply(df.spawn.waiters, Spawned));
        Persist(s1, df.(spawn := SpawnOk), Running, now, durable)
  }

  predicate SpawnStuck(df: Dataflow, now: Millis) {
    df.spawn.SpawnPending? && Elapsed(now, df.spawnStartedAt) > SPAWN_RESULT_TIMEOUT
  }

  /** `check_spawn_timeouts`, for one dataflow. */
  function SpawnTimeoutSlot(slot: Slot, results: Results, now: Millis, durable: bool): Slot {
    if slot.live.Some? && SpawnStuck(slot.live.value, now)
    then FailSpawn(slot, slot.live.value, results, now, durable)
    else slot
  }

  /** Stale Recovering records fail for good. */
  function RecoveryTimeoutSlot(slot: Slot, now: Millis, durable: bool): Slot {
    if && slot.record.Some? && slot.record.value.status == Recovering
       && Elapsed(now, slot.record.value.updatedAt) > RECOVERY_TIMEOUT && durable
    then slot.(record := Some(slot.record.value.(status := Failed(true),
                                                 generation := slot.record.value.generation + 1,
                                                 updatedAt := now)))
    else slot
  }

  // ----- status reports ----------------------------------------------------

  function Recovered(r: Record, d: DaemonId, nodes: seq<NodeId>, now: Millis): Dataflow {
    Dataflow(r.name, r.descriptor, r.uv, {d}, {}, {}, r.exited, r.barrierReleased,
             map n | n in nodes :: d, SpawnOk, [], now, r.generation, r.createdAt, map[])
  }

  function Relink(df: Dataflow, d: DaemonId, nodes: seq<NodeId>): Dataflow {
    df.(daemons := df.daemons + {d}, pendingDaemons := df.pendingDaemons - {d},
        pendingSpawn := df.pendingSpawn - {d},
        nodeToDaemon := df.nodeToDaemon + map n | n in nodes :: d)
  }

  function Replay(slot: Slot, df: Dataflow, d: DaemonId, connected: bool): Slot {
    if df.barrierReleased && connected then Emit(slot, [BarrierReplay(d, df.exited)]) else slot
  }

  /** `reestablish_running_dataflow` and the barrier replay it may ask for. */
  function Reestablish(slot: Slot, r: Record, d: DaemonId, nodes: seq<NodeId>, connected: bool, now: Millis): Slot {
    if slot.live.Some? then
      var df := Relink(slot.live.value, d, nodes);
      Replay(slot.(live := Some(df)), df, d, connected)
    else if !r.descriptor.resolves then slot
    else
      var df := Recovered(r, d, nodes, now);
      Replay(slot.(live := Some(df)), df, d, connected)
  }

  predicate ShouldStopOrphan(status: Status) {
    status == Failed(true) || status == Succeeded
  }

  predicate Promotable(status: Status) {
    status == Failed(false) || status == Pending || status == Recovering
  }

  function StopOrphanSlot(slot: Slot, d: DaemonId, connected: bool): Slot {
    if connected then Emit(slot, [StopOrphan(d)]) else slot
  }

  /** One entry of a status report. */
  function ReconcileSlot(slot: Slot, d: DaemonId, nodes: seq<NodeId>, archived: bool, connected: bool, now: Millis,
                         readable: bool, durable: bool): Slot {
    if archived then StopOrphanSlot(slot, d, connected)
    else if !readable || slot.record.None? then slot
    else
      var r := slot.record.value;
      if Promotable(r.status) then
        var r' := r.(status := Running, generation := r.generation + 1, updatedAt := now);
        Reestablish(slot.(record := if durable then Some(r') else slot.record), r', d, nodes, connected, now)
      else if r.status == Running then Reestablish(slot, r, d, nodes, connected, now)
      else if ShouldStopOrphan(r.status) then StopOrphanSlot(slot, d, connected)
      else slot
  }

  function NodesOn(df: Dataflow, d: DaemonId): set<NodeId> {
    set n | n in df.nodeToDaemon && df.nodeToDaemon[n] == d
  }

  predicate BackingOff(df: Dataflow, d: DaemonId, now: Millis) {
    d in df.lastRecovery && Elapsed(now, df.lastRecovery[d]) < RECOVERY_BACKOFF
  }

  predicate ShouldRespawn(df: Dataflow, d: DaemonId, now: Millis) {
    && d in df.daemons && !BackingOff(df, d, now)
    && d !in df.pendingSpawn && !df.spawn.SpawnErr? && NodesOn(df, d) != {}
  }

  /** Auto-recovery of a dataflow that should run on the reporting daemon. */
  function AutoRecoverSlot(slot: Slot, d: DaemonId, reported: bool, connected: bool, now: Millis): Slot {
    if slot.live.None? || d !in slot.live.value.daemons then slot
    else
      var df := slot.live.value;
      if reported then slot.(live := Some(df.(lastRecovery := df.lastRecovery - {d})))
      else if !ShouldRespawn(df, d, now) then slot
      else
        Emit(slot.(live := Some(df.(lastRecovery := df.lastRecovery[d := now]))),
             if connected then [Respawn(d, NodesOn(df, d), now)] else [])
  }

  /** All entries of a report that name this dataflow, in order. */
  function ReconcileAll(u: DataflowId, slot: Slot, d: DaemonId, entries: seq<StatusEntry>, archived: bool,
                        connected: bool, now: Millis, readable: bool, durable: bool): Slot
    decreases |entries|
  {
    if entries == [] then slot
    else
      var s1 := if entries[0].uuid == u
                then ReconcileSlot(slot, d, entries[0].nodes, archived, connected, now, readable, durable)
                else slot;
      ReconcileAll(u, s1, d, entries[1..], archived, connected, now, readable, durable)
  }

  predicate Reports(entries: seq<StatusEntry>, u: DataflowId) {
    exists i :: 0 <= i < |entries| && entries[i].uuid == u
  }

  function ReportSlot(u: DataflowId, slot: Slot, d: DaemonId, entries: seq<StatusEntry>, archived: bool,
                      connected: bool, now: Millis, readable: bool, durable: bool): Slot {
    AutoRecoverSlot(ReconcileAll(u, slot, d, entries, archived, connected, now, readable, durable),
                    d, Reports(entries, u), connected, now)
  }

  // ----- control requests --------------------------------------------------

  /** `results` is what the history holds for this dataflow, if anything. */
  function StopSlot(slot: Slot, c: Caller, acks: set<DaemonId>, results: Option<Results>, now: Millis,
                    durable: bool): Slot {
    var s := CancelRestart(slot, StoppedFirst);
    if s.live.None? then
      Emit(s, [Answered(c, if results.Some? then Stopped(results.value) else UnknownDataflow)])
    else if !(s.live.value.daemons <= acks) then Emit(s, [Answered(c, StopRejected)])
    else
      var df := s.live.value;
      Persist(s, df.(stopWaiters := df.stopWaiters + [c]), Stopping, now, durable)
  }

  function RestartSlot(slot: Slot, c: Caller, acks: set<DaemonId>, now: Millis, durable: bool): Slot {
    if slot.restart.Some? then Emit(slot, [Answered(c, AlreadyRestarting)])
    else if slot.live.None? then Emit(slot, [Answered(c, UnknownDataflow)])
    else if !(slot.live.value.daemons <= acks) then Emit(slot, [Answered(c, StopRejected)])
    else
      var df := slot.live.value;
      Persist(slot, df, Stopping, now, durable).(restart := Some(Restart(df.descriptor, df.name, df.uv, c)))
  }

  function WaitForSpawnSlot(slot: Slot, c: Caller): Slot {
    if slot.live.None? then Emit(slot, [Answered(c, UnknownDataflow)])
    else
      match slot.live.value.spawn
      case SpawnPending(ws) =>
        slot.(live := Some(slot.live.value.(spawn := SpawnPending(ws + [c]))))
      case SpawnOk => Emit(slot, [Answered(c, Spawned)])
      case SpawnErr => Emit(slot, [Answered(c, SpawnFailed)])
  }

  // ----- clean and process restart -----------------------------------------

  predicate Completed(status: Status) {
    status == Succeeded || status.Failed?
  }

  /** A dataflow that `clean` may remove: it is not live, and either the history
      holds results for it or its record is in a completed state. */
  predicate Cleanable(slot: Slot, inResults: bool) {
    slot.live.None? && (inResults || (slot.record.Some? && Completed(slot.record.value.status)))
  }

  function CleanSlot(slot: Slot, inResults: bool, durable: bool): Slot {
    if Cleanable(slot, inResults) && durable then slot.(record := None) else slot
  }

  /** A new coordinator process: only the store survives, and whatever was still
      in flight waits for its daemons to come back. */
  function BootSlot(slot: Slot, now: Millis, listable: bool, durable: bool): Slot {
    var s := slot.(live := None, restart := None);
    if slot.record.Some? && !Completed(slot.record.value.status) && listable && durable
    then
      var r := slot.record.value;
      s.(record := Some(r.(status := Recovering, generation := r.generation + 1, updatedAt := now)))
    else s
  }
}
