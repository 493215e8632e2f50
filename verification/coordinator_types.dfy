/** Entities of the coordinator: daemons, connections, running dataflows,
    persisted records, and everything the coordinator sends. */
module CoordinatorTypes {
  import opened Common

  type DataflowId = nat
  type NodeId = string
  type Caller = nat      // a reply channel handed in with a control request
  type Millis = nat

  /** A daemon id carries the machine id it registered with, if any. */
  datatype DaemonId = DaemonId(machine: Option<string>, uuid: nat)

  datatype Connection = Connection(id: nat, lastHeartbeat: Millis, sendTimeouts: nat, endpoint: Option<string>)

  datatype Descriptor = Descriptor(text: string, resolves: bool)

  /** Per-node outcomes reported by one daemon: true is success. */
  type DaemonResult = map<NodeId, bool>
  type Results = map<DaemonId, DaemonResult>

  datatype Status =
    | Pending
    | Running
    | Recovering
    | Stopping
    | Succeeded
    | Failed(terminal: bool)

  /** `CachedResult` of a spawn: waiters are parked until it is resolved. */
  datatype Spawn = SpawnPending(waiters: seq<Caller>) | SpawnOk | SpawnErr

  datatype Dataflow = Dataflow(
    name: Option<string>,
    descriptor: Descriptor,
    uv: bool,
    daemons: set<DaemonId>,
    pendingDaemons: set<DaemonId>,
    pendingSpawn: set<DaemonId>,
    exited: seq<NodeId>,
    barrierReleased: bool,
    nodeToDaemon: map<NodeId, DaemonId>,
    spawn: Spawn,
    stopWaiters: seq<Caller>,
    spawnStartedAt: Millis,
    generation: nat,
    createdAt: Millis,
    lastRecovery: map<DaemonId, Millis>)

  datatype Record = Record(
    name: Option<string>,
    descriptor: Descriptor,
    uv: bool,
    status: Status,
    daemons: set<DaemonId>,
    nodeToDaemon: map<NodeId, DaemonId>,
    exited: seq<NodeId>,
    barrierReleased: bool,
    generation: nat,
    createdAt: Millis,
    updatedAt: Millis)

  datatype Restart = Restart(descriptor: Descriptor, name: Option<string>, uv: bool, caller: Caller)

  datatype CancelReason = DaemonLost | StoppedFirst | SpawnGaveUp

  datatype Answer =
    | StartTriggered
    | Spawned
    | SpawnFailed
    | Stopped(results: Results)
    | StopRejected
    | RestartedAs(replacement: DataflowId)
    | RestartFailed
    | RestartCancelled(reason: CancelReason)
    | AlreadyRestarting
    | UnknownDataflow

  /** Everything that leaves the coordinator on behalf of one dataflow. */
  datatype Output =
    | Answered(caller: Caller, answer: Answer)
    | StopOrphan(daemon: DaemonId)
    | Rollback(daemons: set<DaemonId>)
    | Respawn(daemon: DaemonId, nodes: set<NodeId>, at: Millis)
    | BarrierBroadcast(daemons: set<DaemonId>, exited: seq<NodeId>)
    | BarrierReplay(daemon: DaemonId, exited: seq<NodeId>)

  /** Where `spawn_dataflow` put a new dataflow. */
  datatype Placement = Placement(uuid: DataflowId, daemons: set<DaemonId>, nodeToDaemon: map<NodeId, DaemonId>)

  datatype StatusEntry = StatusEntry(uuid: DataflowId, nodes: seq<NodeId>)

  /** What the outside world contributes to one step: the clock and the store
      operations that fail. */
  datatype Env = Env(now: Millis, lostWrites: set<DataflowId>, unreadable: set<DataflowId>, listable: bool)

  predicate Durable(env: Env, u: DataflowId) {
    u !in env.lostWrites
  }

  predicate Readable(env: Env, u: DataflowId) {
    u !in env.unreadable
  }

  const RECOVERY_TIMEOUT: Millis := 60_000
  const RECOVERY_BACKOFF: Millis := 30_000
  const HEARTBEAT_HORIZON: Millis := 30_000
  const SPAWN_RESULT_TIMEOUT: Millis := 60_000
  const MAX_CONSECUTIVE_HEARTBEAT_SEND_TIMEOUTS: nat := 10
  const U32_MAX: nat := 0xFFFF_FFFF
  const MAX_ARCHIVED_DATAFLOWS: nat := 200
  const MAX_DATAFLOW_RESULTS: nat := 200

  function Elapsed(now: Millis, since: Millis): (r: Millis)
  {
    if now < since then 0 else now - since
  }
}
