/** The coordinator's event loop as a transition function. One event is handled
    at a time, so each event is one atomic step. */
module Coordinator {
  import opened Common
  import opened CoordinatorTypes
  import opened DataflowSlot

  datatype State = State(
    conns: map<DaemonId, Connection>,                    // daemon_connections
    slots: map<DataflowId, Slot>,                        // one slot per known dataflow id
    results: IndexMap<DataflowId, Results>,              // dataflow_results
    archived: IndexMap<DataflowId, Option<string>>,      // archived_dataflows: the name
    rejected: seq<Caller>)                               // requests refused before any dataflow was involved

  datatype SendOutcome = Delivered | SendFailed | TimedOut

  datatype Event =
    | Register(machine: Option<string>, conn: Connection, accepted: bool, freshUuid: nat)
    | Heartbeat(daemon: DaemonId, env: Env)
    | Endpoint(daemon: DaemonId, connection: nat, endpoint: Option<string>)
    | Exit(daemon: DaemonId, connection: nat, env: Env)
    | Tick(sends: map<DaemonId, SendOutcome>, order: seq<DataflowId>, env: Env)
    | Report(daemon: DaemonId, entries: seq<StatusEntry>, env: Env)
    | Ready(uuid: DataflowId, daemon: DaemonId, exited: seq<NodeId>, env: Env)
    | Finished(uuid: DataflowId, daemon: DaemonId, result: DaemonResult, started: Option<Placement>, env: Env)
    | SpawnReport(uuid: DataflowId, daemon: DaemonId, ok: bool, env: Env)
    | WaitForSpawn(uuid: DataflowId, caller: Caller)
    | StartReq(caller: Caller, name: Option<string>, descriptor: Descriptor, uv: bool, started: Option<Placement>,
               env: Env)
    | StopReq(uuid: DataflowId, caller: Caller, acks: set<DaemonId>, env: Env)
    | StopByName(wanted: string, caller: Caller, acks: set<DaemonId>, env: Env)
    | RestartReq(uuid: DataflowId, caller: Caller, acks: set<DaemonId>, env: Env)
    | RestartByName(wanted: string, caller: Caller, acks: set<DaemonId>, env: Env)
    | Clean(env: Env)
    | Boot(env: Env)

  // ----- reading a state ---------------------------------------------------

  function At(s: State, u: DataflowId): Slot {
    if u in s.slots then s.slots[u] else EMPTY_SLOT
  }

  function LiveIds(s: State): set<DataflowId> {
    set u | u in s.slots && s.slots[u].live.Some?
  }

  function Named(s: State, name: string): set<DataflowId> {
    set u | u in s.slots && s.slots[u].live.Some? && s.slots[u].live.value.name == Some(name)
  }

  function ArchivedAs(s: State, name: string): set<DataflowId> {
    set u | u in s.archived.items && s.archived.items[u] == Some(name)
  }

  ghost function TheOnly(ids: set<DataflowId>): (r: Option<DataflowId>)
    ensures r.Some? <==> |ids| == 1
    ensures r.Some? ==> ids == {r.value}
  {
    if |ids| != 1 then None
    else
      var u :| u in ids;
      assert ids == {u} by {
        assert |ids - {u}| == 0;
      }
      Some(u)
  }

  /** Live names win over archived ones; an ambiguous name resolves to nothing. */
  ghost function ResolveName(s: State, name: string): Option<DataflowId> {
    if Named(s, name) != {} then TheOnly(Named(s, name)) else TheOnly(ArchivedAs(s, name))
  }

  // ----- connections -------------------------------------------------------

  /** Next timeout streak, and whether the daemon is disconnected. */
  function HeartbeatDecision(outcome: SendOutcome, timeouts: nat): (nat, bool) {
    match outcome
    case Delivered => (0, false)
    case SendFailed => (0, true)
    case TimedOut =>
      var streak := if timeouts < U32_MAX then timeouts + 1 else U32_MAX;
      (streak, streak >= MAX_CONSECUTIVE_HEARTBEAT_SEND_TIMEOUTS)
  }

  function OutcomeFor(sends: map<DaemonId, SendOutcome>, d: DaemonId): SendOutcome {
    if d in sends then sends[d] else Delivered
  }

  predicate Stale(c: Connection, now: Millis) {
    Elapsed(now, c.lastHeartbeat) > HEARTBEAT_HORIZON
  }

  function TickLost(conns: map<DaemonId, Connection>, sends: map<DaemonId, SendOutcome>, now: Millis): set<DaemonId> {
    set d | d in conns &&
            (Stale(conns[d], now) || HeartbeatDecision(OutcomeFor(sends, d), conns[d].sendTimeouts).1)
  }

  function TickConns(conns: map<DaemonId, Connection>, sends: map<DaemonId, SendOutcome>, now: Millis)
    : map<DaemonId, Connection>
  {
    map d | d in conns && d !in TickLost(conns, sends, now) ::
      conns[d].(sendTimeouts := HeartbeatDecision(OutcomeFor(sends, d), conns[d].sendTimeouts).0)
  }

  /** The id a registering daemon is given: an id already registered for the same
      machine (or for "no machine") is reused. */
  ghost function RegisteredId(conns: map<DaemonId, Connection>, machine: Option<string>, uuid: nat): (d: DaemonId)
    ensures d.machine == machine
    ensures (exists x :: x in conns && x.machine == machine) ==> d in conns
  {
    if exists x :: x in conns && x.machine == machine then
      var x :| x in conns && x.machine == machine; x
    else DaemonId(machine, uuid)
  }

  predicate Current(conns: map<DaemonId, Connection>, d: DaemonId, connection: nat) {
    d in conns && conns[d].id == connection
  }

  ghost function ConnsAfter(s: State, e: Event): map<DaemonId, Connection> {
    match e
    case Register(machine, conn, accepted, uuid) =>
      if accepted then s.conns[RegisteredId(s.conns, machine, uuid) := conn] else s.conns
    case Heartbeat(d, env) =>
      if d in s.conns then s.conns[d := s.conns[d].(lastHeartbeat := env.now)] else s.conns
    case Endpoint(d, cid, ep) =>
      if Current(s.conns, d, cid) then s.conns[d := s.conns[d].(endpoint := ep)] else s.conns
    case Exit(d, cid, _) => s.conns - LostBy(s, e)
    case Tick(sends, _, env) => TickConns(s.conns, sends, env.now)
    case Boot(_) => map[]
    case _ => s.conns
  }

  /** The daemons this event disconnects. */
  function LostBy(s: State, e: Event): set<DaemonId> {
    match e
    case Exit(d, cid, _) => if Current(s.conns, d, cid) then {d} else {}
    case Tick(sends, _, env) => TickLost(s.conns, sends, env.now)
    case _ => {}
  }

  // ----- what one dataflow sees of an event --------------------------------

  /** The facts outside a slot that decide what an event does to it. */
  datatype Ctx = Ctx(
    archived: bool,                 // is the id in the archive?
    results: Option<Results>,       // its entry in the results history
    lost: set<DaemonId>,            // daemons this event disconnects
    connected: bool,                // is the reporting daemon connected?
    target: Option<DataflowId>,     // the dataflow a control request resolved to
    launch: Option<Restart>)        // the deferred restart this event completes

  function KnownResults(r: Option<Results>): Results {
    if r.Some? then r.value else map[]
  }

  /** The pending restart that a finish event will carry out. */
  function Launched(s: State, e: Event): Option<Restart> {
    if e.Finished? && Completes(At(s, e.uuid), e.daemon) then At(s, e.uuid).restart else None
  }

  /** The id of the replacement that this event starts, if it starts one. */
  function ReplacementOf(s: State, e: Event): set<DataflowId> {
    if Launched(s, e).Some? && e.started.Some? then {e.started.value.uuid} else {}
  }

  predicate NameTaken(s: State, name: Option<string>) {
    name.Some? && Named(s, name.value) != {}
  }

  ghost function TargetOf(s: State, e: Event): Option<DataflowId> {
    match e
    case WaitForSpawn(u, _) => Some(u)
    case StopReq(u, _, _, _) => Some(u)
    case RestartReq(u, _, _, _) => Some(u)
    case StopByName(name, _, _, _) => ResolveName(s, name)
    case RestartByName(name, _, _, _) => ResolveName(s, name)
    case StartReq(_, name, _, _, started, _) =>
      if NameTaken(s, name) || started.None? then None else Some(started.value.uuid)
    case _ => None
  }

  ghost function CtxOf(s: State, e: Event, u: DataflowId): Ctx {
    Ctx(u in s.archived.items, Lookup(s.results.items, u), LostBy(s, e),
        e.Report? && e.daemon in s.conns, TargetOf(s, e), Launched(s, e))
  }

  /** The effect of one event on the slot of dataflow `u`. */
  function SlotStep(u: DataflowId, slot: Slot, e: Event, x: Ctx): Slot {
    match e
    case Exit(_, _, env) =>
      DisconnectSlot(slot, x.lost, env.now, Readable(env, u), Durable(env, u))
    case Tick(_, _, env) => TickSlot(u, slot, x, env)
    case Report(d, entries, env) =>
      ReportSlot(u, slot, d, entries, x.archived, x.connected, env.now, Readable(env, u), Durable(env, u))
    case Ready(v, d, exited, env) =>
      if u == v then ReadySlot(slot, d, exited, env.now, Readable(env, u), Durable(env, u)) else slot
    case Finished(v, d, result, started, env) =>
      if u == v then FinishSlot(slot, d, KnownResults(x.results)[d := result], started, env.now, Durable(env, u))
      else if x.launch.Some? && started.Some? && started.value.uuid == u then
        var r := x.launch.value;
        StartSlot(slot, started.value, r.name, r.descriptor, r.uv, env.now, Durable(env, u))
      else slot
    case SpawnReport(v, d, ok, env) =>
      if u == v then
        SpawnResultSlot(slot, d, ok, x.archived, FailedResults(slot, x.results), env.now, Durable(env, u))
      else slot
    case WaitForSpawn(v, c) => if u == v then WaitForSpawnSlot(slot, c) else slot
    case StartReq(c, name, descriptor, uv, started, env) =>
      if x.target == Some(u) && started.Some? then
        Emit(StartSlot(slot, started.value, name, descriptor, uv, env.now, Durable(env, u)),
             [Answered(c, StartTriggered)])
      else slot
    case StopReq(_, c, acks, env) =>
      if x.target == Some(u) then StopSlot(slot, c, acks, x.results, env.now, Durable(env, u)) else slot
    case StopByName(_, c, acks, env) =>
      if x.target == Some(u) then StopSlot(slot, c, acks, x.results, env.now, Durable(env, u)) else slot
    case RestartReq(_, c, acks, env) =>
      if x.target == Some(u) then RestartSlot(slot, c, acks, env.now, Durable(env, u)) else slot
    case RestartByName(_, c, acks, env) =>
      if x.target == Some(u) then RestartSlot(slot, c, acks, env.now, Durable(env, u)) else slot
    case Clean(env) => CleanSlot(slot, x.results.Some?, env.listable && Durable(env, u))
    case Boot(env) => BootSlot(slot, env.now, env.listable, Durable(env, u))
    case _ => slot
  }

  /** The results of a failed spawn: what was known plus the synthetic failures. */
  function FailedResults(slot: Slot, known: Option<Results>): Results {
    if slot.live.Some? then KnownResults(known) + SyntheticResults(slot.live.value) else KnownResults(known)
  }

  /** A heartbeat tick: disconnects, then stuck spawns, then stale recoveries. */
  function TickSlot(u: DataflowId, slot: Slot, x: Ctx, env: Env): Slot {
    var s1 := DisconnectSlot(slot, x.lost, env.now, Readable(env, u), Durable(env, u));
    var s2 := SpawnTimeoutSlot(s1, FailedResults(s1, x.results), env.now, Durable(env, u));
    RecoveryTimeoutSlot(s2, env.now, env.listable && Durable(env, u))
  }

  // ----- histories ---------------------------------------------------------

  /** Late results of an archived dataflow are merged node by node. */
  function MergeLate(known: Results, d: DaemonId, result: DaemonResult): Results {
    known[d := (if d in known then known[d] else map[]) + result]
  }

  /** A torn-down dataflow leaves the live set and enters the results history with its
      synthetic failures on top of what was known. */
  function RecordFailure(results: IndexMap<DataflowId, Results>, u: DataflowId, df: Dataflow, live: set<DataflowId>)
    : IndexMap<DataflowId, Results>
  {
    results.Put(u, KnownResults(Lookup(results.items, u)) + SyntheticResults(df))
    .DropOldestExcept(MAX_DATAFLOW_RESULTS, live - {u})
  }

  function Archive(archived: IndexMap<DataflowId, Option<string>>, u: DataflowId, name: Option<string>)
    : IndexMap<DataflowId, Option<string>>
  {
    archived.PutIfAbsent(u, name).DropOldest(MAX_ARCHIVED_DATAFLOWS)
  }

  /** Torn-down dataflows enter the results history one after the other, in the
      order the watchdog visits them; each leaves the live set first. */
  function TearDownResults(results: IndexMap<DataflowId, Results>, order: seq<DataflowId>,
                           dfs: map<DataflowId, Dataflow>, live: set<DataflowId>): IndexMap<DataflowId, Results>
    decreases |order|
  {
    if order == [] || order[0] !in dfs then results
    else TearDownResults(RecordFailure(results, order[0], dfs[order[0]], live), order[1..], dfs, live - {order[0]})
  }

  function TearDownArchive(archived: IndexMap<DataflowId, Option<string>>, order: seq<DataflowId>,
                           dfs: map<DataflowId, Dataflow>): IndexMap<DataflowId, Option<string>>
    decreases |order|
  {
    if order == [] || order[0] !in dfs then archived
    else TearDownArchive(Archive(archived, order[0], dfs[order[0]].name), order[1..], dfs)
  }

  /** Live dataflows of `s` after this event's disconnects. */
  function AfterDisconnect(s: State, lost: set<DaemonId>, env: Env): map<DataflowId, Dataflow> {
    map u | u in s.slots &&
            DisconnectSlot(s.slots[u], lost, env.now, Readable(env, u), Durable(env, u)).live.Some? ::
      DisconnectSlot(s.slots[u], lost, env.now, Readable(env, u), Durable(env, u)).live.value
  }

  /** The ids of `order` whose spawn is stuck, in order. */
  function StuckIn(order: seq<DataflowId>, dfs: map<DataflowId, Dataflow>, now: Millis): (r: seq<DataflowId>)
    ensures forall u :: u in r <==> u in order && u in dfs && SpawnStuck(dfs[u], now)
  {
    if order == [] then []
    else if order[0] in dfs && SpawnStuck(dfs[order[0]], now) then [order[0]] + StuckIn(order[1..], dfs, now)
    else StuckIn(order[1..], dfs, now)
  }

  function SpawnFailure(s: State, e: Event): bool {
    e.SpawnReport? && SpawnFails(At(s, e.uuid), e.ok)
  }

  /** The results history with the result of one daemon added, before it is capped. */
  function FinishedResults(s: State, u: DataflowId, d: DaemonId, result: DaemonResult): IndexMap<DataflowId, Results> {
    var known := KnownResults(Lookup(s.results.items, u));
    if At(s, u).live.Some? then s.results.Put(u, known[d := result])
    else if u in s.archived.items then s.results.Put(u, MergeLate(known, d, result))
    else s.results
  }

  function ResultsAfter(s: State, e: Event): IndexMap<DataflowId, Results> {
    match e
    case Finished(u, d, result, _, _) =>
      var gone := if Completes(At(s, u), d) then {u} else {};
      FinishedResults(s, u, d, result)
      .DropOldestExcept(MAX_DATAFLOW_RESULTS, LiveIds(s) - gone + ReplacementOf(s, e))
    case SpawnReport(u, _, _, _) =>
      if SpawnFailure(s, e) then RecordFailure(s.results, u, At(s, u).live.value, LiveIds(s)) else s.results
    case Tick(sends, order, env) =>
      var dfs := AfterDisconnect(s, LostBy(s, e), env);
      TearDownResults(s.results, StuckIn(order, dfs, env.now), dfs, dfs.Keys)
    case Clean(env) =>
      if env.listable then RemoveCleaned(s.results, CleanedBy(s, env)) else s.results
    case Boot(_) => IndexMap([], map[])
    case _ => s.results
  }

  function ArchivedAfter(s: State, e: Event): IndexMap<DataflowId, Option<string>> {
    match e
    case Finished(u, d, _, _, _) =>
      if Completes(At(s, u), d) then Archive(s.archived, u, At(s, u).live.value.name) else s.archived
    case SpawnReport(u, _, _, _) =>
      if SpawnFailure(s, e) then Archive(s.archived, u, At(s, u).live.value.name) else s.archived
    case Tick(sends, order, env) =>
      var dfs := AfterDisconnect(s, LostBy(s, e), env);
      TearDownArchive(s.archived, StuckIn(order, dfs, env.now), dfs)
    case Clean(env) =>
      if env.listable then RemoveCleaned(s.archived, CleanedBy(s, env)) else s.archived
    case Boot(_) => IndexMap([], map[])
    case _ => s.archived
  }

  /** The dataflows `clean` looks at. */
  function Candidates(s: State): set<DataflowId> {
    set u | u in s.slots.Keys + s.results.items.Keys && Cleanable(At(s, u), u in s.results.items)
  }

  function CleanedBy(s: State, env: Env): set<DataflowId> {
    Candidates(s) - env.lostWrites
  }

  function RemoveCleaned<V>(m: IndexMap<DataflowId, V>, gone: set<DataflowId>): (r: IndexMap<DataflowId, V>)
    ensures r.items == m.items - gone
    ensures m.Valid() ==> r.Valid()
  {
    FilterOutKeeps(m.keys, gone);
    IndexMap(FilterOut(m.keys, gone), m.items - gone)
  }

  function FilterOut(s: seq<DataflowId>, gone: set<DataflowId>): seq<DataflowId> {
    if s == [] then [] else (if s[0] in gone then [] else [s[0]]) + FilterOut(s[1..], gone)
  }

  lemma FilterOutKeeps(s: seq<DataflowId>, gone: set<DataflowId>)
    ensures forall x :: x in FilterOut(s, gone) <==> x in s && x !in gone
    ensures Distinct(s) ==> Distinct(FilterOut(s, gone))
  {
    if s != [] {
      FilterOutKeeps(s[1..], gone);
      assert Distinct(s) ==> s[0] !in s[1..];
    }
  }

  // ----- the step ----------------------------------------------------------

  /** Requests refused without reaching any dataflow. */
  ghost function RejectedBy(s: State, e: Event): seq<Caller> {
    if (e.StopByName? || e.RestartByName? || e.StartReq?) && TargetOf(s, e).None? then [e.caller] else []
  }

  /** Ids whose slot an event may create. */
  ghost function Touched(s: State, e: Event): set<DataflowId> {
    match e
    case WaitForSpawn(u, _) => {u}
    case StopReq(u, _, _, _) => {u}
    case RestartReq(u, _, _, _) => {u}
    case Ready(u, _, _, _) => {u}
    case SpawnReport(u, _, _, _) => {u}
    case Report(_, entries, _) => set i | 0 <= i < |entries| :: entries[i].uuid
    case _ => (if TargetOf(s, e).Some? then {TargetOf(s, e).value} else {})
              + ReplacementOf(s, e)
  }

  ghost function Step(s: State, e: Event): State {
    State(ConnsAfter(s, e),
          map u | u in s.slots.Keys + Touched(s, e) :: SlotStep(u, At(s, u), e, CtxOf(s, e, u)),
          ResultsAfter(s, e),
          ArchivedAfter(s, e),
          s.rejected + RejectedBy(s, e))
  }

  /** `s'` is the state after `e`. */
  ghost predicate Next(s: State, e: Event, s': State) {
    forall z {:trigger Open(z)} :: Open(z) && z == 0 ==> s' == Step(s, e)
  }

  /** Every slot, known or not, moves by `SlotStep`. */
  lemma StepIsPointwise(s: State, e: Event, u: DataflowId)
    ensures At(Step(s, e), u) == SlotStep(u, At(s, u), e, CtxOf(s, e, u))
  {
    if u !in s.slots.Keys + Touched(s, e) {
      UntouchedStaysEmpty(s, e, u);
    }
  }

  lemma UntouchedStaysEmpty(s: State, e: Event, u: DataflowId)
    requires u !in s.slots.Keys + Touched(s, e)
    ensures SlotStep(u, EMPTY_SLOT, e, CtxOf(s, e, u)) == EMPTY_SLOT
  {
    match e
    case Report(d, entries, env) =>
      ReconcileNone(u, EMPTY_SLOT, d, entries, CtxOf(s, e, u), env);
    case _ =>
  }

  lemma ReconcileNone(u: DataflowId, slot: Slot, d: DaemonId, entries: seq<StatusEntry>, x: Ctx, env: Env)
    requires forall i :: 0 <= i < |entries| ==> entries[i].uuid != u
    ensures ReconcileAll(u, slot, d, entries, x.archived, x.connected, env.now,
                         Readable(env, u), Durable(env, u)) == slot
    decreases |entries|
  {
    if entries != [] {
      ReconcileNone(u, slot, d, entries[1..], x, env);
    }
  }

  // ----- which events can happen -------------------------------------------

  /** `spawn_dataflow` draws a new uuid and places nodes on connected daemons. */
  ghost predicate FreshPlacement(s: State, p: Placement) {
    && p.uuid !in s.slots
    && p.daemons <= s.conns.Keys
    && p.nodeToDaemon.Values == p.daemons
  }

  ghost predicate Enabled(s: State, e: Event) {
    match e
    case Register(machine, conn, _, uuid) => DaemonId(machine, uuid) !in s.conns && conn.sendTimeouts == 0
    case Finished(_, _, _, started, _) => started.Some? ==> FreshPlacement(s, started.value)
    case StartReq(_, _, _, _, started, _) => started.Some? ==> FreshPlacement(s, started.value)
    case Tick(_, order, _) => Distinct(order) && forall u :: u in order <==> u in LiveIds(s)
    case _ => true
  }

  /** The `i`-th step of a run. */
  ghost predicate Steps(states: seq<State>, events: seq<Event>, i: nat)
    requires i < |events| && i + 1 < |states|
  {
    Enabled(states[i], events[i]) && states[i + 1] == Step(states[i], events[i])
  }

  ghost predicate IsRun(states: seq<State>, events: seq<Event>) {
    |states| == |events| + 1 && forall i :: 0 <= i < |events| ==> Steps(states, events, i)
  }

  const INITIAL := State(map[], map[], IndexMap([], map[]), IndexMap([], map[]), [])
}
