/** What every step of the coordinator keeps, and the exact events that break
    what it does not keep. */
module CoordinatorInvariants {
  import opened Common
  import opened CoordinatorTypes
  import opened DataflowSlot
  import opened Coordinator

  // ----- per-dataflow invariant --------------------------------------------

  /** A pending restart belongs to a live dataflow, and a live dataflow's spawn has
      not failed. */
  predicate Sound(slot: Slot) {
    && (slot.restart.Some? ==> slot.live.Some?)
    && (slot.live.Some? ==> !slot.live.value.spawn.SpawnErr?)
  }

  predicate Member(slot: Slot, d: DaemonId) {
    slot.live.Some? && d in slot.live.value.daemons
  }

  /** What most events do to a slot: no dataflow appears, no daemon joins, the
      recovery clocks stand still, and a restart that is still pending is the old
      one and lost none of its daemons other than those in `finished`. */
  ghost predicate Shrinks(slot: Slot, slot': Slot, finished: set<DaemonId>) {
    && Sound(slot')
    && (slot'.live.Some? ==>
          && slot.live.Some?
          && slot'.live.value.daemons <= slot.live.value.daemons
          && slot'.live.value.lastRecovery == slot.live.value.lastRecovery)
    && (slot'.restart.Some? ==>
          && slot'.restart == slot.restart
          && slot.live.value.daemons - finished <= slot'.live.value.daemons)
  }

  lemma DisconnectShrinks(slot: Slot, lost: set<DaemonId>, now: Millis, readable: bool, durable: bool)
    requires Sound(slot)
    ensures Shrinks(slot, DisconnectSlot(slot, lost, now, readable, durable), {})
    ensures forall h :: Member(DisconnectSlot(slot, lost, now, readable, durable), h) ==> h !in lost
  {
  }

  lemma FailSpawnShrinks(slot: Slot, df: Dataflow, results: Results, now: Millis, durable: bool)
    ensures FailSpawn(slot, df, results, now, durable).live.None?
    ensures FailSpawn(slot, df, results, now, durable).restart.None?
  {
  }

  lemma TickShrinks(u: DataflowId, slot: Slot, x: Ctx, env: Env)
    requires Sound(slot)
    ensures Shrinks(slot, TickSlot(u, slot, x, env), {})
    ensures forall h :: Member(TickSlot(u, slot, x, env), h) ==> h !in x.lost
  {
    DisconnectShrinks(slot, x.lost, env.now, Readable(env, u), Durable(env, u));
    var s1 := DisconnectSlot(slot, x.lost, env.now, Readable(env, u), Durable(env, u));
    var s2 := SpawnTimeoutSlot(s1, FailedResults(s1, x.results), env.now, Durable(env, u));
    if s1.live.Some? && SpawnStuck(s1.live.value, env.now) {
      FailSpawnShrinks(s1, s1.live.value, FailedResults(s1, x.results), env.now, Durable(env, u));
    }
    assert TickSlot(u, slot, x, env).(record := None) == s2.(record := None);
  }

  lemma ReadyShrinks(slot: Slot, d: DaemonId, exited: seq<NodeId>, now: Millis, readable: bool, durable: bool)
    requires Sound(slot)
    ensures Shrinks(slot, ReadySlot(slot, d, exited, now, readable, durable), {})
  {
  }

  lemma FinishShrinks(slot: Slot, d: DaemonId, results: Results, started: Option<Placement>, now: Millis, durable: bool)
    requires Sound(slot)
    ensures Shrinks(slot, FinishSlot(slot, d, results, started, now, durable), {d})
  {
  }

  lemma SpawnResultShrinks(slot: Slot, d: DaemonId, ok: bool, archived: bool, results: Results, now: Millis,
                           durable: bool)
    requires Sound(slot)
    ensures Shrinks(slot, SpawnResultSlot(slot, d, ok, archived, results, now, durable), {})
  {
    if SpawnFails(slot, ok) {
      var df := slot.live.value.(pendingSpawn := slot.live.value.pendingSpawn - {d});
      FailSpawnShrinks(slot, df, results, now, durable);
    }
  }

  lemma RequestShrinks(slot: Slot, c: Caller, acks: set<DaemonId>, results: Option<Results>, now: Millis, durable: bool)
    requires Sound(slot)
    ensures Shrinks(slot, StopSlot(slot, c, acks, results, now, durable), {})
    ensures StopSlot(slot, c, acks, results, now, durable).restart.None?
    ensures Shrinks(slot, WaitForSpawnSlot(slot, c), {})
    ensures Shrinks(slot, RestartSlot(slot, c, acks, now, durable).(restart := slot.restart), {})
    ensures Sound(RestartSlot(slot, c, acks, now, durable))
  {
  }

  /** Does event `e` create dataflow `u`? */
  predicate Creates(u: DataflowId, e: Event, x: Ctx) {
    || (e.StartReq? && x.target == Some(u) && e.started.Some?)
    || (e.Finished? && u != e.uuid && x.launch.Some? && e.started.Some? && e.started.value.uuid == u)
  }

  predicate AsksRestart(u: DataflowId, e: Event, x: Ctx) {
    (e.RestartReq? || e.RestartByName?) && x.target == Some(u)
  }

  function FinishedOn(u: DataflowId, e: Event): set<DaemonId> {
    if e.Finished? && e.uuid == u then {e.daemon} else {}
  }

  lemma SlotShrinks(u: DataflowId, slot: Slot, e: Event, x: Ctx)
    requires Sound(slot) && !e.Report? && !Creates(u, e, x) && !AsksRestart(u, e, x)
    ensures Shrinks(slot, SlotStep(u, slot, e, x), FinishedOn(u, e))
  {
    match e
    case WaitForSpawn(_, c) => RequestShrinks(slot, c, {}, None, 0, true);
    case StopReq(_, c, acks, env) => RequestShrinks(slot, c, acks, x.results, env.now, Durable(env, u));
    case StopByName(_, c, acks, env) => RequestShrinks(slot, c, acks, x.results, env.now, Durable(env, u));
    case _ => EventShrinks(u, slot, e, x);
  }

  lemma EventShrinks(u: DataflowId, slot: Slot, e: Event, x: Ctx)
    requires Sound(slot) && !e.Report? && !Creates(u, e, x) && !AsksRestart(u, e, x)
    requires !e.WaitForSpawn? && !e.StopReq? && !e.StopByName?
    ensures Shrinks(slot, SlotStep(u, slot, e, x), FinishedOn(u, e))
  {
    match e
    case Exit(_, _, env) => DisconnectShrinks(slot, x.lost, env.now, Readable(env, u), Durable(env, u));
    case Tick(_, _, env) => TickShrinks(u, slot, x, env);
    case Ready(_, d, exited, env) => ReadyShrinks(slot, d, exited, env.now, Readable(env, u), Durable(env, u));
    case Finished(_, d, result, started, env) =>
      FinishShrinks(slot, d, KnownResults(x.results)[d := result], started, env.now, Durable(env, u));
    case SpawnReport(_, d, ok, env) =>
      SpawnResultShrinks(slot, d, ok, x.archived, FailedResults(slot, x.results), env.now, Durable(env, u));
    case _ =>
  }

  /** What a status report does to a slot: a dataflow may reappear and the sender may
      join; nobody leaves and the pending restart is untouched. */
  ghost predicate Grows(slot: Slot, slot': Slot, d: DaemonId) {
    && Sound(slot')
    && slot'.restart == slot.restart
    && (slot.live.Some? ==>
          && slot'.live.Some?
          && slot.live.value.daemons <= slot'.live.value.daemons <= slot.live.value.daemons + {d}
          && slot'.live.value.lastRecovery - {d} == slot.live.value.lastRecovery - {d})
    && (slot.live.None? && slot'.live.Some? ==> slot'.live.value.daemons == {d})
  }

  lemma ReconcileGrows(slot: Slot, d: DaemonId, nodes: seq<NodeId>, archived: bool, connected: bool, now: Millis,
                       readable: bool, durable: bool)
    requires Sound(slot)
    ensures Grows(slot, ReconcileSlot(slot, d, nodes, archived, connected, now, readable, durable), d)
  {
  }

  lemma {:induction false} ReconcileAllGrows(u: DataflowId, slot: Slot, d: DaemonId, entries: seq<StatusEntry>,
                                             archived: bool, connected: bool, now: Millis, readable: bool,
                                             durable: bool)
    requires Sound(slot)
    ensures Grows(slot, ReconcileAll(u, slot, d, entries, archived, connected, now, readable, durable), d)
    decreases |entries|
  {
    if entries != [] {
      ReconcileGrows(slot, d, entries[0].nodes, archived, connected, now, readable, durable);
      var s1 := if entries[0].uuid == u
                then ReconcileSlot(slot, d, entries[0].nodes, archived, connected, now, readable, durable)
                else slot;
      ReconcileAllGrows(u, s1, d, entries[1..], archived, connected, now, readable, durable);
    }
  }

  lemma ReportGrows(u: DataflowId, slot: Slot, e: Event, x: Ctx)
    requires Sound(slot) && e.Report?
    ensures Grows(slot, SlotStep(u, slot, e, x), e.daemon)
  {
    var env := e.env;
    ReconcileAllGrows(u, slot, e.daemon, e.entries, x.archived, x.connected, env.now, Readable(env, u), Durable(env, u));
    AutoRecoverGrows(slot, ReconcileAll(u, slot, e.daemon, e.entries, x.archived, x.connected, env.now,
                                        Readable(env, u), Durable(env, u)),
                     e.daemon, Reports(e.entries, u), x.connected, env.now);
  }

  lemma AutoRecoverGrows(slot: Slot, mid: Slot, d: DaemonId, reported: bool, connected: bool, now: Millis)
    requires Grows(slot, mid, d)
    ensures Grows(slot, AutoRecoverSlot(mid, d, reported, connected, now), d)
  {
  }

  lemma SlotStaysSound(u: DataflowId, slot: Slot, e: Event, x: Ctx)
    requires Sound(slot)
    requires Creates(u, e, x) ==> slot == EMPTY_SLOT
    ensures Sound(SlotStep(u, slot, e, x))
  {
    if e.Report? {
      ReportGrows(u, slot, e, x);
    } else if AsksRestart(u, e, x) {
      RequestShrinks(slot, e.caller, e.acks, None, e.env.now, Durable(e.env, u));
    } else if !Creates(u, e, x) {
      SlotShrinks(u, slot, e, x);
    }
  }

  /** A fresh uuid has an empty slot. */
  lemma CreatesFromEmpty(s: State, e: Event, u: DataflowId)
    requires Enabled(s, e)
    ensures Creates(u, e, CtxOf(s, e, u)) ==> At(s, u) == EMPTY_SLOT && u !in s.slots
  {
  }

  // ----- whole-state invariant ---------------------------------------------

  /** No two registered daemon ids share a machine id; "no machine" counts as one. */
  ghost predicate OneIdPerMachine(conns: map<DaemonId, Connection>) {
    forall d, d' :: d in conns && d' in conns && d.machine == d'.machine ==> d == d'
  }

  ghost predicate Inv(s: State) {
    && (forall u :: u in s.slots ==> Sound(s.slots[u]))
    && OneIdPerMachine(s.conns)
    && s.results.Valid() && s.archived.Valid()
    && s.results.items.Keys <= s.slots.Keys
    && s.archived.items.Keys <= s.slots.Keys
    && (forall u :: u in s.archived.items ==> At(s, u).live.None?)
  }

  lemma ConnsKeepIdentity(s: State, e: Event)
    requires OneIdPerMachine(s.conns) && Enabled(s, e)
    ensures OneIdPerMachine(ConnsAfter(s, e))
  {
  }

  lemma RecordFailureKeeps(results: IndexMap<DataflowId, Results>, u: DataflowId, df: Dataflow, live: set<DataflowId>)
    requires results.Valid()
    ensures RecordFailure(results, u, df, live).Valid()
    ensures forall v :: v in RecordFailure(results, u, df, live).items ==> v in results.items || v == u
  {
    results.Put(u, KnownResults(Lookup(results.items, u)) + SyntheticResults(df))
    .DropOldestExceptKeeps(MAX_DATAFLOW_RESULTS, live - {u});
  }

  lemma ArchiveKeeps(archived: IndexMap<DataflowId, Option<string>>, u: DataflowId, name: Option<string>)
    requires archived.Valid()
    ensures Archive(archived, u, name).Valid()
    ensures forall v :: v in Archive(archived, u, name).items ==> v in archived.items || v == u
  {
    archived.PutIfAbsent(u, name).DropOldestKeeps(MAX_ARCHIVED_DATAFLOWS);
  }

  lemma {:induction false} TearDownKeepsResults(results: IndexMap<DataflowId, Results>, order: seq<DataflowId>,
                                                dfs: map<DataflowId, Dataflow>, live: set<DataflowId>)
    requires results.Valid()
    ensures TearDownResults(results, order, dfs, live).Valid()
    ensures forall u :: u in TearDownResults(results, order, dfs, live).items ==>
              u in results.items || (u in order && u in dfs)
    decreases |order|
  {
    if order != [] && order[0] in dfs {
      RecordFailureKeeps(results, order[0], dfs[order[0]], live);
      TearDownKeepsResults(RecordFailure(results, order[0], dfs[order[0]], live), order[1..], dfs, live - {order[0]});
    }
  }

  lemma {:induction false} TearDownKeepsArchive(archived: IndexMap<DataflowId, Option<string>>,
                                                order: seq<DataflowId>, dfs: map<DataflowId, Dataflow>)
    requires archived.Valid()
    ensures TearDownArchive(archived, order, dfs).Valid()
    ensures forall u :: u in TearDownArchive(archived, order, dfs).items ==>
              u in archived.items || (u in order && u in dfs)
    decreases |order|
  {
    if order != [] && order[0] in dfs {
      ArchiveKeeps(archived, order[0], dfs[order[0]].name);
      TearDownKeepsArchive(Archive(archived, order[0], dfs[order[0]].name), order[1..], dfs);
    }
  }

  lemma FinishedResultsKeep(s: State, u: DataflowId, d: DaemonId, result: DaemonResult)
    requires s.results.Valid()
    ensures FinishedResults(s, u, d, result).Valid()
    ensures forall v :: v in FinishedResults(s, u, d, result).items ==>
              v in s.results.items || v in s.archived.items || v in s.slots
  {
  }

  lemma FinishKeepsResults(s: State, e: Event)
    requires e.Finished? && s.results.Valid()
    ensures ResultsAfter(s, e).Valid()
    ensures forall v :: v in ResultsAfter(s, e).items ==>
              v in s.results.items || v in s.archived.items || v in s.slots
  {
    var gone := if Completes(At(s, e.uuid), e.daemon) then {e.uuid} else {};
    FinishedResultsKeep(s, e.uuid, e.daemon, e.result);
    FinishedResults(s, e.uuid, e.daemon, e.result)
    .DropOldestExceptKeeps(MAX_DATAFLOW_RESULTS, LiveIds(s) - gone + ReplacementOf(s, e));
  }

  lemma FinishKeepsArchive(s: State, e: Event)
    requires e.Finished? && s.archived.Valid()
    ensures ArchivedAfter(s, e).Valid()
    ensures ArchivedAfter(s, e).items.Keys <= s.archived.items.Keys + WentDown(s, e)
  {
    if Completes(At(s, e.uuid), e.daemon) {
      ArchiveKeeps(s.archived, e.uuid, At(s, e.uuid).live.value.name);
    }
  }

  lemma SpawnReportKeepsHistories(s: State, e: Event)
    requires e.SpawnReport? && s.results.Valid() && s.archived.Valid() && s.results.items.Keys <= s.slots.Keys
    ensures ResultsAfter(s, e).Valid() && ResultsAfter(s, e).items.Keys <= s.slots.Keys
    ensures ArchivedAfter(s, e).Valid() && ArchivedAfter(s, e).items.Keys <= s.archived.items.Keys + WentDown(s, e)
  {
    if SpawnFailure(s, e) {
      RecordFailureKeeps(s.results, e.uuid, At(s, e.uuid).live.value, LiveIds(s));
      ArchiveKeeps(s.archived, e.uuid, At(s, e.uuid).live.value.name);
    }
  }

  lemma TickKeepsHistories(s: State, e: Event)
    requires e.Tick? && s.results.Valid() && s.archived.Valid() && s.results.items.Keys <= s.slots.Keys
    ensures ResultsAfter(s, e).Valid() && ResultsAfter(s, e).items.Keys <= s.slots.Keys
    ensures ArchivedAfter(s, e).Valid() && ArchivedAfter(s, e).items.Keys <= s.archived.items.Keys + WentDown(s, e)
  {
    var dfs := AfterDisconnect(s, LostBy(s, e), e.env);
    TearDownKeepsResults(s.results, StuckIn(e.order, dfs, e.env.now), dfs, dfs.Keys);
    TearDownKeepsArchive(s.archived, StuckIn(e.order, dfs, e.env.now), dfs);
  }

  /** The histories stay well-formed, and only dataflows that just went down enter
      the archive. */
  lemma HistoriesStayValid(s: State, e: Event)
    requires s.results.Valid() && s.archived.Valid()
    requires s.results.items.Keys <= s.slots.Keys && s.archived.items.Keys <= s.slots.Keys
    ensures ResultsAfter(s, e).Valid() && ResultsAfter(s, e).items.Keys <= s.slots.Keys
    ensures ArchivedAfter(s, e).Valid() && ArchivedAfter(s, e).items.Keys <= s.archived.items.Keys + WentDown(s, e)
  {
    match e
    case Finished(_, _, _, _, _) =>
      FinishKeepsResults(s, e);
      FinishKeepsArchive(s, e);
    case SpawnReport(_, _, _, _) => SpawnReportKeepsHistories(s, e);
    case Tick(_, _, _) => TickKeepsHistories(s, e);
    case _ =>
  }

  /** The dataflows this event completes or tears down. */
  ghost function WentDown(s: State, e: Event): (r: set<DataflowId>)
    ensures r <= s.slots.Keys
  {
    match e
    case Finished(u, d, _, _, _) => if Completes(At(s, u), d) then {u} else {}
    case SpawnReport(u, _, _, _) => if SpawnFailure(s, e) then {u} else {}
    case Tick(_, order, env) =>
      var dfs := AfterDisconnect(s, LostBy(s, e), env);
      set u | u in dfs && SpawnStuck(dfs[u], env.now)
    case _ => {}
  }

  /** An archived dataflow is never brought back while it is archived. */
  lemma {:induction false} ArchivedStaysDown(u: DataflowId, slot: Slot, d: DaemonId, entries: seq<StatusEntry>,
                                             connected: bool, now: Millis, readable: bool, durable: bool)
    requires slot.live.None?
    ensures ReconcileAll(u, slot, d, entries, true, connected, now, readable, durable).live.None?
    decreases |entries|
  {
    if entries != [] {
      var s1 := if entries[0].uuid == u
                then ReconcileSlot(slot, d, entries[0].nodes, true, connected, now, readable, durable) else slot;
      ArchivedStaysDown(u, s1, d, entries[1..], connected, now, readable, durable);
    }
  }

  lemma WentDownIsDown(s: State, e: Event, u: DataflowId)
    requires u in WentDown(s, e)
    ensures SlotStep(u, At(s, u), e, CtxOf(s, e, u)).live.None?
  {
    var x := CtxOf(s, e, u);
    match e
    case Tick(_, order, env) =>
      var s1 := DisconnectSlot(At(s, u), x.lost, env.now, Readable(env, u), Durable(env, u));
      FailSpawnShrinks(s1, s1.live.value, FailedResults(s1, x.results), env.now, Durable(env, u));
    case SpawnReport(_, d, ok, env) =>
      var df := At(s, u).live.value.(pendingSpawn := At(s, u).live.value.pendingSpawn - {d});
      FailSpawnShrinks(At(s, u), df, FailedResults(At(s, u), x.results), env.now, Durable(env, u));
    case _ =>
  }

  /** Whatever is in the archive after a step is not live. */
  lemma ArchiveIsDown(s: State, e: Event, u: DataflowId)
    requires Inv(s) && Enabled(s, e) && u in ArchivedAfter(s, e).items
    ensures At(Step(s, e), u).live.None?
  {
    StepIsPointwise(s, e, u);
    HistoriesStayValid(s, e);
    var x := CtxOf(s, e, u);
    if u in WentDown(s, e) {
      WentDownIsDown(s, e, u);
    } else if e.Report? {
      var env := e.env;
      ArchivedStaysDown(u, At(s, u), e.daemon, e.entries, x.connected, env.now, Readable(env, u), Durable(env, u));
    } else {
      CreatesFromEmpty(s, e, u);
      if AsksRestart(u, e, x) {
        RequestShrinks(At(s, u), e.caller, e.acks, None, e.env.now, Durable(e.env, u));
      } else {
        SlotShrinks(u, At(s, u), e, x);
      }
    }
  }

  lemma InvStep(s: State, e: Event)
    requires Inv(s) && Enabled(s, e)
    ensures Inv(Step(s, e))
  {
    var s' := Step(s, e);
    forall u | u in s'.slots ensures Sound(s'.slots[u]) {
      CreatesFromEmpty(s, e, u);
      SlotStaysSound(u, At(s, u), e, CtxOf(s, e, u));
    }
    ConnsKeepIdentity(s, e);
    HistoriesStayValid(s, e);
    forall u | u in s'.archived.items ensures At(s', u).live.None? {
      ArchiveIsDown(s, e, u);
    }
  }

  /** In every reachable state: pending restarts are live, no two registered daemons
      share a machine, and live and archived dataflows are disjoint. */
  lemma {:induction false} InvRun(states: seq<State>, events: seq<Event>, n: nat)
    requires IsRun(states, events) && Inv(states[0]) && n <= |events|
    ensures Inv(states[n])
  {
    if n > 0 {
      assert Steps(states, events, n - 1);
      InvRun(states, events, n - 1);
      InvStep(states[n - 1], events[n - 1]);
    }
  }

  // ----- superseded connections --------------------------------------------

  /** Slot equality for every id. */
  ghost predicate SameSlots(s: State, t: State) {
    forall u :: At(s, u) == At(t, u)
  }

  /** An exit or endpoint report from a connection that has been replaced, or from
      a daemon that is not registered, changes nothing. */
  lemma SupersededConnectionIsIgnored(s: State, e: Event)
    requires e.Exit? || e.Endpoint?
    requires !Current(s.conns, e.daemon, e.connection)
    ensures Step(s, e).conns == s.conns && SameSlots(Step(s, e), s)
    ensures Step(s, e).results == s.results && Step(s, e).archived == s.archived
  {
    forall u ensures At(Step(s, e), u) == At(s, u) {
      StepIsPointwise(s, e, u);
    }
  }

  // ----- members of a live dataflow are connected --------------------------

  ghost predicate MembersConnected(s: State) {
    forall u :: u in s.slots && s.slots[u].live.Some? ==> s.slots[u].live.value.daemons <= s.conns.Keys
  }

  /** Would a report of this dataflow make its sender a member? */
  predicate Adoptable(slot: Slot, archived: bool, readable: bool) {
    && !archived && readable && slot.record.Some?
    && slot.record.value.status in {Pending, Running, Recovering, Failed(false)}
    && (slot.live.Some? || slot.record.value.descriptor.resolves)
  }

  lemma {:induction false} ReconcileAllMembers(u: DataflowId, slot: Slot, d: DaemonId, entries: seq<StatusEntry>,
                                               archived: bool, connected: bool, now: Millis, readable: bool,
                                               durable: bool, h: DaemonId)
    ensures var slot' := ReconcileAll(u, slot, d, entries, archived, connected, now, readable, durable);
            Member(slot', h) <==>
            Member(slot, h) || (h == d && Reports(entries, u) && Adoptable(slot, archived, readable))
    decreases |entries|
  {
    if entries != [] {
      var s1 := if entries[0].uuid == u
                then ReconcileSlot(slot, d, entries[0].nodes, archived, connected, now, readable, durable)
                else slot;
      ReconcileAllMembers(u, s1, d, entries[1..], archived, connected, now, readable, durable, h);
      assert Reports(entries, u) <==> entries[0].uuid == u || Reports(entries[1..], u) by {
        if Reports(entries, u) && entries[0].uuid != u {
          var i :| 0 <= i < |entries| && entries[i].uuid == u;
          assert entries[1..][i - 1].uuid == u;
        }
      }
      if entries[0].uuid == u && Adoptable(slot, archived, readable) {
        assert Member(s1, d);
      }
    }
  }

  /** A report from an unregistered daemon about a dataflow it can claim. */
  ghost predicate ClaimedByStranger(s: State, e: Event) {
    && e.Report? && e.daemon !in s.conns
    && exists u :: u in s.slots && Reports(e.entries, u) && Adoptable(s.slots[u], u in s.archived.items, Readable(e.env, u))
  }

  lemma MemberAfterReport(s: State, e: Event, u: DataflowId, h: DaemonId)
    requires e.Report?
    ensures Member(At(Step(s, e), u), h) <==>
            || Member(At(s, u), h)
            || (h == e.daemon && Reports(e.entries, u) && Adoptable(At(s, u), u in s.archived.items, Readable(e.env, u)))
  {
    StepIsPointwise(s, e, u);
    var x := CtxOf(s, e, u);
    var env := e.env;
    ReconcileAllMembers(u, At(s, u), e.daemon, e.entries, x.archived, x.connected, env.now, Readable(env, u),
                        Durable(env, u), h);
  }

  lemma MemberAfterOther(s: State, e: Event, u: DataflowId, h: DaemonId)
    requires Inv(s) && Enabled(s, e) && !e.Report?
    requires Member(At(Step(s, e), u), h)
    ensures Member(At(s, u), h) || (h in s.conns && (e.StartReq? || e.Finished?))
    ensures h !in LostBy(s, e) && !e.Boot?
  {
    StepIsPointwise(s, e, u);
    CreatesFromEmpty(s, e, u);
    if Creates(u, e, CtxOf(s, e, u)) {
      MemberOfNew(s, e, u, h);
    } else {
      MemberAfterSlotStep(u, At(s, u), e, CtxOf(s, e, u), h);
    }
  }

  /** Outside status reports and starts nobody joins, and nobody who is lost stays. */
  lemma MemberAfterSlotStep(u: DataflowId, slot: Slot, e: Event, x: Ctx, h: DaemonId)
    requires Sound(slot) && !e.Report? && !Creates(u, e, x) && Member(SlotStep(u, slot, e, x), h)
    ensures Member(slot, h) && !e.Boot? && (e.Exit? || e.Tick? ==> h !in x.lost)
  {
    if AsksRestart(u, e, x) {
      RequestShrinks(slot, e.caller, e.acks, None, e.env.now, Durable(e.env, u));
    } else {
      SlotShrinks(u, slot, e, x);
      match e
      case Exit(_, _, env) => DisconnectShrinks(slot, x.lost, env.now, Readable(env, u), Durable(env, u));
      case Tick(_, _, env) => TickShrinks(u, slot, x, env);
      case _ =>
    }
  }

  lemma MemberOfNew(s: State, e: Event, u: DataflowId, h: DaemonId)
    requires Enabled(s, e) && Creates(u, e, CtxOf(s, e, u)) && Member(SlotStep(u, At(s, u), e, CtxOf(s, e, u)), h)
    ensures h in s.conns && (e.StartReq? || e.Finished?)
  {
  }

  /** The members of live dataflows stay connected daemons, except after exactly one
      kind of event: a status report from a daemon that is not registered, about a
      dataflow it can claim. */
  lemma MembersStayConnectedIff(s: State, e: Event)
    requires Inv(s) && MembersConnected(s) && Enabled(s, e)
    ensures MembersConnected(Step(s, e)) <==> !ClaimedByStranger(s, e)
  {
    if ClaimedByStranger(s, e) {
      StrangerJoins(s, e);
    } else {
      MembersStayConnected(s, e);
    }
  }

  lemma StrangerJoins(s: State, e: Event)
    requires Inv(s) && MembersConnected(s) && Enabled(s, e) && ClaimedByStranger(s, e)
    ensures !MembersConnected(Step(s, e))
  {
    var u :| u in s.slots && Reports(e.entries, u)
             && Adoptable(s.slots[u], u in s.archived.items, Readable(e.env, u));
    MemberAfterReport(s, e, u, e.daemon);
    assert Step(s, e).slots[u].live.Some? && e.daemon in Step(s, e).slots[u].live.value.daemons;
  }

  lemma MembersStayConnected(s: State, e: Event)
    requires Inv(s) && MembersConnected(s) && Enabled(s, e) && !ClaimedByStranger(s, e)
    ensures MembersConnected(Step(s, e))
  {
    var s' := Step(s, e);
    forall u, h | u in s'.slots && Member(s'.slots[u], h) ensures h in s'.conns {
      if e.Report? {
        MemberAfterReport(s, e, u, h);
      } else {
        MemberAfterOther(s, e, u, h);
      }
    }
  }

  /** While status reports come only from registered daemons, every member of every
      live dataflow is connected, in every reachable state. */
  lemma {:induction false} MembersConnectedRun(states: seq<State>, events: seq<Event>, n: nat)
    requires IsRun(states, events) && states[0] == INITIAL && n <= |events|
    requires forall i :: 0 <= i < |events| && events[i].Report? ==> events[i].daemon in states[i].conns
    ensures MembersConnected(states[n])
  {
    if n > 0 {
      assert Steps(states, events, n - 1);
      MembersConnectedRun(states, events, n - 1);
      InvRun(states, events, n - 1);
      MembersStayConnectedIff(states[n - 1], events[n - 1]);
    }
  }

  // ----- stranded dataflows ------------------------------------------------

  /** A live dataflow without daemons still has a spawn timeout to end it. */
  predicate Attended(slot: Slot) {
    slot.live.Some? && slot.live.value.daemons == {} ==> slot.live.value.spawn.SpawnPending?
  }

  /** A late spawn success for a dataflow all of whose daemons are gone. */
  predicate LateSuccess(slot: Slot, e: Event, u: DataflowId) {
    && e.SpawnReport? && e.uuid == u && e.ok && slot.live.Some?
    && slot.live.value.spawn.SpawnPending?
    && slot.live.value.daemons == {} && slot.live.value.pendingSpawn <= {e.daemon}
  }

  lemma {:induction false} ReconcileAllAttended(u: DataflowId, slot: Slot, d: DaemonId, entries: seq<StatusEntry>,
                                                archived: bool, connected: bool, now: Millis, readable: bool,
                                                durable: bool)
    requires Attended(slot)
    ensures Attended(ReconcileAll(u, slot, d, entries, archived, connected, now, readable, durable))
    decreases |entries|
  {
    if entries != [] {
      var s1 := if entries[0].uuid == u
                then ReconcileSlot(slot, d, entries[0].nodes, archived, connected, now, readable, durable)
                else slot;
      ReconcileAllAttended(u, s1, d, entries[1..], archived, connected, now, readable, durable);
    }
  }

  lemma DisconnectAttended(slot: Slot, lost: set<DaemonId>, now: Millis, readable: bool, durable: bool)
    requires Attended(slot) && Sound(slot)
    ensures Attended(DisconnectSlot(slot, lost, now, readable, durable))
  {
  }

  lemma TickAttended(u: DataflowId, slot: Slot, x: Ctx, env: Env)
    requires Attended(slot) && Sound(slot)
    ensures Attended(TickSlot(u, slot, x, env))
  {
    DisconnectAttended(slot, x.lost, env.now, Readable(env, u), Durable(env, u));
    var s1 := DisconnectSlot(slot, x.lost, env.now, Readable(env, u), Durable(env, u));
    if s1.live.Some? {
      FailSpawnShrinks(s1, s1.live.value, FailedResults(s1, x.results), env.now, Durable(env, u));
    }
  }

  lemma SpawnResultAttendedIff(u: DataflowId, slot: Slot, e: Event, x: Ctx)
    requires Attended(slot) && Sound(slot) && e.SpawnReport?
    ensures Attended(SlotStep(u, slot, e, x)) <==> !LateSuccess(slot, e, u)
  {
    if u == e.uuid && SpawnFails(slot, e.ok) {
      var df := slot.live.value.(pendingSpawn := slot.live.value.pendingSpawn - {e.daemon});
      FailSpawnShrinks(slot, df, FailedResults(slot, x.results), e.env.now, Durable(e.env, u));
    }
  }

  /** Every event keeps a live dataflow attended, except exactly the late success. */
  lemma StaysAttendedIff(u: DataflowId, slot: Slot, e: Event, x: Ctx)
    requires Attended(slot) && Sound(slot)
    ensures Attended(SlotStep(u, slot, e, x)) <==> !LateSuccess(slot, e, u)
  {
    match e
    case Report(d, entries, env) =>
      ReconcileAllAttended(u, slot, d, entries, x.archived, x.connected, env.now, Readable(env, u), Durable(env, u));
    case Exit(_, _, env) => DisconnectAttended(slot, x.lost, env.now, Readable(env, u), Durable(env, u));
    case Tick(_, _, env) => TickAttended(u, slot, x, env);
    case SpawnReport(_, _, _, _) => SpawnResultAttendedIff(u, slot, e, x);
    case _ =>
  }

  /** It happens to every dataflow on a single daemon whose heartbeats stop getting
      through: a tick drops the daemon, its socket still forwards what it sends, and the
      spawn report arrives before the spawn has timed out. */
  lemma LateSuccessStrands(states: seq<State>, events: seq<Event>, u: DataflowId, d: DaemonId)
    requires IsRun(states, events) && |events| == 3
    requires events[0].StartReq? && !NameTaken(states[0], events[0].name)
    requires events[0].started.Some? && events[0].started.value.uuid == u && events[0].started.value.daemons == {d}
    requires events[1].Tick? && d in LostBy(states[1], events[1])
    requires Elapsed(events[1].env.now, events[0].env.now) <= SPAWN_RESULT_TIMEOUT
    requires events[2].SpawnReport? && events[2].uuid == u && events[2].daemon == d && events[2].ok
    ensures At(states[2], u).live.Some? && Attended(At(states[2], u))
    ensures At(states[3], u).live.Some? && !Attended(At(states[3], u))
  {
    assert Steps(states, events, 0) && Steps(states, events, 1) && Steps(states, events, 2);
    StartsOn(states[0], events[0], u, d);
    LosesItsDaemon(states[1], events[1], u, d, events[0].env.now);
    SucceedsLate(states[2], events[2], u, d);
  }

  /** Spawning on the daemons `ds` and on no other. */
  predicate SpawningOn(slot: Slot, ds: set<DaemonId>, since: Millis) {
    && slot.live.Some? && slot.live.value.daemons == slot.live.value.pendingSpawn == ds
    && slot.live.value.spawn.SpawnPending? && slot.live.value.spawnStartedAt == since
    && (slot.record.Some? ==> slot.record.value.status == Pending)
  }

  lemma StartsOn(s: State, e: Event, u: DataflowId, d: DaemonId)
    requires Enabled(s, e) && e.StartReq? && !NameTaken(s, e.name)
    requires e.started.Some? && e.started.value.uuid == u && e.started.value.daemons == {d}
    ensures SpawningOn(At(Step(s, e), u), {d}, e.env.now)
    ensures Durable(e.env, u) ==> At(Step(s, e), u).record.Some?
  {
    StepIsPointwise(s, e, u);
    assert At(s, u) == EMPTY_SLOT;
  }

  lemma LosesItsDaemon(s: State, e: Event, u: DataflowId, d: DaemonId, since: Millis)
    requires SpawningOn(At(s, u), {d}, since) && e.Tick? && d in LostBy(s, e)
    requires Elapsed(e.env.now, since) <= SPAWN_RESULT_TIMEOUT
    ensures SpawningOn(At(Step(s, e), u), {}, since) && At(Step(s, e), u).record == At(s, u).record
  {
    StepIsPointwise(s, e, u);
    PrunedWhileSpawning(At(s, u), d, LostBy(s, e), since, e.env.now, Readable(e.env, u), Durable(e.env, u));
  }

  lemma PrunedWhileSpawning(slot: Slot, d: DaemonId, lost: set<DaemonId>, since: Millis, now: Millis, readable: bool,
                            durable: bool)
    requires SpawningOn(slot, {d}, since) && d in lost
    ensures SpawningOn(DisconnectSlot(slot, lost, now, readable, durable), {}, since)
    ensures DisconnectSlot(slot, lost, now, readable, durable).record == slot.record
  {
    assert {d} - lost == {};
    assert d in slot.live.value.daemons + slot.live.value.pendingDaemons + slot.live.value.pendingSpawn;
  }

  lemma SucceedsLate(s: State, e: Event, u: DataflowId, d: DaemonId)
    requires At(s, u).live.Some? && At(s, u).live.value.daemons == At(s, u).live.value.pendingSpawn == {}
    requires At(s, u).live.value.spawn.SpawnPending?
    requires e.SpawnReport? && e.uuid == u && e.daemon == d && e.ok
    ensures At(Step(s, e), u).live.Some? && !Attended(At(Step(s, e), u))
  {
    StepIsPointwise(s, e, u);
    assert At(s, u).live.value.pendingSpawn - {d} == {};
  }

  /** In every run in which no spawn success of `u` comes that late, `u` is attended. */
  lemma {:induction false} AttendedRun(states: seq<State>, events: seq<Event>, u: DataflowId, n: nat)
    requires IsRun(states, events) && states[0] == INITIAL && n <= |events|
    requires forall i :: 0 <= i < n ==> !LateSuccess(At(states[i], u), events[i], u)
    ensures Attended(At(states[n], u))
  {
    if n > 0 {
      assert Steps(states, events, n - 1);
      AttendedRun(states, events, u, n - 1);
      InvRun(states, events, n - 1);
      StepIsPointwise(states[n - 1], events[n - 1], u);
      StaysAttendedIff(u, At(states[n - 1], u), events[n - 1], CtxOf(states[n - 1], events[n - 1], u));
    }
  }

  /** A stranded dataflow outlives every tick that loses none of the daemons it still
      awaits: no watchdog ends it, and whoever waits for its stop keeps waiting. */
  lemma StrandedOutlivesTicks(u: DataflowId, slot: Slot, x: Ctx, env: Env)
    requires slot.live.Some? && !Attended(slot) && !slot.live.value.spawn.SpawnErr?
    requires (slot.live.value.pendingDaemons + slot.live.value.pendingSpawn) !! x.lost
    ensures TickSlot(u, slot, x, env).live == slot.live
  {
    assert !Affected(slot.live.value, x.lost);
  }

  // ----- a lost daemon that still reports ----------------------------------

  /** How a dataflow gets a member that is not connected, for every dataflow on one daemon:
      it starts, a tick drops the daemon while its socket still forwards, and the daemon
      reports it as running. */
  lemma LostDaemonRejoins(states: seq<State>, events: seq<Event>, u: DataflowId, d: DaemonId)
    requires IsRun(states, events) && Inv(states[0]) && |events| == 3
    requires events[0].StartReq? && !NameTaken(states[0], events[0].name) && Durable(events[0].env, u)
    requires events[0].started.Some? && events[0].started.value.uuid == u && events[0].started.value.daemons == {d}
    requires events[1].Tick? && d in LostBy(states[1], events[1])
    requires Elapsed(events[1].env.now, events[0].env.now) <= SPAWN_RESULT_TIMEOUT
    requires events[2].Report? && events[2].daemon == d && Reports(events[2].entries, u) && Readable(events[2].env, u)
    ensures d !in states[3].conns && Member(At(states[3], u), d) && !MembersConnected(states[3])
  {
    assert Steps(states, events, 0) && Steps(states, events, 1) && Steps(states, events, 2);
    StartsOn(states[0], events[0], u, d);
    LosesItsDaemon(states[1], events[1], u, d, events[0].env.now);
    LostLeaves(states[1], events[1], d);
    InvRun(states, events, 2);
    StrangerRejoins(states[2], events[2], u);
  }

  lemma LostLeaves(s: State, e: Event, d: DaemonId)
    requires d in LostBy(s, e)
    ensures d !in Step(s, e).conns
  {
  }

  lemma StrangerRejoins(s: State, e: Event, u: DataflowId)
    requires Inv(s) && e.Report? && e.daemon !in s.conns && Reports(e.entries, u) && Readable(e.env, u)
    requires At(s, u).live.Some? && At(s, u).record.Some? && At(s, u).record.value.status == Pending
    ensures e.daemon !in Step(s, e).conns && Member(At(Step(s, e), u), e.daemon) && !MembersConnected(Step(s, e))
  {
    MemberAfterReport(s, e, u, e.daemon);
  }
}
