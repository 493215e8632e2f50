/** What the handlers of the event loop do to the state, as values: the pieces that
    module CoordinatorLoop composes into whole steps. Pieces that would unfold to large
    terms are predicates stated under `Open`. */
module LoopSteps {
  import opened Common
  import opened CoordinatorTypes
  import opened DataflowSlot
  import opened Coordinator
  import opened CoordinatorInvariants
  import opened DisconnectConfluence
  import opened FinishAndClean

  /** What a disconnect asks its caller to do for a dataflow that had spawned. */
  datatype DisconnectAction = ReleaseReadyBarrier(uuid: DataflowId) | ReclaimOrphaned(uuid: DataflowId)

  /** A slot after the lost daemons were pruned, before any action is applied. */
  function Pruned(slot: Slot, lost: set<DaemonId>): Slot {
    if slot.live.None? || !Affected(slot.live.value, lost) then slot
    else CancelRestart(slot, DaemonLost).(live := Some(Prune(slot.live.value, lost)))
  }

  /** A slot after one action. */
  function Acted(slot: Slot, action: DisconnectAction, env: Env): Slot {
    if slot.live.None? then slot
    else
      var df := slot.live.value;
      if action.ReclaimOrphaned? then Reclaim(slot, df, env.now, Durable(env, action.uuid))
      else ReleaseBarrier(slot, df, env.now, Readable(env, action.uuid), Durable(env, action.uuid))
  }

  /** The actions that losing `lost` calls for: one reclaim per spawned dataflow left
      without daemons, one release per dataflow whose last awaited daemon went. */
  ghost predicate ActionsFor(actions: seq<DisconnectAction>, running: map<DataflowId, Dataflow>, lost: set<DaemonId>) {
    && (forall i, j :: 0 <= i < j < |actions| ==> actions[i].uuid != actions[j].uuid)
    && (forall u :: ReclaimOrphaned(u) in actions <==> u in running && Orphaned(running[u], lost))
    && (forall u :: ReleaseReadyBarrier(u) in actions <==> u in running && BarrierFreed(running[u], lost))
  }

  /** Removes every lost daemon from the three membership sets of one dataflow. */
  method PruneMembership(df: Dataflow, lost: set<DaemonId>) returns (df': Dataflow, affected: bool)
    ensures df' == Prune(df, lost) && affected == Affected(df, lost)
  {
    df', affected := df, false;
    var todo := lost;
    while todo != {}
      invariant todo <= lost
      invariant df' == Prune(df, lost - todo) && affected == Affected(df, lost - todo)
    {
      var d :| d in todo;
      affected := affected || d in df'.daemons || d in df'.pendingDaemons || d in df'.pendingSpawn;
      df' := df'.(daemons := df'.daemons - {d}, pendingDaemons := df'.pendingDaemons - {d},
                  pendingSpawn := df'.pendingSpawn - {d});
      assert lost - (todo - {d}) == (lost - todo) + {d};
      AffectedTwice(df, lost - todo, {d});
      todo := todo - {d};
    }
    assert lost - {} == lost;
  }

  /** The event concerns dataflow `v` and no other. */
  ghost predicate Concerns(s: State, e: Event, v: DataflowId) {
    || ((e.Ready? || e.SpawnReport?) && e.uuid == v)
    || TargetOf(s, e) == Some(v)
  }

  lemma OtherSlots(s: State, e: Event, v: DataflowId, u: DataflowId)
    requires Concerns(s, e, v) && u != v
    ensures SlotStep(u, At(s, u), e, CtxOf(s, e, u)) == At(s, u)
  {
  }

  lemma OtherFields(s: State, e: Event, v: DataflowId)
    requires Concerns(s, e, v)
    ensures ConnsAfter(s, e) == s.conns && RejectedBy(s, e) == [] && Touched(s, e) == {v}
  {
  }

  /** The share of a step that is not in any slot. */
  ghost predicate Rest(s: State, e: Event, conns: map<DaemonId, Connection>, h: Histories, rejected: seq<Caller>,
                       known: set<DataflowId>)
  {
    forall z {:trigger Open(z)} :: Open(z) && z == 0 ==>
      && conns == ConnsAfter(s, e)
      && h == Histories(ResultsAfter(s, e), ArchivedAfter(s, e))
      && rejected == s.rejected + RejectedBy(s, e)
      && known == s.slots.Keys + Touched(s, e)
  }

  /** A slot's share of a step. */
  ghost predicate Moves(s: State, e: Event, u: DataflowId, after: Slot) {
    forall z {:trigger Open(z)} :: Open(z) && z == 0 ==> after == SlotStep(u, At(s, u), e, CtxOf(s, e, u))
  }

  ghost function EntryIds(entries: seq<StatusEntry>): set<DataflowId> {
    set i | 0 <= i < |entries| :: entries[i].uuid
  }

  lemma ExitMoves(s: State, d: DaemonId, connection: nat, env: Env, u: DataflowId)
    ensures Moves(s, Exit(d, connection, env), u,
                  DisconnectSlot(At(s, u), if Current(s.conns, d, connection) then {d} else {}, env.now,
                                 Readable(env, u), Durable(env, u)))
  {
  }

  /** What a tick makes of one slot. */
  ghost predicate TickShare(u: DataflowId, slot: Slot, results: Option<Results>, lost: set<DaemonId>, env: Env,
                            after: Slot)
  {
    forall z {:trigger Open(z)} :: Open(z) && z == 0 ==>
      var mid := DisconnectSlot(slot, lost, env.now, Readable(env, u), Durable(env, u));
      after == RecoveryTimeoutSlot(SpawnTimeoutSlot(mid, FailedResults(mid, results), env.now, Durable(env, u)),
                                   env.now, env.listable && Durable(env, u))
  }

  lemma TickMoves(s: State, sends: map<DaemonId, SendOutcome>, order: seq<DataflowId>, env: Env, u: DataflowId,
                  after: Slot)
    requires TickShare(u, At(s, u), Lookup(s.results.items, u), TickLost(s.conns, sends, env.now), env, after)
    ensures Moves(s, Tick(sends, order, env), u, after)
  {
    assert Open(0);
  }

  lemma TickRest(s: State, sends: map<DaemonId, SendOutcome>, order: seq<DataflowId>, env: Env, h: Histories)
    requires var dfs := AfterDisconnect(s, TickLost(s.conns, sends, env.now), env);
             DueTo(HistoriesOf(s), StuckIn(order, dfs, env.now), dfs, dfs.Keys, h)
    ensures Rest(s, Tick(sends, order, env), TickConns(s.conns, sends, env.now), h, s.rejected, s.slots.Keys)
  {
    assert Open(0);
    assert s.rejected + [] == s.rejected;
  }

  /** Does this finish carry out a deferred restart? */
  predicate Launches(slot: Slot, d: DaemonId, started: Option<Placement>) {
    Completes(slot, d) && slot.restart.Some? && started.Some?
  }

  function FinishLive(live: set<DataflowId>, slot: Slot, u: DataflowId, d: DaemonId, started: Option<Placement>)
    : set<DataflowId>
  {
    live - (if Completes(slot, d) then {u} else {}) + (if Launches(slot, d, started) then {started.value.uuid} else {})
  }

  function FinishArchive(archived: IndexMap<DataflowId, Option<string>>, slot: Slot, u: DataflowId, d: DaemonId)
    : IndexMap<DataflowId, Option<string>>
  {
    if Completes(slot, d) then Archive(archived, u, slot.live.value.name) else archived
  }

  function WithoutDaemon(slot: Slot, d: DaemonId): Slot {
    if slot.live.None? then slot
    else slot.(live := Some(slot.live.value.(daemons := slot.live.value.daemons - {d})))
  }

  /** Finishing once the last daemon was removed is finishing on that daemon. */
  lemma FinishShareLast(v: DataflowId, slot: Slot, mid: Slot, u: DataflowId, finishing: Slot, d: DaemonId,
                        collected: Results, started: Option<Placement>, env: Env, after: Slot)
    requires Completes(finishing, d) && (v != u ==> mid == slot)
    requires FinishShare(v, mid, u, WithoutDaemon(finishing, d), DaemonId(None, 0), collected, started, env, after)
    ensures FinishShare(v, slot, u, finishing, d, collected, started, env, after)
  {
    assert Open(0);
    var df := finishing.live.value.(daemons := finishing.live.value.daemons - {d});
    assert df.(daemons := df.daemons - {DaemonId(None, 0)}) == df;
  }

  lemma FinishedRest(s: State, u: DataflowId, d: DaemonId, result: DaemonResult, started: Option<Placement>, env: Env,
                     h: Histories, live: set<DataflowId>)
    requires live == FinishLive(LiveIds(s), At(s, u), u, d, started)
    requires h.results == FinishedResults(s, u, d, result).DropOldestExcept(MAX_DATAFLOW_RESULTS, live)
    requires h.archived == FinishArchive(s.archived, At(s, u), u, d)
    ensures Rest(s, Finished(u, d, result, started, env), s.conns, h, s.rejected,
                 s.slots.Keys + ReplacementOf(s, Finished(u, d, result, started, env)))
  {
  }

  /** What a finish of `u` makes of the slot of `v`. */
  ghost predicate FinishShare(v: DataflowId, slot: Slot, u: DataflowId, finishing: Slot, d: DaemonId, collected: Results,
                              started: Option<Placement>, env: Env, after: Slot)
  {
    forall z {:trigger Open(z)} :: Open(z) && z == 0 ==>
      after ==
        if v == u then FinishSlot(finishing, d, collected, started, env.now, Durable(env, u))
        else if Launches(finishing, d, started) && v == started.value.uuid then
          var r := finishing.restart.value;
          StartSlot(slot, started.value, r.name, r.descriptor, r.uv, env.now, Durable(env, v))
        else slot
  }

  lemma FinishedMoves(s: State, u: DataflowId, d: DaemonId, result: DaemonResult, started: Option<Placement>, env: Env,
                      v: DataflowId, collected: Results, after: Slot)
    requires FinishShare(v, At(s, v), u, At(s, u), d, collected, started, env, after)
    requires At(s, u).live.Some? ==> collected == KnownResults(Lookup(s.results.items, u))[d := result]
    ensures Moves(s, Finished(u, d, result, started, env), v, after)
  {
    assert Open(0);
  }

  lemma ReportRest(s: State, e: Event)
    requires e.Report?
    ensures Rest(s, e, s.conns, HistoriesOf(s), s.rejected, s.slots.Keys + EntryIds(e.entries))
  {
  }

  lemma ReportMoves(s: State, d: DaemonId, entries: seq<StatusEntry>, env: Env, u: DataflowId, mid: Slot, after: Slot)
    requires Reconciled(u, At(s, u), d, entries, u in s.archived.items, d in s.conns, env, mid)
    requires after == AutoRecoverSlot(mid, d, Reports(entries, u), d in s.conns, env.now)
    ensures Moves(s, Report(d, entries, env), u, after)
  {
    assert Open(0);
  }

  /** What an event that concerns only `v` makes of its slot and of the histories. */
  ghost predicate Effect(s: State, e: Event, v: DataflowId, after: Slot, next: Histories) {
    forall z {:trigger Open(z)} :: Open(z) && z == 0 ==>
      && Concerns(s, e, v)
      && after == SlotStep(v, At(s, v), e, CtxOf(s, e, v))
      && next == Histories(ResultsAfter(s, e), ArchivedAfter(s, e))
  }

  function HistoriesOf(s: State): Histories {
    Histories(s.results, s.archived)
  }

  lemma EffectRest(s: State, e: Event, v: DataflowId, after: Slot, h: Histories)
    requires Effect(s, e, v, after, h)
    ensures Rest(s, e, s.conns, h, s.rejected, s.slots.Keys + {v})
  {
    EffectConcerns(s, e, v, after, h);
    OtherFields(s, e, v);
    assert s.rejected + [] == s.rejected;
  }

  lemma EffectConcerns(s: State, e: Event, v: DataflowId, after: Slot, h: Histories)
    requires Effect(s, e, v, after, h)
    ensures Concerns(s, e, v) && h == Histories(ResultsAfter(s, e), ArchivedAfter(s, e))
  {
    assert Open(0);
  }

  lemma EffectMoves(s: State, e: Event, v: DataflowId, after: Slot, h: Histories, u: DataflowId, slot: Slot)
    requires Effect(s, e, v, after, h) && slot == if u == v then after else At(s, u)
    ensures Moves(s, e, u, slot)
  {
    assert Open(0);
    if u != v {
      OtherSlots(s, e, v, u);
    }
  }

  /** Events that reach no dataflow leave every slot alone. */
  lemma IdleMoves(s: State, e: Event, u: DataflowId)
    requires || e.Register? || e.Heartbeat? || e.Endpoint?
             || ((e.StopByName? || e.RestartByName? || e.StartReq?) && Targets(s, e, None))
    ensures Moves(s, e, u, At(s, u))
  {
    assert Open(0);
  }

  lemma RefusalRest(s: State, e: Event)
    requires (e.StopByName? || e.RestartByName? || e.StartReq?) && Targets(s, e, None)
    ensures Rest(s, e, s.conns, HistoriesOf(s), s.rejected + [e.caller], s.slots.Keys)
  {
    assert Open(0);
  }

  lemma ReadyEffect(s: State, u: DataflowId, d: DaemonId, exited: seq<NodeId>, env: Env)
    ensures Effect(s, Ready(u, d, exited, env), u,
                   ReadySlot(At(s, u), d, exited, env.now, Readable(env, u), Durable(env, u)), HistoriesOf(s))
  {
  }

  lemma SpawnReportEffect(s: State, u: DataflowId, d: DaemonId, ok: bool, env: Env)
    ensures Effect(s, SpawnReport(u, d, ok, env), u,
                   SpawnResultSlot(At(s, u), d, ok, u in s.archived.items,
                                   FailedResults(At(s, u), Lookup(s.results.items, u)), env.now, Durable(env, u)),
                   if SpawnFails(At(s, u), ok)
                   then Histories(RecordFailure(s.results, u, At(s, u).live.value, LiveIds(s)),
                                  Archive(s.archived, u, At(s, u).live.value.name))
                   else HistoriesOf(s))
  {
  }

  /** The dataflow a control request resolves to. */
  ghost predicate Targets(s: State, e: Event, t: Option<DataflowId>) {
    forall z {:trigger Open(z)} :: Open(z) && z == 0 ==> TargetOf(s, e) == t
  }

  lemma StopEffect(s: State, e: Event, u: DataflowId)
    requires (e.StopReq? || e.StopByName?) && Targets(s, e, Some(u))
    ensures Effect(s, e, u, StopSlot(At(s, u), e.caller, e.acks, Lookup(s.results.items, u), e.env.now, Durable(e.env, u)),
                   HistoriesOf(s))
  {
    assert Open(0);
  }

  lemma RestartEffect(s: State, e: Event, u: DataflowId)
    requires (e.RestartReq? || e.RestartByName?) && Targets(s, e, Some(u))
    ensures Effect(s, e, u, RestartSlot(At(s, u), e.caller, e.acks, e.env.now, Durable(e.env, u)), HistoriesOf(s))
  {
    assert Open(0);
  }

  lemma StartEffect(s: State, e: Event)
    requires e.StartReq? && e.started.Some? && Targets(s, e, Some(e.started.value.uuid))
    ensures var p := e.started.value;
            Effect(s, e, p.uuid,
                   Emit(StartSlot(At(s, p.uuid), p, e.name, e.descriptor, e.uv, e.env.now, Durable(e.env, p.uuid)),
                        [Answered(e.caller, StartTriggered)]),
                   HistoriesOf(s))
  {
    assert Open(0);
  }

  /** The store once every record outside `todo` went through startup recovery. */
  function Rebooted(store: map<DataflowId, Record>, todo: set<DataflowId>, env: Env): map<DataflowId, Record> {
    map u | u in store ::
      var booted := BootSlot(EMPTY_SLOT.(record := Some(store[u])), env.now, true, Durable(env, u)).record.value;
      if u in todo then store[u] else booted
  }

  lemma BootMoves(s: State, env: Env, u: DataflowId)
    ensures Moves(s, Boot(env), u, BootSlot(At(s, u), env.now, env.listable, Durable(env, u)))
  {
  }

  lemma BootRest(s: State, env: Env)
    ensures Rest(s, Boot(env), map[], Histories(IndexMap([], map[]), IndexMap([], map[])), s.rejected, s.slots.Keys)
  {
  }

  lemma WaitForSpawnEffect(s: State, u: DataflowId, caller: Caller)
    ensures Effect(s, WaitForSpawn(u, caller), u, WaitForSpawnSlot(At(s, u), caller), HistoriesOf(s))
  {
  }

  /** The store once every record outside `todo` was checked for a stale recovery. */
  function Swept(store: map<DataflowId, Record>, todo: set<DataflowId>, env: Env): map<DataflowId, Record> {
    map u | u in store ::
      var swept := RecoveryTimeoutSlot(EMPTY_SLOT.(record := Some(store[u])), env.now, Durable(env, u)).record.value;
      if u in todo then store[u] else swept
  }

  lemma Advances(s: State, e: Event, s': State)
    requires Inv(s) && Enabled(s, e) && Next(s, e, s')
    ensures Inv(s') && s' == Step(s, e)
  {
    assert Open(0);
    InvStep(s, e);
  }

  method NodesSucceeded(r: DaemonResult) returns (ok: bool)
    ensures ok <==> forall n :: n in r ==> r[n]
    ensures ok == AllOk(r)
  {
    var todo := r.Keys;
    while todo != {}
      invariant todo <= r.Keys && forall n :: n in r.Keys - todo ==> r[n]
    {
      var n :| n in todo;
      if !r[n] {
        return false;
      }
      todo := todo - {n};
    }
    return true;
  }

  method AllSucceeded(results: Results) returns (ok: bool)
    ensures ok <==> forall d, n :: d in results && n in results[d] ==> results[d][n]
    ensures ok == EveryDaemonOk(results)
  {
    var todo := results.Keys;
    while todo != {}
      invariant todo <= results.Keys && forall d :: d in results.Keys - todo ==> AllOk(results[d])
    {
      var d :| d in todo;
      var fine := NodesSucceeded(results[d]);
      if !fine {
        return false;
      }
      todo := todo - {d};
    }
    return true;
  }

  lemma CleanSets(s: State, env: Env, cleaned: seq<DataflowId>, failed: seq<DataflowId>)
    requires forall u :: u in cleaned <==> env.listable && Cleanable(At(s, u), u in s.results.items) && Durable(env, u)
    requires forall u :: u in failed <==> env.listable && Cleanable(At(s, u), u in s.results.items) && !Durable(env, u)
    ensures IdSet(cleaned) == if env.listable then CleanedBy(s, env) else {}
    ensures IdSet(failed) == if env.listable then Candidates(s) * env.lostWrites else {}
  {
  }

  lemma CleanRest(s: State, env: Env)
    ensures Rest(s, Clean(env), s.conns,
                 if env.listable
                 then Histories(RemoveCleaned(s.results, CleanedBy(s, env)), RemoveCleaned(s.archived, CleanedBy(s, env)))
                 else HistoriesOf(s),
                 s.rejected, s.slots.Keys)
  {
  }

  lemma CleanMoves(s: State, env: Env, u: DataflowId)
    ensures Moves(s, Clean(env), u, CleanSlot(At(s, u), u in s.results.items, env.listable && Durable(env, u)))
  {
  }

  /** The store and the histories once the dataflows of `gone` are purged. */
  ghost predicate Purged(store: map<DataflowId, Record>, h: Histories, gone: set<DataflowId>,
                         store': map<DataflowId, Record>, h': Histories)
  {
    forall z {:trigger Open(z)} :: Open(z) && z == 0 ==>
      && store' == store - gone
      && h' == Histories(RemoveCleaned(h.results, gone), RemoveCleaned(h.archived, gone))
  }

  lemma PurgedNone(store: map<DataflowId, Record>, h: Histories)
    ensures Purged(store, h, IdSet([]), store, h)
  {
    RemoveNone(h.results);
    RemoveNone(h.archived);
    assert store - IdSet([]) == store;
  }

  lemma PurgedOneMore(store: map<DataflowId, Record>, h: Histories, gone: seq<DataflowId>, u: DataflowId,
                      store': map<DataflowId, Record>, h': Histories)
    requires Purged(store, h, IdSet(gone), store', h')
    ensures Purged(store, h, IdSet(gone + [u]), store' - {u}, Histories(h'.results.Remove(u), h'.archived.Remove(u)))
  {
    assert Open(0);
    RemoveOneMore(h.results, IdSet(gone), u);
    RemoveOneMore(h.archived, IdSet(gone), u);
    assert IdSet(gone + [u]) == IdSet(gone) + {u};
    assert store - IdSet(gone) - {u} == store - (IdSet(gone) + {u});
  }

  function IdSet(ids: seq<DataflowId>): set<DataflowId> {
    set u | u in ids
  }

  lemma {:induction false} FilterOutNone(s: seq<DataflowId>)
    ensures FilterOut(s, {}) == s
  {
    if s != [] {
      FilterOutNone(s[1..]);
    }
  }

  lemma RemoveNone<V>(m: IndexMap<DataflowId, V>)
    ensures RemoveCleaned(m, IdSet([])) == m
  {
    FilterOutNone(m.keys);
    assert IdSet([]) == {};
  }

  lemma {:induction false} FilterOutOneMore(s: seq<DataflowId>, gone: set<DataflowId>, u: DataflowId)
    ensures FilterOut(s, gone + {u}) == Without(FilterOut(s, gone), u)
  {
    if s != [] {
      FilterOutOneMore(s[1..], gone, u);
      var rest := FilterOut(s[1..], gone);
      if s[0] !in gone {
        assert FilterOut(s, gone)[1..] == rest;
      } else {
        assert FilterOut(s, gone) == rest;
      }
    }
  }

  lemma RemoveOneMore<V>(m: IndexMap<DataflowId, V>, gone: set<DataflowId>, u: DataflowId)
    ensures RemoveCleaned(m, gone).Remove(u) == RemoveCleaned(m, gone + {u})
  {
    FilterOutOneMore(m.keys, gone, u);
    assert m.items - gone - {u} == m.items - (gone + {u});
  }

  /** A slot after the given entries of a report were reconciled. */
  ghost predicate Reconciled(u: DataflowId, before: Slot, d: DaemonId, entries: seq<StatusEntry>, archived: bool,
                             connected: bool, env: Env, after: Slot)
  {
    forall z {:trigger Open(z)} :: Open(z) && z == 0 ==>
      after == ReconcileAll(u, before, d, entries, archived, connected, env.now, Readable(env, u), Durable(env, u))
  }

  function ReconcileOne(u: DataflowId, slot: Slot, d: DaemonId, entry: StatusEntry, archived: bool, connected: bool,
                        env: Env): Slot
  {
    if entry.uuid == u
    then ReconcileSlot(slot, d, entry.nodes, archived, connected, env.now, Readable(env, u), Durable(env, u))
    else slot
  }

  /** Reconciling the entries front to back is the same as one more at the end. */
  lemma {:induction false} ReconcileLast(u: DataflowId, slot: Slot, d: DaemonId, entries: seq<StatusEntry>,
                                         archived: bool, connected: bool, env: Env)
    requires entries != []
    ensures ReconcileAll(u, slot, d, entries, archived, connected, env.now, Readable(env, u), Durable(env, u))
         == ReconcileOne(u, ReconcileAll(u, slot, d, entries[..|entries| - 1], archived, connected, env.now,
                                         Readable(env, u), Durable(env, u)),
                         d, entries[|entries| - 1], archived, connected, env)
    decreases |entries|
  {
    var n := |entries| - 1;
    if n > 0 {
      ReconcileLast(u, ReconcileOne(u, slot, d, entries[0], archived, connected, env), d, entries[1..], archived, connected, env);
      assert entries[..n][1..] == entries[1..][..n - 1];
      assert entries[..n][0] == entries[0];
    }
  }

  lemma ReconciledNext(u: DataflowId, before: Slot, d: DaemonId, entries: seq<StatusEntry>, i: nat, archived: bool,
                       connected: bool, env: Env, mid: Slot, after: Slot)
    requires i < |entries| && Reconciled(u, before, d, entries[..i], archived, connected, env, mid)
    requires after == ReconcileOne(u, mid, d, entries[i], archived, connected, env)
    ensures Reconciled(u, before, d, entries[..i + 1], archived, connected, env, after)
  {
    assert Open(0);
    ReconcileLast(u, before, d, entries[..i + 1], archived, connected, env);
    assert entries[..i + 1][..i] == entries[..i];
  }

  datatype Histories = Histories(results: IndexMap<DataflowId, Results>, archived: IndexMap<DataflowId, Option<string>>)

  function TearDownBoth(h: Histories, order: seq<DataflowId>, dfs: map<DataflowId, Dataflow>, live: set<DataflowId>)
    : Histories
  {
    Histories(TearDownResults(h.results, order, dfs, live), TearDownArchive(h.archived, order, dfs))
  }

  /** A slot whose spawn was given up, behind `Open` like the histories below. */
  ghost predicate GaveUp(u: DataflowId, before: Slot, known: Option<Results>, env: Env, after: Slot) {
    forall z {:trigger Open(z)} :: Open(z) && z == 0 ==>
      && before.live.Some?
      && after == FailSpawn(before, before.live.value, FailedResults(before, known), env.now, Durable(env, u))
  }

  /** Seeing the dataflows of `order` torn down takes the histories from `h` to `end`.
      The definition only comes into play where `Open` is mentioned. */
  ghost predicate DueTo(h: Histories, order: seq<DataflowId>, dfs: map<DataflowId, Dataflow>, live: set<DataflowId>,
                        end: Histories)
  {
    forall z {:trigger Open(z)} :: Open(z) && z == 0 ==> TearDownBoth(h, order, dfs, live) == end
  }

  /** The live dataflows still have the results they had at the start. */
  ghost predicate SameResults(start: IndexMap<DataflowId, Results>, now: IndexMap<DataflowId, Results>,
                              live: set<DataflowId>)
  {
    forall z {:trigger Open(z)} :: Open(z) && z == 0 ==> forall u :: u in live ==> Lookup(now.items, u) == Lookup(start.items, u)
  }

  lemma SameResultsNext(start: IndexMap<DataflowId, Results>, now: IndexMap<DataflowId, Results>, u: DataflowId,
                        df: Dataflow, live: set<DataflowId>)
    requires SameResults(start, now, live)
    ensures u in live ==> Lookup(now.items, u) == Lookup(start.items, u)
    ensures SameResults(start, RecordFailure(now, u, df, live), live - {u})
  {
    assert Open(0);
    now.Put(u, KnownResults(Lookup(now.items, u)) + SyntheticResults(df))
    .DropOldestExceptKeeps(MAX_DATAFLOW_RESULTS, live - {u});
  }

  lemma TornDown(h: Histories, order: seq<DataflowId>, dfs: map<DataflowId, Dataflow>, live: set<DataflowId>)
    returns (end: Histories)
    ensures DueTo(h, order, dfs, live, end)
  {
    end := TearDownBoth(h, order, dfs, live);
  }

  lemma NothingDue(h: Histories, dfs: map<DataflowId, Dataflow>, live: set<DataflowId>, end: Histories)
    requires DueTo(h, [], dfs, live, end)
    ensures h == end
  {
    assert Open(0);
  }

  /** One round of the watchdog, seen by the histories. */
  lemma TearDownOne(h: Histories, stuck: seq<DataflowId>, i: nat, dfs: map<DataflowId, Dataflow>,
                    live: set<DataflowId>, end: Histories)
    returns (next: Histories)
    requires i < |stuck| && stuck[i] in dfs && DueTo(h, stuck[i..], dfs, live, end)
    ensures next.results == RecordFailure(h.results, stuck[i], dfs[stuck[i]], live)
    ensures next.archived == Archive(h.archived, stuck[i], dfs[stuck[i]].name)
    ensures DueTo(next, stuck[i + 1..], dfs, live - {stuck[i]}, end)
  {
    next := Histories(RecordFailure(h.results, stuck[i], dfs[stuck[i]], live),
                      Archive(h.archived, stuck[i], dfs[stuck[i]].name));
    assert Open(0);
    assert stuck[i..][1..] == stuck[i + 1..];
  }

  lemma SameSynthetic(df: Dataflow, df': Dataflow)
    requires df.nodeToDaemon == df'.nodeToDaemon
    ensures SyntheticResults(df) == SyntheticResults(df')
  {
  }

  lemma {:induction false} StuckDistinct(order: seq<DataflowId>, dfs: map<DataflowId, Dataflow>, now: Millis)
    requires Distinct(order)
    ensures Distinct(StuckIn(order, dfs, now))
  {
    if order != [] {
      StuckDistinct(order[1..], dfs, now);
      assert order[0] !in order[1..];
    }
  }

  function Restrict(m: map<DataflowId, Dataflow>, without: set<DataflowId>): map<DataflowId, Dataflow> {
    map u | u in m && u !in without :: m[u]
  }

  lemma ActionsGrow(actions: seq<DisconnectAction>, next: seq<DisconnectAction>, before: map<DataflowId, Dataflow>,
                    todo: set<DataflowId>, lost: set<DaemonId>, u: DataflowId)
    requires u in todo && todo <= before.Keys && ActionsFor(actions, Restrict(before, todo), lost)
    requires next == (if Orphaned(before[u], lost) then [ReclaimOrphaned(u)]
                      else if BarrierFreed(before[u], lost) then [ReleaseReadyBarrier(u)] else [])
    ensures ActionsFor(actions + next, Restrict(before, todo - {u}), lost)
  {
    forall i | 0 <= i < |actions|
      ensures actions[i].uuid != u
    {
      assert actions[i] in actions;
      match actions[i]
      case ReclaimOrphaned(v) => assert v in Restrict(before, todo);
      case ReleaseReadyBarrier(v) => assert v in Restrict(before, todo);
    }
    assert forall v :: v != u ==> (v in Restrict(before, todo - {u}) <==> v in Restrict(before, todo));
  }
}
