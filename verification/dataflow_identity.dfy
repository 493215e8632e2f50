/** What a dataflow is called and what it runs: fixed when it starts, through losses, reports,
    process restarts and deferred restarts; and which names are taken. */
module DataflowIdentity {
  import opened Common
  import opened CoordinatorTypes
  import opened DataflowSlot
  import opened Coordinator
  import opened CoordinatorInvariants
  import opened ReadyBarrier

  // ----- one event ---------------------------------------------------------

  datatype Identity = Identity(name: Option<string>, descriptor: Descriptor, uv: bool)

  /** What a dataflow is, and when it was created. */
  datatype Origin = Origin(what: Identity, since: Millis)

  function OfLive(df: Dataflow): Identity {
    Identity(df.name, df.descriptor, df.uv)
  }

  function OfRecord(r: Record): Identity {
    Identity(r.name, r.descriptor, r.uv)
  }

  function OfRestart(r: Restart): Identity {
    Identity(r.name, r.descriptor, r.uv)
  }

  /** The live entry, the record and the pending restart are all of the given origin. */
  predicate AllOf(slot: Slot, i: Origin) {
    && (slot.live.Some? ==> Origin(OfLive(slot.live.value), slot.live.value.createdAt) == i)
    && (slot.record.Some? ==> Origin(OfRecord(slot.record.value), slot.record.value.createdAt) == i)
    && (slot.restart.Some? ==> OfRestart(slot.restart.value) == i.what)
  }

  /** While the entry lives, its spawn keeps its start time. */
  predicate SameBirth(slot: Slot, slot': Slot) {
    slot.live.Some? && slot'.live.Some? ==>
      slot'.live.value.spawnStartedAt == slot.live.value.spawnStartedAt
  }

  /** The origin and the start time are kept. */
  ghost predicate Kept(slot: Slot, slot': Slot, i: Origin) {
    forall z {:trigger Open(z)} :: Open(z) && z == 0 ==> AllOf(slot', i) && SameBirth(slot, slot')
  }

  lemma KeptSame(slot: Slot, i: Origin)
    requires AllOf(slot, i)
    ensures Kept(slot, slot, i)
  {
  }

  lemma KeptTwice(a: Slot, b: Slot, c: Slot, i: Origin)
    requires Kept(a, b, i) && Kept(b, c, i) && (a.live.Some? && c.live.Some? ==> b.live.Some?)
    ensures Kept(a, c, i)
  {
    assert Open(0);
  }

  /** Only messages, the restart (for none) or nothing changed. */
  lemma KeptQuietly(slot: Slot, slot': Slot, i: Origin)
    requires AllOf(slot, i) && slot'.live == slot.live && slot'.record == slot.record
    requires slot'.restart == slot.restart || slot'.restart.None?
    ensures Kept(slot, slot', i)
  {
  }

  /** The entry was updated, and perhaps persisted or dropped. */
  lemma KeptUpdate(slot: Slot, slot': Slot, df: Dataflow, status: Status, now: Millis, i: Origin)
    requires AllOf(slot, i) && slot.live.Some? && OfLive(df) == i.what
    requires df.spawnStartedAt == slot.live.value.spawnStartedAt && df.createdAt == slot.live.value.createdAt
    requires slot'.live.None? || slot'.live == Some(df)
    requires slot'.record == slot.record || slot'.record == Some(MakeRecord(df, status, now))
    requires slot'.restart == slot.restart || slot'.restart.None?
             || (slot'.restart.Some? && OfRestart(slot'.restart.value) == i.what)
    ensures Kept(slot, slot', i)
  {
  }

  lemma DisconnectKeeps(slot: Slot, lost: set<DaemonId>, now: Millis, readable: bool, durable: bool, i: Origin)
    requires AllOf(slot, i)
    ensures Kept(slot, DisconnectSlot(slot, lost, now, readable, durable), i)
  {
    var slot' := DisconnectSlot(slot, lost, now, readable, durable);
    if slot.live.None? || !Affected(slot.live.value, lost) {
      KeptSame(slot, i);
    } else {
      var df := Prune(slot.live.value, lost);
      var next := df.(generation := df.generation + 1);
      if Orphaned(slot.live.value, lost) {
        KeptUpdate(slot, slot', next, Recovering, now, i);
      } else if BarrierFreed(slot.live.value, lost) {
        var freed := next.(barrierReleased := true);
        KeptUpdate(slot, slot', freed, BarrierStatus(slot, freed, readable), now, i);
      } else {
        KeptUpdate(slot, slot', df, Pending, now, i);
      }
    }
  }

  lemma FailKeeps(slot: Slot, df: Dataflow, results: Results, now: Millis, durable: bool, i: Origin)
    requires AllOf(slot, i) && slot.live.Some? && OfLive(df) == i.what
    requires df.spawnStartedAt == slot.live.value.spawnStartedAt && df.createdAt == slot.live.value.createdAt
    ensures Kept(slot, FailSpawn(slot, df, results, now, durable), i)
  {
    FailSpawnShrinks(slot, df, results, now, durable);
    KeptUpdate(slot, FailSpawn(slot, df, results, now, durable), df.(generation := df.generation + 1), Failed(true), now, i);
  }

  lemma WatchdogKeeps(slot: Slot, results: Results, now: Millis, durable: bool, i: Origin)
    requires AllOf(slot, i)
    ensures Kept(slot, SpawnTimeoutSlot(slot, results, now, durable), i)
  {
    if slot.live.Some? && SpawnStuck(slot.live.value, now) {
      FailKeeps(slot, slot.live.value, results, now, durable, i);
    } else {
      KeptSame(slot, i);
    }
  }

  lemma SweepKeeps(slot: Slot, now: Millis, durable: bool, i: Origin)
    requires AllOf(slot, i)
    ensures Kept(slot, RecoveryTimeoutSlot(slot, now, durable), i) && RecoveryTimeoutSlot(slot, now, durable).live == slot.live
  {
  }

  lemma TickKeeps(u: DataflowId, slot: Slot, x: Ctx, env: Env, i: Origin)
    requires AllOf(slot, i)
    ensures Kept(slot, TickSlot(u, slot, x, env), i)
  {
    var s1 := DisconnectSlot(slot, x.lost, env.now, Readable(env, u), Durable(env, u));
    var s2 := SpawnTimeoutSlot(s1, FailedResults(s1, x.results), env.now, Durable(env, u));
    assert Open(0);
    DisconnectKeeps(slot, x.lost, env.now, Readable(env, u), Durable(env, u), i);
    WatchdogKeeps(s1, FailedResults(s1, x.results), env.now, Durable(env, u), i);
    SweepKeeps(s2, env.now, env.listable && Durable(env, u), i);
    LiveShrinks(u, slot, x, env);
    KeptTwice(slot, s1, s2, i);
    KeptTwice(slot, s2, TickSlot(u, slot, x, env), i);
  }

  lemma LiveShrinks(u: DataflowId, slot: Slot, x: Ctx, env: Env)
    ensures var s1 := DisconnectSlot(slot, x.lost, env.now, Readable(env, u), Durable(env, u));
            var s2 := SpawnTimeoutSlot(s1, FailedResults(s1, x.results), env.now, Durable(env, u));
            s2.live.Some? ==> s1.live.Some?
  {
  }

  lemma {:induction false} ReconcileAllKeeps(u: DataflowId, slot: Slot, d: DaemonId, entries: seq<StatusEntry>,
                                             archived: bool, connected: bool, now: Millis, readable: bool, durable: bool,
                                             i: Origin)
    requires AllOf(slot, i)
    ensures var slot' := ReconcileAll(u, slot, d, entries, archived, connected, now, readable, durable);
            Kept(slot, slot', i) && (slot.live.Some? ==> slot'.live.Some?)
    decreases |entries|
  {
    if entries == [] {
      KeptSame(slot, i);
    } else {
      var s1 := if entries[0].uuid == u
                then ReconcileSlot(slot, d, entries[0].nodes, archived, connected, now, readable, durable)
                else slot;
      ReconcileKeeps(slot, d, entries[0].nodes, archived, connected, now, readable, durable, i);
      KeptSame(slot, i);
      assert Kept(slot, s1, i) && Open(0);
      ReconcileAllKeeps(u, s1, d, entries[1..], archived, connected, now, readable, durable, i);
      KeptTwice(slot, s1, ReconcileAll(u, slot, d, entries, archived, connected, now, readable, durable), i);
    }
  }

  lemma ReconcileKeeps(slot: Slot, d: DaemonId, nodes: seq<NodeId>, archived: bool, connected: bool, now: Millis,
                       readable: bool, durable: bool, i: Origin)
    requires AllOf(slot, i)
    ensures var slot' := ReconcileSlot(slot, d, nodes, archived, connected, now, readable, durable);
            Kept(slot, slot', i) && (slot.live.Some? ==> slot'.live.Some?)
  {
  }

  lemma ReportKeeps(u: DataflowId, slot: Slot, e: Event, x: Ctx, i: Origin)
    requires e.Report? && AllOf(slot, i)
    ensures Kept(slot, SlotStep(u, slot, e, x), i)
  {
    var env := e.env;
    var mid := ReconcileAll(u, slot, e.daemon, e.entries, x.archived, x.connected, env.now, Readable(env, u), Durable(env, u));
    ReconcileAllKeeps(u, slot, e.daemon, e.entries, x.archived, x.connected, env.now, Readable(env, u), Durable(env, u), i);
    RecoverKeeps(slot, mid, e.daemon, Reports(e.entries, u), x.connected, env.now, i);
  }

  lemma RecoverKeeps(slot: Slot, mid: Slot, d: DaemonId, reported: bool, connected: bool, now: Millis, i: Origin)
    requires Kept(slot, mid, i)
    ensures Kept(slot, AutoRecoverSlot(mid, d, reported, connected, now), i)
  {
    assert Open(0);
  }

  lemma SpawnResultKeeps(slot: Slot, d: DaemonId, ok: bool, archived: bool, results: Results, now: Millis, durable: bool,
                         i: Origin)
    requires AllOf(slot, i)
    ensures Kept(slot, SpawnResultSlot(slot, d, ok, archived, results, now, durable), i)
  {
    var slot' := SpawnResultSlot(slot, d, ok, archived, results, now, durable);
    if slot.live.None? {
      KeptQuietly(slot, slot', i);
    } else {
      var df := slot.live.value.(pendingSpawn := slot.live.value.pendingSpawn - {d});
      if SpawnFails(slot, ok) {
        FailKeeps(slot, df, results, now, durable, i);
      } else if df.spawn.SpawnPending? && df.pendingSpawn == {} {
        KeptUpdate(slot, slot', df.(spawn := SpawnOk, generation := df.generation + 1), Running, now, i);
      } else {
        KeptUpdate(slot, slot', df, Running, now, i);
      }
    }
  }

  lemma FinishKeeps(slot: Slot, d: DaemonId, results: Results, started: Option<Placement>, now: Millis, durable: bool,
                    i: Origin)
    requires AllOf(slot, i)
    ensures Kept(slot, FinishSlot(slot, d, results, started, now, durable), i)
  {
    if slot.live.None? {
      KeptSame(slot, i);
    } else {
      var slot', df := FinishSlot(slot, d, results, started, now, durable), slot.live.value;
      var left := df.(daemons := df.daemons - {d});
      KeptUpdate(slot, slot', if left.daemons != {} then left else left.(generation := df.generation + 1), Verdict(results),
                 now, i);
    }
  }

  lemma ReadyKeeps(slot: Slot, d: DaemonId, exited: seq<NodeId>, now: Millis, readable: bool, durable: bool, i: Origin)
    requires AllOf(slot, i)
    ensures Kept(slot, ReadySlot(slot, d, exited, now, readable, durable), i)
  {
    if slot.live.None? {
      KeptSame(slot, i);
    } else {
      var slot' := ReadySlot(slot, d, exited, now, readable, durable);
      KeptUpdate(slot, slot', slot'.live.value, BarrierStatus(slot, slot'.live.value, readable), now, i);
    }
  }

  lemma StopKeeps(slot: Slot, c: Caller, acks: set<DaemonId>, results: Option<Results>, now: Millis, durable: bool,
                  i: Origin)
    requires AllOf(slot, i)
    ensures Kept(slot, StopSlot(slot, c, acks, results, now, durable), i)
  {
    var slot' := StopSlot(slot, c, acks, results, now, durable);
    if slot.live.None? || !(slot.live.value.daemons <= acks) {
      KeptQuietly(slot, slot', i);
    } else {
      KeptUpdate(slot, slot', slot'.live.value, Stopping, now, i);
    }
  }

  lemma RestartKeeps(slot: Slot, c: Caller, acks: set<DaemonId>, now: Millis, durable: bool, i: Origin)
    requires AllOf(slot, i)
    ensures Kept(slot, RestartSlot(slot, c, acks, now, durable), i)
  {
    var slot' := RestartSlot(slot, c, acks, now, durable);
    if slot.restart.Some? || slot.live.None? || !(slot.live.value.daemons <= acks) {
      KeptQuietly(slot, slot', i);
    } else {
      KeptUpdate(slot, slot', slot'.live.value, Stopping, now, i);
    }
  }

  lemma WaitKeeps(slot: Slot, c: Caller, i: Origin)
    requires AllOf(slot, i)
    ensures Kept(slot, WaitForSpawnSlot(slot, c), i)
  {
  }

  lemma StoreKeeps(u: DataflowId, slot: Slot, e: Event, x: Ctx, i: Origin)
    requires AllOf(slot, i) && (e.Clean? || e.Boot?)
    ensures Kept(slot, SlotStep(u, slot, e, x), i)
  {
  }

  lemma EventKeepsIdentity(u: DataflowId, slot: Slot, e: Event, x: Ctx, i: Origin)
    requires AllOf(slot, i) && !Creates(u, e, x)
    ensures Kept(slot, SlotStep(u, slot, e, x), i)
  {
    KeptSame(slot, i);
    match e
    case Exit(_, _, env) => DisconnectKeeps(slot, x.lost, env.now, Readable(env, u), Durable(env, u), i);
    case Tick(_, _, env) => TickKeeps(u, slot, x, env, i);
    case Report(_, _, _) => ReportKeeps(u, slot, e, x, i);
    case SpawnReport(_, d, ok, env) =>
      SpawnResultKeeps(slot, d, ok, x.archived, FailedResults(slot, x.results), env.now, Durable(env, u), i);
    case Finished(_, d, result, started, env) =>
      FinishKeeps(slot, d, KnownResults(x.results)[d := result], started, env.now, Durable(env, u), i);
    case Ready(_, d, exited, env) => ReadyKeeps(slot, d, exited, env.now, Readable(env, u), Durable(env, u), i);
    case Clean(_) => StoreKeeps(u, slot, e, x, i);
    case Boot(_) => StoreKeeps(u, slot, e, x, i);
    case _ => RequestKeepsIdentity(u, slot, e, x, i);
  }

  lemma RequestKeepsIdentity(u: DataflowId, slot: Slot, e: Event, x: Ctx, i: Origin)
    requires AllOf(slot, i) && !Creates(u, e, x)
    requires e.Register? || e.Heartbeat? || e.Endpoint? || e.WaitForSpawn? || e.StartReq? || e.StopReq? || e.StopByName?
             || e.RestartReq? || e.RestartByName?
    ensures Kept(slot, SlotStep(u, slot, e, x), i)
  {
    KeptSame(slot, i);
    match e
    case WaitForSpawn(_, c) => WaitKeeps(slot, c, i);
    case StopReq(_, c, acks, env) => StopKeeps(slot, c, acks, x.results, env.now, Durable(env, u), i);
    case StopByName(_, c, acks, env) => StopKeeps(slot, c, acks, x.results, env.now, Durable(env, u), i);
    case RestartReq(_, c, acks, env) => RestartKeeps(slot, c, acks, env.now, Durable(env, u), i);
    case RestartByName(_, c, acks, env) => RestartKeeps(slot, c, acks, env.now, Durable(env, u), i);
    case _ =>
  }

  // ----- over runs ---------------------------------------------------------

  /** What event `e` starts: what was asked for, or what the restarted dataflow was. */
  ghost function StartedAs(s: State, e: Event): Identity
    requires e.StartReq? || (e.Finished? && Launched(s, e).Some?)
  {
    if e.StartReq? then Identity(e.name, e.descriptor, e.uv) else OfRestart(Launched(s, e).value)
  }

  lemma StartHasIdentity(s: State, e: Event, u: DataflowId)
    requires Enabled(s, e) && Starts(s, e, u)
    ensures u in Step(s, e).slots && At(Step(s, e), u).live.Some? && AllOf(At(Step(s, e), u), Origin(StartedAs(s, e), e.env.now))
    ensures At(Step(s, e), u).live.value.nodeToDaemon == e.started.value.nodeToDaemon
    ensures At(Step(s, e), u).live.value.daemons == e.started.value.daemons
  {
    StepIsPointwise(s, e, u);
    var i, env := StartedAs(s, e), e.env;
    var newborn := StartSlot(EMPTY_SLOT, e.started.value, i.name, i.descriptor, i.uv, env.now, Durable(env, u));
    NewbornIs(e.started.value, i, env.now, Durable(env, u));
    assert At(Step(s, e), u).live == newborn.live && At(Step(s, e), u).record == newborn.record
           && At(Step(s, e), u).restart == newborn.restart;
  }

  lemma NewbornIs(p: Placement, i: Identity, now: Millis, durable: bool)
    ensures var slot := StartSlot(EMPTY_SLOT, p, i.name, i.descriptor, i.uv, now, durable);
            && AllOf(slot, Origin(i, now)) && slot.live.Some?
            && slot.live.value.nodeToDaemon == p.nodeToDaemon && slot.live.value.daemons == p.daemons
  {
  }

  lemma {:induction false} TearDownNames(archived: IndexMap<DataflowId, Option<string>>, order: seq<DataflowId>,
                                         dfs: map<DataflowId, Dataflow>, u: DataflowId)
    requires u in TearDownArchive(archived, order, dfs).items
    ensures var name := TearDownArchive(archived, order, dfs).items[u];
            (u in archived.items && name == archived.items[u]) || (u in dfs && name == dfs[u].name)
    decreases |order|
  {
    if order != [] && order[0] in dfs {
      ArchiveNames(archived, order[0], dfs[order[0]].name, u);
      TearDownNames(Archive(archived, order[0], dfs[order[0]].name), order[1..], dfs, u);
    }
  }

  lemma ArchiveNames(archived: IndexMap<DataflowId, Option<string>>, v: DataflowId, name: Option<string>, u: DataflowId)
    ensures u in Archive(archived, v, name).items ==>
              || (u in archived.items && Archive(archived, v, name).items[u] == archived.items[u])
              || (u == v && Archive(archived, v, name).items[u] == name)
  {
    archived.PutIfAbsent(v, name).DropOldestKeeps(MAX_ARCHIVED_DATAFLOWS);
  }

  lemma ArchivedAfterNames(s: State, e: Event, u: DataflowId, i: Origin)
    requires AllOf(At(s, u), i) && (u in s.archived.items ==> s.archived.items[u] == i.what.name)
    requires u in ArchivedAfter(s, e).items
    ensures ArchivedAfter(s, e).items[u] == i.what.name
  {
    match e
    case Finished(v, d, _, _, _) =>
      if Completes(At(s, v), d) {
        ArchiveNames(s.archived, v, At(s, v).live.value.name, u);
      }
    case SpawnReport(v, _, _, _) =>
      if SpawnFailure(s, e) {
        ArchiveNames(s.archived, v, At(s, v).live.value.name, u);
      }
    case Tick(_, order, env) =>
      var dfs := AfterDisconnect(s, LostBy(s, e), env);
      TearDownNames(s.archived, StuckIn(order, dfs, env.now), dfs, u);
      DisconnectKeeps(At(s, u), LostBy(s, e), env.now, Readable(env, u), Durable(env, u), i);
      assert Open(0);
    case _ =>
  }

  lemma StartKeepsOrigin(s: State, e: Event, u: DataflowId)
    requires Inv(s) && Enabled(s, e) && Starts(s, e, u)
    ensures u in Step(s, e).slots && AllOf(At(Step(s, e), u), Origin(StartedAs(s, e), e.env.now))
    ensures u !in Step(s, e).archived.items
  {
    StartHasIdentity(s, e, u);
    if u in ArchivedAfter(s, e).items {
      HistoriesStayValid(s, e);
      WentDownIsKnown(s, e, u);
    }
  }

  /** In every run, a dataflow keeps the name, the descriptor, the flavour and the creation
      time it was started with: in its live entry, in its record, in a pending restart and in
      the archive, across losses, reports, reclaims and process restarts. */
  lemma {:induction false} IdentityIsKept(states: seq<State>, events: seq<Event>, u: DataflowId, b: nat, n: nat)
    requires IsRun(states, events) && Inv(states[0]) && b < n <= |events| && Starts(states[b], events[b], u)
    ensures u in states[n].slots && AllOf(At(states[n], u), Origin(StartedAs(states[b], events[b]), events[b].env.now))
    ensures u in states[n].archived.items ==>
              states[n].archived.items[u] == StartedAs(states[b], events[b]).name
    decreases n
  {
    assert Steps(states, events, n - 1);
    InvRun(states, events, n - 1);
    if n == b + 1 {
      StartKeepsOrigin(states[b], events[b], u);
    } else {
      IdentityIsKept(states, events, u, b, n - 1);
      IdentityStep(states[n - 1], events[n - 1], u, Origin(StartedAs(states[b], events[b]), events[b].env.now));
    }
  }

  lemma WentDownIsKnown(s: State, e: Event, u: DataflowId)
    requires u in WentDown(s, e)
    ensures u in s.slots
  {
  }

  lemma IdentityStep(s: State, e: Event, u: DataflowId, i: Origin)
    requires Inv(s) && Enabled(s, e) && u in s.slots && AllOf(At(s, u), i)
    requires u in s.archived.items ==> s.archived.items[u] == i.what.name
    ensures u in Step(s, e).slots && AllOf(At(Step(s, e), u), i) && SameBirth(At(s, u), At(Step(s, e), u))
    ensures u in Step(s, e).archived.items ==> Step(s, e).archived.items[u] == i.what.name
  {
    StepIsPointwise(s, e, u);
    CreatesFromEmpty(s, e, u);
    EventKeepsIdentity(u, At(s, u), e, CtxOf(s, e, u), i);
    assert Open(0);
    if u in ArchivedAfter(s, e).items {
      ArchivedAfterNames(s, e, u, i);
    }
  }

  // ----- deferred restarts -------------------------------------------------

  /** The live entry, the record and the pending restart of a dataflow agree on what it is. */
  ghost predicate Consistent(slot: Slot) {
    exists i :: AllOf(slot, i)
  }

  ghost predicate AllConsistent(s: State) {
    forall u :: u in s.slots ==> Consistent(s.slots[u])
  }

  lemma ConsistentStep(s: State, e: Event, u: DataflowId)
    requires Inv(s) && Enabled(s, e) && Consistent(At(s, u))
    ensures Consistent(At(Step(s, e), u))
  {
    var x := CtxOf(s, e, u);
    StepIsPointwise(s, e, u);
    if Creates(u, e, x) {
      CreatesFromEmpty(s, e, u);
      StartHasIdentity(s, e, u);
    } else {
      var i :| AllOf(At(s, u), i);
      EventKeepsIdentity(u, At(s, u), e, x, i);
      assert Open(0);
    }
  }

  lemma {:induction false} ConsistentRun(states: seq<State>, events: seq<Event>, n: nat)
    requires IsRun(states, events) && Inv(states[0]) && AllConsistent(states[0]) && n <= |events|
    ensures AllConsistent(states[n])
  {
    if n > 0 {
      assert Steps(states, events, n - 1);
      InvRun(states, events, n - 1);
      ConsistentRun(states, events, n - 1);
      forall u | u in states[n].slots
        ensures Consistent(states[n].slots[u])
      {
        assert AllOf(EMPTY_SLOT, Origin(Identity(None, Descriptor("", true), false), 0));
        ConsistentStep(states[n - 1], events[n - 1], u);
      }
    }
  }

  /** A deferred restart launches what it restarts: the replacement is live under its new id
      with the name, descriptor and flavour of the old dataflow, placed where the start put
      it, and the caller who asked for the restart is told that id. */
  lemma RestartLaunchesTheSame(states: seq<State>, events: seq<Event>, n: nat)
    requires IsRun(states, events) && states[0] == INITIAL && n < |events|
    requires Launched(states[n], events[n]).Some? && events[n].started.Some?
    ensures var u, v := events[n].uuid, events[n].started.value.uuid;
            && At(states[n], u).live.Some? && At(states[n + 1], u).live.None?
            && At(states[n + 1], v).live.Some?
            && OfLive(At(states[n + 1], v).live.value) == OfLive(At(states[n], u).live.value)
            && At(states[n + 1], v).live.value.daemons == events[n].started.value.daemons
            && At(states[n + 1], v).live.value.nodeToDaemon == events[n].started.value.nodeToDaemon
            && Answered(At(states[n], u).restart.value.caller, RestartedAs(v)) in At(states[n + 1], u).out
  {
    var s, e := states[n], events[n];
    assert Steps(states, events, n);
    ConsistentRun(states, events, n);
    LaunchIs(s, e);
    StartHasIdentity(s, e, e.started.value.uuid);
  }

  lemma LaunchIs(s: State, e: Event)
    requires Enabled(s, e) && Launched(s, e).Some? && e.started.Some? && AllConsistent(s)
    ensures var u, v := e.uuid, e.started.value.uuid;
            && u != v && At(s, u).live.Some? && OfRestart(Launched(s, e).value) == OfLive(At(s, u).live.value)
            && At(Step(s, e), u).live.None?
            && Answered(At(s, u).restart.value.caller, RestartedAs(v)) in At(Step(s, e), u).out
  {
    var u, v := e.uuid, e.started.value.uuid;
    var i :| AllOf(At(s, u), i);
    StepIsPointwise(s, e, u);
    assert At(s, u).live.value.daemons - {e.daemon} == {};
    assert At(Step(s, e), u).out[|At(s, u).out|] == Answered(At(s, u).restart.value.caller, RestartedAs(v));
  }
}
