/** The version number of a persisted record: what the store promises of it, and where the
    coordinator keeps that promise. */
module RecordVersions {
  import opened Common
  import opened CoordinatorTypes
  import opened DataflowSlot
  import opened Coordinator
  import opened CoordinatorInvariants
  import opened ReadyBarrier
  import opened DataflowIdentity

  /** The live entry counts its own writes only; a promotion or an expiry of the record that
      it did not make itself leaves it one behind. */
  predicate Behind(slot: Slot) {
    slot.live.Some? && slot.record.Some? && slot.live.value.generation < slot.record.value.generation
  }

  predicate Numbered(slot: Slot) {
    Behind(slot) ==>
      && slot.record.value.generation == slot.live.value.generation + 1
      && slot.record.value.status in {Running, Failed(true)}
  }

  /** A changed record has a higher version, or the same one if the entry was behind. */
  predicate Rises(slot: Slot, slot': Slot) {
    slot.record.Some? && slot'.record.Some? && slot'.record != slot.record ==>
      if Behind(slot) then slot'.record.value.generation == slot.record.value.generation
      else slot'.record.value.generation > slot.record.value.generation
  }

  ghost predicate Versioned(slot: Slot, slot': Slot) {
    forall z {:trigger Open(z)} :: Open(z) && z == 0 ==> Numbered(slot') && Rises(slot, slot')
  }

  lemma Unwritten(slot: Slot, slot': Slot)
    requires Numbered(slot) && slot'.record == slot.record
    requires slot'.live.Some? ==> slot.live.Some? && slot'.live.value.generation == slot.live.value.generation
    ensures Versioned(slot, slot')
  {
  }

  /** The entry `df`, counted up, was persisted, perhaps in vain, and perhaps dropped. */
  lemma Written(slot: Slot, slot': Slot, df: Dataflow, status: Status, now: Millis)
    requires Numbered(slot) && slot.live.Some? && df.generation == slot.live.value.generation + 1
    requires slot'.live.None? || slot'.live == Some(df)
    requires slot'.record == slot.record || slot'.record == Some(MakeRecord(df, status, now))
    ensures Versioned(slot, slot')
  {
  }

  lemma DisconnectVersions(slot: Slot, lost: set<DaemonId>, now: Millis, readable: bool, durable: bool)
    requires Numbered(slot)
    ensures var slot' := DisconnectSlot(slot, lost, now, readable, durable);
            && Versioned(slot, slot')
            && (slot'.record != slot.record ==>
                  && slot'.record.Some? && slot'.record.value.updatedAt == now
                  && (slot'.live.Some? ==> slot'.live.value.spawn.SpawnOk?))
            && (slot'.record == slot.record && Behind(slot') ==> Behind(slot))
            && (slot'.live.Some? && slot'.record == slot.record && Behind(slot) && !Behind(slot') ==>
                  slot'.live.value.spawn.SpawnOk?)
  {
    var slot' := DisconnectSlot(slot, lost, now, readable, durable);
    if slot.live.None? || !Affected(slot.live.value, lost) {
      Unwritten(slot, slot');
    } else {
      var df := Prune(slot.live.value, lost);
      var next := df.(generation := df.generation + 1);
      if Orphaned(slot.live.value, lost) {
        Written(slot, slot', next, Recovering, now);
      } else if BarrierFreed(slot.live.value, lost) {
        var freed := next.(barrierReleased := true);
        Written(slot, slot', freed, BarrierStatus(slot, freed, readable), now);
      } else {
        Unwritten(slot, slot');
      }
    }
  }

  lemma FailVersions(slot: Slot, df: Dataflow, results: Results, now: Millis, durable: bool)
    requires Numbered(slot) && slot.live.Some? && df.generation == slot.live.value.generation
    ensures Versioned(slot, FailSpawn(slot, df, results, now, durable))
    ensures var record' := FailSpawn(slot, df, results, now, durable).record;
            record' != slot.record ==> record'.Some? && record'.value.updatedAt == now
  {
    Written(slot, FailSpawn(slot, df, results, now, durable), df.(generation := df.generation + 1), Failed(true), now);
  }

  lemma WatchdogVersions(slot: Slot, results: Results, now: Millis, durable: bool)
    requires Numbered(slot)
    ensures var slot' := SpawnTimeoutSlot(slot, results, now, durable);
            && Versioned(slot, slot') && (slot.live.Some? && slot.live.value.spawn.SpawnOk? ==> slot' == slot)
            && (slot'.record != slot.record ==> slot'.record.Some? && slot'.record.value.updatedAt == now)
            && (slot'.live.Some? ==> slot' == slot) && (slot.live.None? ==> slot' == slot)
  {
    if slot.live.Some? && SpawnStuck(slot.live.value, now) {
      FailVersions(slot, slot.live.value, results, now, durable);
    } else {
      Unwritten(slot, slot);
    }
  }

  lemma SweepVersions(slot: Slot, now: Millis, durable: bool)
    requires Numbered(slot)
    ensures var slot' := RecoveryTimeoutSlot(slot, now, durable);
            && Versioned(slot, slot') && (slot'.record != slot.record ==> !Behind(slot))
            && (slot.record.Some? && slot.record.value.updatedAt == now ==> slot' == slot)
  {
  }

  /** At most one phase of a tick writes the record. */
  lemma TickVersions(u: DataflowId, slot: Slot, x: Ctx, env: Env)
    requires Numbered(slot)
    ensures Versioned(slot, TickSlot(u, slot, x, env))
  {
    var s1 := DisconnectSlot(slot, x.lost, env.now, Readable(env, u), Durable(env, u));
    var s2 := SpawnTimeoutSlot(s1, FailedResults(s1, x.results), env.now, Durable(env, u));
    assert Open(0);
    DisconnectVersions(slot, x.lost, env.now, Readable(env, u), Durable(env, u));
    WatchdogVersions(s1, FailedResults(s1, x.results), env.now, Durable(env, u));
    SweepVersions(s2, env.now, env.listable && Durable(env, u));
    OneWriter(slot, s1, s2, TickSlot(u, slot, x, env), env.now);
  }

  lemma OneWriter(a: Slot, b: Slot, c: Slot, d: Slot, now: Millis)
    requires Numbered(d) && Rises(a, b) && Rises(b, c) && Rises(c, d)
    requires b.record != a.record ==> b.record.Some? && b.record.value.updatedAt == now && c == b
    requires c.record != b.record ==> c.record.Some? && c.record.value.updatedAt == now
    requires c.record.Some? && c.record.value.updatedAt == now ==> d.record == c.record
    requires d.record != c.record ==> !Behind(c)
    requires b.record == a.record && c.record != b.record ==> (Behind(b) <==> Behind(a))
    requires b.record == a.record && c.record == b.record && d.record != c.record ==> !Behind(a)
    ensures Versioned(a, d)
  {
  }

  // ----- reports -----------------------------------------------------------

  /** One entry writes the record only to promote it; a running one stays as it is. */
  lemma EntryVersions(slot: Slot, d: DaemonId, nodes: seq<NodeId>, archived: bool, connected: bool, now: Millis,
                      readable: bool, durable: bool)
    requires Numbered(slot)
    ensures var slot' := ReconcileSlot(slot, d, nodes, archived, connected, now, readable, durable);
            && Versioned(slot, slot')
            && (slot'.record != slot.record ==> slot'.record.Some? && slot'.record.value.status == Running)
            && (slot.record.Some? && slot.record.value.status == Running ==> slot'.record == slot.record)
            && (slot'.record == slot.record ==> (Behind(slot') <==> Behind(slot)))
  {
  }

  lemma {:induction false} ReconcileVersions(u: DataflowId, slot: Slot, d: DaemonId, entries: seq<StatusEntry>,
                                             archived: bool, connected: bool, now: Millis, readable: bool, durable: bool)
    requires Numbered(slot)
    ensures var slot' := ReconcileAll(u, slot, d, entries, archived, connected, now, readable, durable);
            && Versioned(slot, slot')
            && (slot.record.Some? && slot.record.value.status == Running ==> slot'.record == slot.record)
    decreases |entries|
  {
    if entries == [] {
      Unwritten(slot, slot);
    } else {
      var s1 := if entries[0].uuid == u
                then ReconcileSlot(slot, d, entries[0].nodes, archived, connected, now, readable, durable)
                else slot;
      EntryVersions(slot, d, entries[0].nodes, archived, connected, now, readable, durable);
      Unwritten(slot, slot);
      assert Versioned(slot, s1) && Open(0);
      ReconcileVersions(u, s1, d, entries[1..], archived, connected, now, readable, durable);
    }
  }

  lemma ReportVersions(u: DataflowId, slot: Slot, e: Event, x: Ctx)
    requires Numbered(slot) && e.Report?
    ensures Versioned(slot, SlotStep(u, slot, e, x))
  {
    var env := e.env;
    var mid := ReconcileAll(u, slot, e.daemon, e.entries, x.archived, x.connected, env.now, Readable(env, u), Durable(env, u));
    ReconcileVersions(u, slot, e.daemon, e.entries, x.archived, x.connected, env.now, Readable(env, u), Durable(env, u));
    RecoverVersions(slot, mid, e.daemon, Reports(e.entries, u), x.connected, env.now);
  }

  lemma RecoverVersions(slot: Slot, mid: Slot, d: DaemonId, reported: bool, connected: bool, now: Millis)
    requires Versioned(slot, mid)
    ensures Versioned(slot, AutoRecoverSlot(mid, d, reported, connected, now))
  {
    assert Open(0);
  }

  // ----- the other events --------------------------------------------------

  lemma SpawnResultVersions(slot: Slot, d: DaemonId, ok: bool, archived: bool, results: Results, now: Millis, durable: bool)
    requires Numbered(slot)
    ensures Versioned(slot, SpawnResultSlot(slot, d, ok, archived, results, now, durable))
  {
    var slot' := SpawnResultSlot(slot, d, ok, archived, results, now, durable);
    if slot.live.None? {
      Unwritten(slot, slot');
    } else {
      var df := slot.live.value.(pendingSpawn := slot.live.value.pendingSpawn - {d});
      if SpawnFails(slot, ok) {
        FailVersions(slot, df, results, now, durable);
      } else if df.spawn.SpawnPending? && df.pendingSpawn == {} {
        Written(slot, slot', df.(spawn := SpawnOk, generation := df.generation + 1), Running, now);
      } else {
        Unwritten(slot, slot');
      }
    }
  }

  lemma FinishVersions(slot: Slot, d: DaemonId, results: Results, started: Option<Placement>, now: Millis, durable: bool)
    requires Numbered(slot)
    ensures Versioned(slot, FinishSlot(slot, d, results, started, now, durable))
  {
    var slot' := FinishSlot(slot, d, results, started, now, durable);
    if slot.live.Some? && slot.live.value.daemons - {d} == {} {
      var df := slot.live.value.(daemons := slot.live.value.daemons - {d});
      Written(slot, slot', df.(generation := df.generation + 1), Verdict(results), now);
    } else {
      Unwritten(slot, slot');
    }
  }

  lemma ReadyVersions(slot: Slot, d: DaemonId, exited: seq<NodeId>, now: Millis, readable: bool, durable: bool)
    requires Numbered(slot)
    ensures Versioned(slot, ReadySlot(slot, d, exited, now, readable, durable))
  {
    var slot' := ReadySlot(slot, d, exited, now, readable, durable);
    if slot.live.Some? && slot.live.value.pendingDaemons - {d} == {} {
      Written(slot, slot', slot'.live.value, BarrierStatus(slot, slot'.live.value, readable), now);
    } else {
      Unwritten(slot, slot');
    }
  }

  lemma StopVersions(slot: Slot, c: Caller, acks: set<DaemonId>, results: Option<Results>, now: Millis, durable: bool)
    requires Numbered(slot)
    ensures Versioned(slot, StopSlot(slot, c, acks, results, now, durable))
  {
    var slot' := StopSlot(slot, c, acks, results, now, durable);
    if slot.live.Some? && slot.live.value.daemons <= acks {
      Written(slot, slot', slot'.live.value, Stopping, now);
    } else {
      Unwritten(slot, slot');
    }
  }

  lemma RestartVersions(slot: Slot, c: Caller, acks: set<DaemonId>, now: Millis, durable: bool)
    requires Numbered(slot)
    ensures Versioned(slot, RestartSlot(slot, c, acks, now, durable))
  {
    var slot' := RestartSlot(slot, c, acks, now, durable);
    if slot.restart.None? && slot.live.Some? && slot.live.value.daemons <= acks {
      Written(slot, slot', slot'.live.value, Stopping, now);
    } else {
      Unwritten(slot, slot');
    }
  }

  lemma RequestVersions(u: DataflowId, slot: Slot, e: Event, x: Ctx)
    requires Numbered(slot) && !Creates(u, e, x)
    requires e.Register? || e.Heartbeat? || e.Endpoint? || e.WaitForSpawn? || e.StartReq? || e.StopReq? || e.StopByName?
             || e.RestartReq? || e.RestartByName? || e.Clean?
    ensures Versioned(slot, SlotStep(u, slot, e, x))
  {
    Unwritten(slot, slot);
    match e
    case WaitForSpawn(_, c) => Unwritten(slot, WaitForSpawnSlot(slot, c));
    case StopReq(_, c, acks, env) => StopVersions(slot, c, acks, x.results, env.now, Durable(env, u));
    case StopByName(_, c, acks, env) => StopVersions(slot, c, acks, x.results, env.now, Durable(env, u));
    case RestartReq(_, c, acks, env) => RestartVersions(slot, c, acks, env.now, Durable(env, u));
    case RestartByName(_, c, acks, env) => RestartVersions(slot, c, acks, env.now, Durable(env, u));
    case _ =>
  }

  lemma EventVersions(u: DataflowId, slot: Slot, e: Event, x: Ctx)
    requires Numbered(slot) && !Creates(u, e, x) && !e.Boot?
    ensures Versioned(slot, SlotStep(u, slot, e, x))
  {
    match e
    case Exit(_, _, env) => DisconnectVersions(slot, x.lost, env.now, Readable(env, u), Durable(env, u));
    case Tick(_, _, env) => TickVersions(u, slot, x, env);
    case Report(_, _, _) => ReportVersions(u, slot, e, x);
    case SpawnReport(_, d, ok, env) =>
      Unwritten(slot, slot);
      SpawnResultVersions(slot, d, ok, x.archived, FailedResults(slot, x.results), env.now, Durable(env, u));
    case Finished(_, d, result, started, env) =>
      Unwritten(slot, slot);
      FinishVersions(slot, d, KnownResults(x.results)[d := result], started, env.now, Durable(env, u));
    case Ready(_, d, exited, env) =>
      Unwritten(slot, slot);
      ReadyVersions(slot, d, exited, env.now, Readable(env, u), Durable(env, u));
    case _ => RequestVersions(u, slot, e, x);
  }

  // ----- over runs ---------------------------------------------------------

  lemma VersionStep(s: State, e: Event, u: DataflowId)
    requires Enabled(s, e) && Numbered(At(s, u))
    ensures Numbered(At(Step(s, e), u)) && (!e.Boot? ==> Rises(At(s, u), At(Step(s, e), u)))
    ensures e.Boot? && At(s, u).record.Some? ==>
              && At(Step(s, e), u).record.Some?
              && (At(Step(s, e), u).record != At(s, u).record ==>
                    At(Step(s, e), u).record.value.generation == At(s, u).record.value.generation + 1)
  {
    StepIsPointwise(s, e, u);
    CreatesFromEmpty(s, e, u);
    if !e.Boot? && !Creates(u, e, CtxOf(s, e, u)) {
      EventVersions(u, At(s, u), e, CtxOf(s, e, u));
      assert Open(0);
    } else if Creates(u, e, CtxOf(s, e, u)) {
      CreationIsNumbered(u, e, CtxOf(s, e, u));
    }
  }

  lemma CreationIsNumbered(u: DataflowId, e: Event, x: Ctx)
    requires Creates(u, e, x)
    ensures Numbered(SlotStep(u, EMPTY_SLOT, e, x))
  {
  }

  lemma {:induction false} NumberedRun(states: seq<State>, events: seq<Event>, u: DataflowId, n: nat)
    requires IsRun(states, events) && states[0] == INITIAL && n <= |events|
    ensures Numbered(At(states[n], u))
  {
    if n > 0 {
      assert Steps(states, events, n - 1);
      NumberedRun(states, events, u, n - 1);
      VersionStep(states[n - 1], events[n - 1], u);
    }
  }

  /** The store's promise, and exactly where it holds: in every run, an event that changes a
      record raises its version if and only if the live entry is not behind the record or the
      event is a process restart; otherwise the version stays what it was. */
  lemma VersionRisesIff(states: seq<State>, events: seq<Event>, u: DataflowId, n: nat)
    requires IsRun(states, events) && states[0] == INITIAL && n < |events|
    requires At(states[n], u).record.Some? && At(states[n + 1], u).record.Some?
    requires At(states[n], u).record != At(states[n + 1], u).record
    ensures var v, v' := At(states[n], u).record.value.generation, At(states[n + 1], u).record.value.generation;
            var late := && !events[n].Boot? && At(states[n], u).live.Some?
                        && At(states[n], u).live.value.generation < v;
            && (v' > v <==> !late) && (late ==> v' == v)
  {
    assert Steps(states, events, n);
    NumberedRun(states, events, u, n);
    VersionStep(states[n], events[n], u);
  }

  /** A version never falls while the record exists. */
  lemma {:induction false} VersionNeverFalls(states: seq<State>, events: seq<Event>, u: DataflowId, i: nat, j: nat)
    requires IsRun(states, events) && states[0] == INITIAL && i <= j <= |events|
    requires forall k :: i <= k <= j ==> At(states[k], u).record.Some?
    ensures At(states[i], u).record.value.generation <= At(states[j], u).record.value.generation
    decreases j
  {
    if i < j {
      VersionNeverFalls(states, events, u, i, j - 1);
      if At(states[j - 1], u).record != At(states[j], u).record {
        VersionRisesIff(states, events, u, j - 1);
      }
    }
  }

  /** The exception is real: start a dataflow, let its daemon report it as running, stop it.
      The last two records differ and carry the same version. */
  lemma TwoRecordsOneVersion(states: seq<State>, events: seq<Event>, u: DataflowId)
    requires IsRun(states, events) && Inv(states[0]) && |events| == 3
    requires events[0].StartReq? && Starts(states[0], events[0], u) && Durable(events[0].env, u)
    requires events[1].Report? && events[1].entries == [StatusEntry(u, [])] && Readable(events[1].env, u)
    requires Durable(events[1].env, u)
    requires events[2].StopReq? && events[2].uuid == u && Durable(events[2].env, u)
    requires At(states[2], u).live.Some? ==> At(states[2], u).live.value.daemons <= events[2].acks
    ensures At(states[2], u).record.Some? && At(states[3], u).record.Some?
    ensures At(states[2], u).record.value.status == Running && At(states[3], u).record.value.status == Stopping
    ensures At(states[3], u).record.value.generation == At(states[2], u).record.value.generation
  {
    assert Steps(states, events, 0) && Steps(states, events, 1) && Steps(states, events, 2);
    StartWrites(states[0], events[0], u);
    ReportPromotes(states[1], events[1], u);
    StopWrites(states[2], events[2], u);
  }

  lemma StartWrites(s: State, e: Event, u: DataflowId)
    requires Enabled(s, e) && e.StartReq? && Starts(s, e, u) && Durable(e.env, u) && Inv(s)
    ensures var slot' := At(Step(s, e), u);
            && slot'.live.Some? && slot'.record.Some? && slot'.record.value.status == Pending
            && slot'.live.value.generation == slot'.record.value.generation
    ensures u !in Step(s, e).archived.items
  {
    StepIsPointwise(s, e, u);
    StartKeepsOrigin(s, e, u);
  }

  lemma PromotesOnce(u: DataflowId, slot: Slot, d: DaemonId, connected: bool, now: Millis)
    requires slot.live.Some? && slot.record.Some? && slot.record.value.status == Pending
    requires slot.live.value.generation == slot.record.value.generation
    ensures var slot' := ReconcileAll(u, slot, d, [StatusEntry(u, [])], false, connected, now, true, true);
            && slot'.live.Some? && slot'.record.Some? && slot'.record.value.status == Running
            && slot'.record.value.generation == slot'.live.value.generation + 1
  {
    var entries := [StatusEntry(u, [])];
    assert entries[1..] == [];
    var first := ReconcileSlot(slot, d, [], false, connected, now, true, true);
    assert ReconcileAll(u, slot, d, entries, false, connected, now, true, true)
        == ReconcileAll(u, first, d, entries[1..], false, connected, now, true, true) == first;
  }

  lemma ReportPromotes(s: State, e: Event, u: DataflowId)
    requires e.Report? && e.entries == [StatusEntry(u, [])] && Readable(e.env, u) && Durable(e.env, u)
    requires u !in s.archived.items && At(s, u).live.Some? && At(s, u).record.Some?
    requires At(s, u).record.value.status == Pending
    requires At(s, u).live.value.generation == At(s, u).record.value.generation
    ensures var slot' := At(Step(s, e), u);
            && slot'.live.Some? && slot'.record.Some? && slot'.record.value.status == Running
            && slot'.record.value.generation == slot'.live.value.generation + 1
  {
    StepIsPointwise(s, e, u);
    PromotesOnce(u, At(s, u), e.daemon, e.daemon in s.conns, e.env.now);
  }

  lemma StopWrites(s: State, e: Event, u: DataflowId)
    requires e.StopReq? && e.uuid == u && Durable(e.env, u)
    requires At(s, u).live.Some? && At(s, u).live.value.daemons <= e.acks
    ensures var slot' := At(Step(s, e), u);
            && slot'.record.Some? && slot'.record.value.status == Stopping
            && slot'.record.value.generation == At(s, u).live.value.generation + 1
  {
    StepIsPointwise(s, e, u);
  }
}
