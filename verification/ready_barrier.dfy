/** The ready barrier and the spawn of a new dataflow: for whom the coordinator waits, and
    when it stops waiting. */
module ReadyBarrier {
  import opened Common
  import opened CoordinatorTypes
  import opened DataflowSlot
  import opened Coordinator
  import opened CoordinatorInvariants
  import opened DisconnectConfluence

  // ----- who was heard of --------------------------------------------------

  /** Event `e` starts dataflow `u`, on request or as the replacement of another. */
  ghost predicate Starts(s: State, e: Event, u: DataflowId) {
    || (e.StartReq? && !NameTaken(s, e.name) && e.started.Some? && e.started.value.uuid == u)
    || (e.Finished? && e.uuid != u && Launched(s, e).Some? && e.started.Some? && e.started.value.uuid == u)
  }

  /** `e` is a report of daemon `d` running `u` that the coordinator acts on. */
  ghost predicate Relinks(s: State, e: Event, u: DataflowId, d: DaemonId) {
    && e.Report? && e.daemon == d && Reports(e.entries, u)
    && Adoptable(At(s, u), u in s.archived.items, Readable(e.env, u))
  }

  /** After `e` nobody needs to wait for `d` to be ready. */
  ghost predicate SettlesReady(s: State, e: Event, u: DataflowId, d: DaemonId) {
    (e.Ready? && e.uuid == u && e.daemon == d) || d in LostBy(s, e) || Relinks(s, e, u, d)
  }

  /** After `e` nobody needs to wait for the spawn on `d`. */
  ghost predicate SettlesSpawn(s: State, e: Event, u: DataflowId, d: DaemonId) {
    (e.SpawnReport? && e.uuid == u && e.daemon == d) || d in LostBy(s, e) || Relinks(s, e, u, d)
  }

  /** Since the start at `b`, daemon `d` was ready, lost, or reported `u` as running. */
  ghost predicate ReadySince(states: seq<State>, events: seq<Event>, u: DataflowId, d: DaemonId, b: nat, n: nat)
    requires n <= |events| && n <= |states|
  {
    exists j :: b < j < n && SettlesReady(states[j], events[j], u, d)
  }

  ghost predicate SpawnedSince(states: seq<State>, events: seq<Event>, u: DataflowId, d: DaemonId, b: nat, n: nat)
    requires n <= |events| && n <= |states|
  {
    exists j :: b < j < n && SettlesSpawn(states[j], events[j], u, d)
  }

  /** The entry of `u` is live in every state after the start at `b` up to `n`. */
  ghost predicate LiveSince(states: seq<State>, u: DataflowId, b: nat, n: nat)
    requires n < |states|
  {
    forall j :: b < j <= n ==> At(states[j], u).live.Some?
  }

  // ----- what one event does to the two waiting lists ----------------------

  lemma {:induction false} ReconcileAllSettles(u: DataflowId, slot: Slot, d: DaemonId, entries: seq<StatusEntry>,
                                               archived: bool, connected: bool, now: Millis, readable: bool,
                                               durable: bool)
    requires slot.live.Some?
    ensures var slot' := ReconcileAll(u, slot, d, entries, archived, connected, now, readable, durable);
            var gone := if Reports(entries, u) && Adoptable(slot, archived, readable) then {d} else {};
            && slot'.live.Some?
            && slot'.live.value.pendingDaemons == slot.live.value.pendingDaemons - gone
            && slot'.live.value.pendingSpawn == slot.live.value.pendingSpawn - gone
            && slot'.live.value.spawn == slot.live.value.spawn
    decreases |entries|
  {
    if entries != [] {
      var s1 := if entries[0].uuid == u
                then ReconcileSlot(slot, d, entries[0].nodes, archived, connected, now, readable, durable)
                else slot;
      ReconcileAllSettles(u, s1, d, entries[1..], archived, connected, now, readable, durable);
      FirstOrLater(entries, u);
    }
  }

  lemma FirstOrLater(entries: seq<StatusEntry>, u: DataflowId)
    requires entries != []
    ensures Reports(entries, u) <==> entries[0].uuid == u || Reports(entries[1..], u)
  {
    if Reports(entries, u) && entries[0].uuid != u {
      var i :| 0 <= i < |entries| && entries[i].uuid == u;
      assert entries[1..][i - 1].uuid == u;
    }
  }

  lemma ReportSettles(s: State, e: Event, u: DataflowId)
    requires e.Report? && At(s, u).live.Some?
    ensures var df, slot' := At(s, u).live.value, At(Step(s, e), u);
            var gone := if Relinks(s, e, u, e.daemon) then {e.daemon} else {};
            && slot'.live.Some? && slot'.live.value.pendingDaemons == df.pendingDaemons - gone
            && slot'.live.value.pendingSpawn == df.pendingSpawn - gone && slot'.live.value.spawn == df.spawn
  {
    StepIsPointwise(s, e, u);
    ReconcileAllSettles(u, At(s, u), e.daemon, e.entries, u in s.archived.items, e.daemon in s.conns, e.env.now,
                        Readable(e.env, u), Durable(e.env, u));
  }

  lemma DisconnectSettles(slot: Slot, lost: set<DaemonId>, now: Millis, readable: bool, durable: bool)
    requires slot.live.Some?
    ensures var slot' := DisconnectSlot(slot, lost, now, readable, durable);
            slot'.live.Some? ==>
              && slot'.live.value.pendingDaemons == slot.live.value.pendingDaemons - lost
              && slot'.live.value.pendingSpawn == slot.live.value.pendingSpawn - lost
              && slot'.live.value.spawn == slot.live.value.spawn
  {
    var df := slot.live.value;
    if !Affected(df, lost) {
      assert df.pendingDaemons - lost == df.pendingDaemons && df.pendingSpawn - lost == df.pendingSpawn;
    }
  }

  lemma TickSettles(u: DataflowId, slot: Slot, x: Ctx, env: Env)
    requires slot.live.Some? && TickSlot(u, slot, x, env).live.Some?
    ensures var slot' := TickSlot(u, slot, x, env);
            && slot'.live.value.pendingDaemons == slot.live.value.pendingDaemons - x.lost
            && slot'.live.value.pendingSpawn == slot.live.value.pendingSpawn - x.lost
            && slot'.live.value.spawn == slot.live.value.spawn
  {
    DisconnectSettles(slot, x.lost, env.now, Readable(env, u), Durable(env, u));
    var s1 := DisconnectSlot(slot, x.lost, env.now, Readable(env, u), Durable(env, u));
    if s1.live.Some? {
      FailSpawnShrinks(s1, s1.live.value, FailedResults(s1, x.results), env.now, Durable(env, u));
    }
  }

  /** Events other than reports and losses strike at most their own sender off a list. */
  lemma OtherSettles(u: DataflowId, slot: Slot, e: Event, x: Ctx)
    requires Sound(slot) && slot.live.Some? && !Creates(u, e, x) && !e.Report? && !e.Exit? && !e.Tick?
    requires SlotStep(u, slot, e, x).live.Some?
    ensures var df, df' := slot.live.value, SlotStep(u, slot, e, x).live.value;
            && df'.pendingDaemons == df.pendingDaemons - (if e.Ready? && e.uuid == u then {e.daemon} else {})
            && df'.pendingSpawn == df.pendingSpawn - (if e.SpawnReport? && e.uuid == u then {e.daemon} else {})
            && (!(e.SpawnReport? && e.uuid == u) && !(e.WaitForSpawn? && e.uuid == u) ==> df'.spawn == df.spawn)
            && (df'.spawn.SpawnPending? ==> df.spawn.SpawnPending?)
  {
    var df := slot.live.value;
    assert df.pendingDaemons - {} == df.pendingDaemons && df.pendingSpawn - {} == df.pendingSpawn;
    if e.SpawnReport? && e.uuid == u && SpawnFails(slot, e.ok) {
      var df' := df.(pendingSpawn := df.pendingSpawn - {e.daemon});
      FailSpawnShrinks(slot, df', FailedResults(slot, x.results), e.env.now, Durable(e.env, u));
    }
  }

  /** One step of both lists, for a dataflow that stays live. */
  lemma SettleStep(s: State, e: Event, u: DataflowId, d: DaemonId)
    requires Inv(s) && Enabled(s, e) && u in s.slots && At(s, u).live.Some? && At(Step(s, e), u).live.Some?
    ensures var df, df' := At(s, u).live.value, At(Step(s, e), u).live.value;
            && (d in df'.pendingDaemons <==> d in df.pendingDaemons && !SettlesReady(s, e, u, d))
            && (d in df'.pendingSpawn <==> d in df.pendingSpawn && !SettlesSpawn(s, e, u, d))
            && (df'.spawn.SpawnPending? ==> df.spawn.SpawnPending?)
  {
    var x := CtxOf(s, e, u);
    StepIsPointwise(s, e, u);
    CreatesFromEmpty(s, e, u);
    if e.Report? {
      ReportSettles(s, e, u);
    } else if e.Exit? {
      DisconnectSettles(At(s, u), x.lost, e.env.now, Readable(e.env, u), Durable(e.env, u));
    } else if e.Tick? {
      TickSettles(u, At(s, u), x, e.env);
    } else {
      OtherSettles(u, At(s, u), e, x);
    }
  }

  lemma StartSettles(s: State, e: Event, u: DataflowId)
    requires Enabled(s, e) && Starts(s, e, u)
    ensures u in Step(s, e).slots && At(Step(s, e), u).live.Some?
    ensures var df, p := At(Step(s, e), u).live.value, e.started.value;
            && df.pendingDaemons == (if |p.daemons| > 1 then p.daemons else {})
            && df.pendingSpawn == p.daemons && df.daemons == p.daemons && df.spawn == SpawnPending([])
            && df.spawnStartedAt == e.env.now
    ensures Broadcasts(At(Step(s, e), u).out) == 0
  {
    StepIsPointwise(s, e, u);
    assert At(s, u) == EMPTY_SLOT;
  }

  // ----- over runs ---------------------------------------------------------

  /** While its entry lives, a dataflow waits for exactly those of its daemons that have
      neither been heard of nor lost since it started; a dataflow on one daemon awaits
      nobody's readiness. */
  lemma {:induction false} AwaitedSinceStart(states: seq<State>, events: seq<Event>, u: DataflowId, b: nat, n: nat,
                                             d: DaemonId)
    requires IsRun(states, events) && Inv(states[0]) && b < n <= |events| && Starts(states[b], events[b], u)
    requires LiveSince(states, u, b, n)
    ensures u in states[n].slots && At(states[n], u).live.Some?
    ensures var df, p := At(states[n], u).live.value, events[b].started.value;
            && (d in df.pendingDaemons <==>
                  |p.daemons| > 1 && d in p.daemons && !ReadySince(states, events, u, d, b, n))
            && (df.spawn.SpawnPending? ==>
                  (d in df.pendingSpawn <==> d in p.daemons && !SpawnedSince(states, events, u, d, b, n)))
    decreases n
  {
    assert Steps(states, events, n - 1);
    if n == b + 1 {
      StartSettles(states[b], events[b], u);
    } else {
      AwaitedSinceStart(states, events, u, b, n - 1, d);
      InvRun(states, events, n - 1);
      SettleStep(states[n - 1], events[n - 1], u, d);
      SinceGrows(states, events, u, d, b, n);
    }
  }

  lemma SinceGrows(states: seq<State>, events: seq<Event>, u: DataflowId, d: DaemonId, b: nat, n: nat)
    requires b + 1 < n <= |events| && n <= |states|
    ensures ReadySince(states, events, u, d, b, n) <==>
              ReadySince(states, events, u, d, b, n - 1) || SettlesReady(states[n - 1], events[n - 1], u, d)
    ensures SpawnedSince(states, events, u, d, b, n) <==>
              SpawnedSince(states, events, u, d, b, n - 1) || SettlesSpawn(states[n - 1], events[n - 1], u, d)
  {
  }

  // ----- when the barrier is released --------------------------------------

  lemma {:induction false} ReconcileBroadcastsNothing(u: DataflowId, slot: Slot, d: DaemonId, entries: seq<StatusEntry>,
                                                      archived: bool, connected: bool, now: Millis, readable: bool,
                                                      durable: bool)
    ensures Broadcasts(ReconcileAll(u, slot, d, entries, archived, connected, now, readable, durable).out)
         == Broadcasts(slot.out)
    decreases |entries|
  {
    if entries != [] {
      var s1 := if entries[0].uuid == u
                then ReconcileSlot(slot, d, entries[0].nodes, archived, connected, now, readable, durable)
                else slot;
      EntryBroadcastsNothing(slot, d, entries[0].nodes, archived, connected, now, readable, durable);
      ReconcileBroadcastsNothing(u, s1, d, entries[1..], archived, connected, now, readable, durable);
    }
  }

  lemma EntryBroadcastsNothing(slot: Slot, d: DaemonId, nodes: seq<NodeId>, archived: bool, connected: bool, now: Millis,
                               readable: bool, durable: bool)
    ensures Broadcasts(ReconcileSlot(slot, d, nodes, archived, connected, now, readable, durable).out)
         == Broadcasts(slot.out)
  {
    var out' := ReconcileSlot(slot, d, nodes, archived, connected, now, readable, durable).out;
    assert out' == slot.out || exists o: Output :: out' == slot.out + [o] && !o.BarrierBroadcast?;
    if out' != slot.out {
      var o: Output :| out' == slot.out + [o] && !o.BarrierBroadcast?;
      OneMore(slot.out, o);
    }
  }

  lemma OneMore(out: seq<Output>, o: Output)
    ensures Broadcasts(out + [o]) == Broadcasts(out) + if o.BarrierBroadcast? then 1 else 0
  {
    BroadcastsConcat(out, [o]);
    assert [o][1..] == [];
  }

  lemma AnswersBroadcastNothing(out: seq<Output>, cs: seq<Caller>, answer: Answer)
    ensures Broadcasts(out + Reply(cs, answer)) == Broadcasts(out)
  {
    BroadcastsConcat(out, Reply(cs, answer));
    AnswersAreNoBroadcasts(cs, answer);
  }

  lemma CancelBroadcastsNothing(slot: Slot, reason: CancelReason)
    ensures Broadcasts(CancelRestart(slot, reason).out) == Broadcasts(slot.out)
  {
    if slot.restart.Some? {
      OneMore(slot.out, Answered(slot.restart.value.caller, RestartCancelled(reason)));
    }
  }

  lemma FailSpawnBroadcastsNothing(slot: Slot, df: Dataflow, results: Results, now: Millis, durable: bool)
    ensures Broadcasts(FailSpawn(slot, df, results, now, durable).out) == Broadcasts(slot.out)
  {
    var s1 := Persist(slot, df, Failed(true), now, durable);
    var s2 := Emit(s1, Reply(SpawnWaiters(df.spawn), SpawnFailed));
    var rollback := df.daemons - df.pendingSpawn;
    var s3 := if rollback == {} then s2 else Emit(s2, [Rollback(rollback)]);
    AnswersBroadcastNothing(s1.out, SpawnWaiters(df.spawn), SpawnFailed);
    OneMore(s2.out, Rollback(rollback));
    CancelBroadcastsNothing(s3, SpawnGaveUp);
    AnswersBroadcastNothing(CancelRestart(s3, SpawnGaveUp).out, df.stopWaiters, Stopped(results));
  }

  lemma FinishBroadcastsNothing(slot: Slot, d: DaemonId, results: Results, started: Option<Placement>, now: Millis,
                                durable: bool)
    ensures Broadcasts(FinishSlot(slot, d, results, started, now, durable).out) == Broadcasts(slot.out)
  {
    if slot.live.Some? {
      var df := slot.live.value;
      var out1 := slot.out + RestartOutcome(slot.restart, started);
      if slot.restart.Some? {
        OneMore(slot.out, RestartOutcome(slot.restart, started)[0]);
        assert RestartOutcome(slot.restart, started) == [RestartOutcome(slot.restart, started)[0]];
      } else {
        assert out1 == slot.out;
      }
      var stops, spawns := Reply(df.stopWaiters, Stopped(results)), Reply(SpawnWaiters(df.spawn), SpawnFailed);
      AnswersBroadcastNothing(out1, df.stopWaiters, Stopped(results));
      AnswersBroadcastNothing(out1 + stops, SpawnWaiters(df.spawn), SpawnFailed);
      assert out1 + (stops + spawns) == out1 + stops + spawns;
    }
  }

  lemma SpawnResultBroadcastsNothing(slot: Slot, d: DaemonId, ok: bool, archived: bool, results: Results, now: Millis,
                                     durable: bool)
    ensures Broadcasts(SpawnResultSlot(slot, d, ok, archived, results, now, durable).out) == Broadcasts(slot.out)
  {
    OneMore(slot.out, Rollback({d}));
    if slot.live.Some? {
      var df := slot.live.value.(pendingSpawn := slot.live.value.pendingSpawn - {d});
      FailSpawnBroadcastsNothing(slot, df, results, now, durable);
      AnswersBroadcastNothing(slot.out, SpawnWaiters(df.spawn), Spawned);
    }
  }

  lemma RequestBroadcastsNothing(u: DataflowId, slot: Slot, e: Event, x: Ctx)
    requires e.WaitForSpawn? || e.StartReq? || e.StopReq? || e.StopByName? || e.RestartReq? || e.RestartByName?
    ensures Broadcasts(SlotStep(u, slot, e, x).out) == Broadcasts(slot.out)
  {
    CancelBroadcastsNothing(slot, StoppedFirst);
    var mid := CancelRestart(slot, StoppedFirst);
    var out' := SlotStep(u, slot, e, x).out;
    assert out' == slot.out || out' == mid.out
           || (exists o: Output :: !o.BarrierBroadcast? && (out' == slot.out + [o] || out' == mid.out + [o]));
    if out' != slot.out && out' != mid.out {
      var o: Output :| !o.BarrierBroadcast? && (out' == slot.out + [o] || out' == mid.out + [o]);
      OneMore(slot.out, o);
      OneMore(mid.out, o);
    }
  }

  /** Only a ready report or a disconnect releases a barrier, and then nobody is awaited. */
  lemma BroadcastMeansNobodyAwaited(s: State, e: Event, u: DataflowId)
    requires Broadcasts(At(Step(s, e), u).out) != Broadcasts(At(s, u).out)
    ensures At(s, u).live.Some? && At(Step(s, e), u).live.Some?
    ensures At(Step(s, e), u).live.value.pendingDaemons == {}
    ensures (e.Ready? && e.uuid == u) || e.Exit? || e.Tick?
    ensures Broadcasts(At(Step(s, e), u).out) == Broadcasts(At(s, u).out) + 1
  {
    var x, slot := CtxOf(s, e, u), At(s, u);
    StepIsPointwise(s, e, u);
    match e
    case Exit(_, _, env) => DisconnectBroadcast(slot, x.lost, env.now, Readable(env, u), Durable(env, u));
    case Tick(_, _, env) => TickBroadcast(u, slot, x, env);
    case Report(d, entries, env) =>
      ReconcileBroadcastsNothing(u, slot, d, entries, x.archived, x.connected, env.now, Readable(env, u), Durable(env, u));
      RecoverBroadcastsNothing(ReconcileAll(u, slot, d, entries, x.archived, x.connected, env.now, Readable(env, u),
                                            Durable(env, u)), d, Reports(entries, u), x.connected, env.now);
    case Ready(v, d, exited, env) =>
      if u == v {
        ReadyBroadcast(slot, d, exited, env.now, Readable(env, u), Durable(env, u));
      }
    case Finished(v, d, result, started, env) =>
      FinishBroadcastsNothing(slot, d, KnownResults(x.results)[d := result], started, env.now, Durable(env, u));
    case SpawnReport(_, d, ok, env) =>
      SpawnResultBroadcastsNothing(slot, d, ok, x.archived, FailedResults(slot, x.results), env.now, Durable(env, u));
    case WaitForSpawn(_, _) => RequestBroadcastsNothing(u, slot, e, x);
    case StartReq(_, _, _, _, _, _) => RequestBroadcastsNothing(u, slot, e, x);
    case StopReq(_, _, _, _) => RequestBroadcastsNothing(u, slot, e, x);
    case StopByName(_, _, _, _) => RequestBroadcastsNothing(u, slot, e, x);
    case RestartReq(_, _, _, _) => RequestBroadcastsNothing(u, slot, e, x);
    case RestartByName(_, _, _, _) => RequestBroadcastsNothing(u, slot, e, x);
    case _ =>
  }

  lemma RecoverBroadcastsNothing(slot: Slot, d: DaemonId, reported: bool, connected: bool, now: Millis)
    ensures Broadcasts(AutoRecoverSlot(slot, d, reported, connected, now).out) == Broadcasts(slot.out)
  {
    if slot.live.Some? {
      OneMore(slot.out, Respawn(d, NodesOn(slot.live.value, d), now));
      assert slot.out + [] == slot.out;
    }
  }

  lemma ReadyBroadcast(slot: Slot, d: DaemonId, exited: seq<NodeId>, now: Millis, readable: bool, durable: bool)
    ensures slot.live.None? ==> ReadySlot(slot, d, exited, now, readable, durable) == slot
    ensures slot.live.Some? ==>
              var slot' := ReadySlot(slot, d, exited, now, readable, durable);
              && slot'.live.Some? && slot'.live.value.pendingDaemons == slot.live.value.pendingDaemons - {d}
              && Broadcasts(slot'.out) == Broadcasts(slot.out) + if slot'.live.value.pendingDaemons == {} then 1 else 0
  {
    if slot.live.Some? {
      var df := slot.live.value;
      OneMore(slot.out, BarrierBroadcast(df.daemons, df.exited + exited));
    }
  }

  lemma DisconnectBroadcast(slot: Slot, lost: set<DaemonId>, now: Millis, readable: bool, durable: bool)
    ensures var slot' := DisconnectSlot(slot, lost, now, readable, durable);
            Broadcasts(slot'.out) != Broadcasts(slot.out) ==>
              && slot.live.Some? && slot'.live.Some? && slot'.live.value.pendingDaemons == {}
              && slot'.live.value.spawn.SpawnOk? && Broadcasts(slot'.out) == Broadcasts(slot.out) + 1
  {
    if slot.live.Some? {
      BatchActsOnce(slot, lost, now, readable, durable);
      if slot.live.value.pendingDaemons <= lost {
        assert slot.live.value.pendingDaemons - lost == {};
      }
    }
  }

  lemma TickBroadcast(u: DataflowId, slot: Slot, x: Ctx, env: Env)
    ensures var slot' := TickSlot(u, slot, x, env);
            Broadcasts(slot'.out) != Broadcasts(slot.out) ==>
              && slot.live.Some? && slot'.live.Some? && slot'.live.value.pendingDaemons == {}
              && Broadcasts(slot'.out) == Broadcasts(slot.out) + 1
  {
    DisconnectBroadcast(slot, x.lost, env.now, Readable(env, u), Durable(env, u));
    var s1 := DisconnectSlot(slot, x.lost, env.now, Readable(env, u), Durable(env, u));
    if s1.live.Some? {
      FailSpawnBroadcastsNothing(s1, s1.live.value, FailedResults(s1, x.results), env.now, Durable(env, u));
    }
  }

  /** Main result. Whenever the barrier of a dataflow placed on several daemons is released,
      each of them has been ready, was lost, or reported the dataflow as running, since the
      dataflow started; or its entry was dropped and rebuilt in between. */
  lemma BarrierWaitsForEveryone(states: seq<State>, events: seq<Event>, u: DataflowId, b: nat, k: nat, d: DaemonId)
    requires IsRun(states, events) && Inv(states[0]) && b < k < |events| && Starts(states[b], events[b], u)
    requires |events[b].started.value.daemons| > 1 && d in events[b].started.value.daemons
    requires Broadcasts(At(states[k + 1], u).out) != Broadcasts(At(states[k], u).out)
    ensures ReadySince(states, events, u, d, b, k + 1) || exists j :: b < j <= k && At(states[j], u).live.None?
  {
    assert Steps(states, events, k);
    BroadcastMeansNobodyAwaited(states[k], events[k], u);
    if LiveSince(states, u, b, k) {
      AwaitedSinceStart(states, events, u, b, k + 1, d);
    }
  }

  /** The converse: while its entry lives, a ready report releases the barrier exactly if
      after it none of the placed daemons is still awaited. */
  lemma ReadyReleasesIff(states: seq<State>, events: seq<Event>, u: DataflowId, b: nat, k: nat)
    requires IsRun(states, events) && Inv(states[0]) && b < k < |events| && Starts(states[b], events[b], u)
    requires LiveSince(states, u, b, k) && events[k].Ready? && events[k].uuid == u
    ensures var p := events[b].started.value;
            Broadcasts(At(states[k + 1], u).out) == Broadcasts(At(states[k], u).out)
            + if |p.daemons| <= 1 || forall d :: d in p.daemons ==> ReadySince(states, events, u, d, b, k + 1)
              then 1 else 0
  {
    var s, e := states[k], events[k];
    assert Steps(states, events, k);
    StepIsPointwise(s, e, u);
    ReadyBroadcast(At(s, u), e.daemon, e.exited, e.env.now, Readable(e.env, u), Durable(e.env, u));
    NobodyAwaitedIff(states, events, u, b, k + 1);
  }

  lemma NobodyAwaitedIff(states: seq<State>, events: seq<Event>, u: DataflowId, b: nat, n: nat)
    requires IsRun(states, events) && Inv(states[0]) && b < n <= |events| && Starts(states[b], events[b], u)
    requires LiveSince(states, u, b, n)
    ensures At(states[n], u).live.value.pendingDaemons == {} <==>
              || |events[b].started.value.daemons| <= 1
              || forall d :: d in events[b].started.value.daemons ==> ReadySince(states, events, u, d, b, n)
  {
    var left, daemons := At(states[n], u).live.value.pendingDaemons, events[b].started.value.daemons;
    if left == {} && |daemons| > 1 {
      forall d | d in daemons
        ensures ReadySince(states, events, u, d, b, n)
      {
        AwaitedSinceStart(states, events, u, b, n, d);
      }
    } else if left != {} {
      var d :| d in left;
      AwaitedSinceStart(states, events, u, b, n, d);
    }
  }

  lemma NobodyLeft(ds: set<DaemonId>)
    ensures ds == {} <==> forall d :: d !in ds
  {
  }

  /** While its entry lives and nothing failed, a successful spawn report completes the spawn
      exactly if after it every placed daemon has reported its part, was lost, or reported
      the dataflow as running. */
  lemma SpawnCompletesIff(states: seq<State>, events: seq<Event>, u: DataflowId, b: nat, k: nat)
    requires IsRun(states, events) && Inv(states[0]) && b < k < |events| && Starts(states[b], events[b], u)
    requires LiveSince(states, u, b, k) && At(states[k], u).live.value.spawn.SpawnPending?
    requires events[k].SpawnReport? && events[k].uuid == u && events[k].ok
    ensures At(states[k + 1], u).live.Some?
    ensures At(states[k + 1], u).live.value.spawn.SpawnOk? <==>
              forall d :: d in events[b].started.value.daemons ==> SpawnedSince(states, events, u, d, b, k + 1)
    ensures At(states[k + 1], u).live.value.spawn.SpawnOk? || At(states[k + 1], u).live.value.spawn.SpawnPending?
  {
    var p, s, e := events[b].started.value, states[k], events[k];
    assert Steps(states, events, k);
    StepIsPointwise(s, e, u);
    var left := At(s, u).live.value.pendingSpawn - {e.daemon};
    forall d
      ensures d in left <==> d in p.daemons && !SpawnedSince(states, events, u, d, b, k + 1)
    {
      AwaitedSinceStart(states, events, u, b, k, d);
      SinceGrows(states, events, u, d, b, k + 1);
    }
    NobodyLeft(left);
  }

  // ----- a rebuilt entry does not wait -------------------------------------

  lemma {:induction false} RebuiltAwaitsNobody(u: DataflowId, slot: Slot, d: DaemonId, entries: seq<StatusEntry>,
                                               connected: bool, now: Millis)
    requires slot.record.Some? && slot.record.value.status in {Recovering, Running}
    requires slot.record.value.descriptor.resolves
    requires slot.live.Some? ==> slot.live.value.pendingDaemons == {}
    ensures var slot' := ReconcileAll(u, slot, d, entries, false, connected, now, true, true);
            && (slot'.live.Some? ==> slot'.live.value.pendingDaemons == {})
            && (slot'.live.Some? <==> slot.live.Some? || Reports(entries, u))
    decreases |entries|
  {
    if entries != [] {
      FirstOrLater(entries, u);
      var s1 := if entries[0].uuid == u
                then ReconcileSlot(slot, d, entries[0].nodes, false, connected, now, true, true)
                else slot;
      RebuiltAwaitsNobody(u, s1, d, entries[1..], connected, now);
    }
  }

  /** The exception is real: after a process restart, one daemon that comes back releases the
      barrier alone, although the other was never heard of. */
  lemma RebuiltBarrierDoesNotWait(states: seq<State>, events: seq<Event>, u: DataflowId, d: DaemonId, other: DaemonId)
    requires IsRun(states, events) && Inv(states[0]) && |events| == 4 && d != other
    requires events[0].StartReq? && Starts(states[0], events[0], u) && events[0].started.value.daemons == {d, other}
    requires events[0].descriptor.resolves && Durable(events[0].env, u)
    requires events[1].Boot? && events[1].env.listable && Durable(events[1].env, u)
    requires events[2].Report? && events[2].daemon == d && Reports(events[2].entries, u)
    requires Readable(events[2].env, u) && Durable(events[2].env, u)
    requires events[3].Ready? && events[3].uuid == u && events[3].daemon == d
    ensures Broadcasts(At(states[4], u).out) == Broadcasts(At(states[3], u).out) + 1
    ensures !ReadySince(states, events, u, other, 0, 4)
  {
    assert Steps(states, events, 0) && Steps(states, events, 1) && Steps(states, events, 2) && Steps(states, events, 3);
    NeverHeardOf(states, events, u, d, other);
    StartIsRecorded(states[0], events[0], u);
    BootParks(states[1], events[1], u);
    ComesBackReady(states[2], events[2], u);
    ReleasesAlone(states[3], events[3], u);
  }

  lemma NeverHeardOf(states: seq<State>, events: seq<Event>, u: DataflowId, d: DaemonId, other: DaemonId)
    requires |states| == 5 && |events| == 4 && d != other
    requires events[1].Boot? && events[2].Report? && events[2].daemon == d && events[3].Ready? && events[3].daemon == d
    ensures !ReadySince(states, events, u, other, 0, 4)
  {
    forall j | 0 < j < 4
      ensures !SettlesReady(states[j], events[j], u, other)
    {
      assert LostBy(states[j], events[j]) == {};
    }
  }

  lemma ReleasesAlone(s: State, e: Event, u: DataflowId)
    requires At(s, u).live.Some? && At(s, u).live.value.pendingDaemons == {} && e.Ready? && e.uuid == u
    ensures Broadcasts(At(Step(s, e), u).out) == Broadcasts(At(s, u).out) + 1
  {
    StepIsPointwise(s, e, u);
    ReadyBroadcast(At(s, u), e.daemon, e.exited, e.env.now, Readable(e.env, u), Durable(e.env, u));
  }

  lemma StartIsRecorded(s: State, e: Event, u: DataflowId)
    requires Enabled(s, e) && e.StartReq? && Starts(s, e, u) && Durable(e.env, u)
    ensures var slot' := At(Step(s, e), u);
            slot'.record.Some? && slot'.record.value.status == Pending && slot'.record.value.descriptor == e.descriptor
  {
    StepIsPointwise(s, e, u);
    assert At(s, u) == EMPTY_SLOT;
  }

  lemma BootParks(s: State, e: Event, u: DataflowId)
    requires e.Boot? && e.env.listable && Durable(e.env, u)
    requires At(s, u).record.Some? && At(s, u).record.value.status == Pending
    ensures var slot' := At(Step(s, e), u);
            && slot'.live.None? && slot'.record.Some? && slot'.record.value.status == Recovering
            && slot'.record.value.descriptor == At(s, u).record.value.descriptor
    ensures u !in Step(s, e).archived.items
  {
    StepIsPointwise(s, e, u);
  }

  lemma ComesBackReady(s: State, e: Event, u: DataflowId)
    requires At(s, u).live.None? && At(s, u).record.Some? && At(s, u).record.value.status == Recovering
    requires At(s, u).record.value.descriptor.resolves && u !in s.archived.items
    requires e.Report? && Reports(e.entries, u) && Readable(e.env, u) && Durable(e.env, u)
    ensures At(Step(s, e), u).live.Some? && At(Step(s, e), u).live.value.pendingDaemons == {}
  {
    StepIsPointwise(s, e, u);
    RebuiltAwaitsNobody(u, At(s, u), e.daemon, e.entries, e.daemon in s.conns, e.env.now);
  }
}
