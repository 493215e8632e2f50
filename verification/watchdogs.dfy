/** Time limits: when a daemon is given up, when a spawn, and when a dataflow that waits for
    its daemons; and what each message does to a connection. */
module Watchdogs {
  import opened Common
  import opened CoordinatorTypes
  import opened DataflowSlot
  import opened Coordinator
  import opened CoordinatorInvariants
  import opened ReadyBarrier
  import opened DataflowIdentity

  // ----- connections -------------------------------------------------------

  /** An accepted registration gives a machine one id, the one it had if it had one, and makes
      the new connection its only one; other machines are not touched. */
  lemma RegisterIs(s: State, e: Event, d: DaemonId)
    requires e.Register? && OneIdPerMachine(s.conns)
    ensures !e.accepted ==> Step(s, e).conns == s.conns
    ensures e.accepted && d.machine != e.machine ==> Lookup(Step(s, e).conns, d) == Lookup(s.conns, d)
    ensures e.accepted && d.machine == e.machine && d in s.conns ==> Lookup(Step(s, e).conns, d) == Some(e.conn)
    ensures e.accepted ==> exists x :: x in Step(s, e).conns && x.machine == e.machine && Step(s, e).conns[x] == e.conn
  {
    if e.accepted {
      var x := RegisteredId(s.conns, e.machine, e.freshUuid);
      assert x in Step(s, e).conns && Step(s, e).conns[x] == e.conn;
    }
  }

  /** A heartbeat moves the time of its sender, if registered, and nothing else. */
  lemma HeartbeatIs(s: State, e: Event, d: DaemonId)
    requires e.Heartbeat?
    ensures d != e.daemon || d !in s.conns ==> Lookup(Step(s, e).conns, d) == Lookup(s.conns, d)
    ensures d == e.daemon && d in s.conns ==>
              d in Step(s, e).conns && Step(s, e).conns[d] == s.conns[d].(lastHeartbeat := e.env.now)
  {
  }

  /** An endpoint report moves the endpoint of its sender's current connection, and nothing
      else. */
  lemma EndpointIs(s: State, e: Event, d: DaemonId)
    requires e.Endpoint?
    ensures d == e.daemon && d in s.conns && s.conns[d].id == e.connection ==>
              d in Step(s, e).conns && Step(s, e).conns[d] == s.conns[d].(endpoint := e.endpoint)
    ensures !(d == e.daemon && d in s.conns && s.conns[d].id == e.connection) ==>
              Lookup(Step(s, e).conns, d) == Lookup(s.conns, d)
  {
  }

  // ----- when a daemon is given up -----------------------------------------

  predicate TimedOutIn(e: Event, d: DaemonId) {
    e.Tick? && d in e.sends && e.sends[d] == TimedOut
  }

  /** How many of the latest ticks in a row could not reach `d`, over its current connection. */
  ghost function TimeoutsInARow(states: seq<State>, events: seq<Event>, d: DaemonId, n: nat): nat
    requires n <= |events| && n <= |states|
  {
    if n == 0 then 0
    else
      var e := events[n - 1];
      if e.Tick? then if TimedOutIn(e, d) then TimeoutsInARow(states, events, d, n - 1) + 1 else 0
      else if Reconnects(states[n - 1], e, d) then 0
      else TimeoutsInARow(states, events, d, n - 1)
  }

  ghost predicate Reconnects(s: State, e: Event, d: DaemonId) {
    e.Register? && e.accepted && RegisteredId(s.conns, e.machine, e.freshUuid) == d
  }

  /** A tick gives up a daemon exactly if it was silent for more than 30 seconds, the
      heartbeat to it failed, or this is the tenth time in a row that it timed out. */
  lemma GivenUpIff(s: State, e: Event, d: DaemonId)
    requires e.Tick? && d in s.conns && s.conns[d].sendTimeouts < 10
    ensures d !in Step(s, e).conns <==>
              || e.env.now > s.conns[d].lastHeartbeat + 30_000
              || (d in e.sends && e.sends[d] == SendFailed)
              || (TimedOutIn(e, d) && s.conns[d].sendTimeouts == 9)
    ensures d in LostBy(s, e) <==> d !in Step(s, e).conns
    ensures d in Step(s, e).conns ==>
              Step(s, e).conns[d]
              == s.conns[d].(sendTimeouts := if TimedOutIn(e, d) then s.conns[d].sendTimeouts + 1 else 0)
  {
  }

  lemma CountsOtherEvents(s: State, e: Event, d: DaemonId)
    requires Enabled(s, e) && !e.Tick? && d in Step(s, e).conns
    ensures Reconnects(s, e, d) ==> Step(s, e).conns[d].sendTimeouts == 0
    ensures !Reconnects(s, e, d) ==> d in s.conns && Step(s, e).conns[d].sendTimeouts == s.conns[d].sendTimeouts
  {
  }

  /** The counter of a connection is the number of timeouts in a row, and below ten. */
  lemma {:induction false} CountsTimeouts(states: seq<State>, events: seq<Event>, d: DaemonId, n: nat)
    requires IsRun(states, events) && states[0] == INITIAL && n <= |events| && d in states[n].conns
    ensures states[n].conns[d].sendTimeouts == TimeoutsInARow(states, events, d, n) < 10
  {
    if n > 0 {
      var s, e := states[n - 1], events[n - 1];
      assert Steps(states, events, n - 1);
      if e.Tick? {
        assert d in s.conns;
        CountsTimeouts(states, events, d, n - 1);
        GivenUpIff(s, e, d);
      } else {
        CountsOtherEvents(s, e, d);
        if !Reconnects(s, e, d) {
          CountsTimeouts(states, events, d, n - 1);
        }
      }
    }
  }

  /** Over runs: a tick gives up a connected daemon exactly if it was silent for more than 30
      seconds, the heartbeat failed, or ten ticks in a row timed out over this connection. */
  lemma GivenUpInRunIff(states: seq<State>, events: seq<Event>, d: DaemonId, n: nat)
    requires IsRun(states, events) && states[0] == INITIAL && n < |events| && events[n].Tick? && d in states[n].conns
    ensures d !in states[n + 1].conns <==>
              || events[n].env.now > states[n].conns[d].lastHeartbeat + 30_000
              || (d in events[n].sends && events[n].sends[d] == SendFailed)
              || TimeoutsInARow(states, events, d, n + 1) == 10
  {
    assert Steps(states, events, n);
    CountsTimeouts(states, events, d, n);
    GivenUpIff(states[n], events[n], d);
  }

  // ----- when a spawn is given up ------------------------------------------

  lemma {:induction false} BirthIsKept(states: seq<State>, events: seq<Event>, u: DataflowId, b: nat, n: nat)
    requires IsRun(states, events) && Inv(states[0]) && b < n <= |events| && Starts(states[b], events[b], u)
    requires LiveSince(states, u, b, n)
    ensures At(states[n], u).live.Some? && At(states[n], u).live.value.spawnStartedAt == events[b].env.now
    decreases n
  {
    assert Steps(states, events, n - 1);
    if n == b + 1 {
      StartSettles(states[b], events[b], u);
    } else {
      BirthIsKept(states, events, u, b, n - 1);
      InvRun(states, events, n - 1);
      IdentityIsKept(states, events, u, b, n - 1);
      IdentityStep(states[n - 1], events[n - 1], u, Origin(StartedAs(states[b], events[b]), events[b].env.now));
    }
  }

  /** A tick gives up a spawn that is still pending exactly if the dataflow was started more
      than 60 seconds before; the dataflow then leaves the live set. */
  lemma SpawnGivenUpIff(states: seq<State>, events: seq<Event>, u: DataflowId, b: nat, n: nat)
    requires IsRun(states, events) && Inv(states[0]) && b < n < |events| && Starts(states[b], events[b], u)
    requires LiveSince(states, u, b, n) && At(states[n], u).live.value.spawn.SpawnPending? && events[n].Tick?
    ensures At(states[n + 1], u).live.None? <==> events[n].env.now > events[b].env.now + 60_000
    ensures At(states[n + 1], u).live.None? && Durable(events[n].env, u) ==>
              At(states[n + 1], u).record.Some? && At(states[n + 1], u).record.value.status == Failed(true)
  {
    assert Steps(states, events, n);
    BirthIsKept(states, events, u, b, n);
    StepIsPointwise(states[n], events[n], u);
    TickGivesUpIff(u, At(states[n], u), CtxOf(states[n], events[n], u), events[n].env);
  }

  lemma TickGivesUpIff(u: DataflowId, slot: Slot, x: Ctx, env: Env)
    requires slot.live.Some? && slot.live.value.spawn.SpawnPending?
    ensures TickSlot(u, slot, x, env).live.None? <==> env.now > slot.live.value.spawnStartedAt + 60_000
    ensures TickSlot(u, slot, x, env).live.None? && Durable(env, u) ==>
              TickSlot(u, slot, x, env).record.Some? && TickSlot(u, slot, x, env).record.value.status == Failed(true)
  {
    var mid := DisconnectSlot(slot, x.lost, env.now, Readable(env, u), Durable(env, u));
    assert mid.live.Some? && mid.live.value.spawn == slot.live.value.spawn
           && mid.live.value.spawnStartedAt == slot.live.value.spawnStartedAt;
    FailSpawnShrinks(mid, mid.live.value, FailedResults(mid, x.results), env.now, Durable(env, u));
    FailIsTerminal(mid, mid.live.value, FailedResults(mid, x.results), env.now, Durable(env, u));
  }

  lemma FailIsTerminal(slot: Slot, df: Dataflow, results: Results, now: Millis, durable: bool)
    ensures var slot' := FailSpawn(slot, df, results, now, durable);
            slot'.live.None? && (durable ==> slot'.record.Some? && slot'.record.value.status == Failed(true))
  {
  }

  // ----- when a waiting dataflow is given up -------------------------------

  /** Whatever changes a record stamps it with the time of the event. */
  predicate Stamped(slot: Slot, slot': Slot, now: Millis) {
    slot'.record.Some? && slot'.record != slot.record ==> slot'.record.value.updatedAt == now
  }

  lemma {:induction false} ReconcileAllStamps(u: DataflowId, slot: Slot, d: DaemonId, entries: seq<StatusEntry>,
                                              archived: bool, connected: bool, now: Millis, readable: bool, durable: bool)
    ensures Stamped(slot, ReconcileAll(u, slot, d, entries, archived, connected, now, readable, durable), now)
    decreases |entries|
  {
    if entries != [] {
      var s1 := if entries[0].uuid == u
                then ReconcileSlot(slot, d, entries[0].nodes, archived, connected, now, readable, durable)
                else slot;
      ReconcileAllStamps(u, s1, d, entries[1..], archived, connected, now, readable, durable);
    }
  }

  lemma TickStamps(u: DataflowId, slot: Slot, x: Ctx, env: Env)
    ensures Stamped(slot, TickSlot(u, slot, x, env), env.now)
  {
    var mid := DisconnectSlot(slot, x.lost, env.now, Readable(env, u), Durable(env, u));
    if mid.live.Some? {
      FailStamps(mid, mid.live.value, FailedResults(mid, x.results), env.now, Durable(env, u));
    }
  }

  lemma FailStamps(slot: Slot, df: Dataflow, results: Results, now: Millis, durable: bool)
    ensures Stamped(slot, FailSpawn(slot, df, results, now, durable), now)
  {
  }

  lemma EventStamps(u: DataflowId, slot: Slot, e: Event, x: Ctx)
    requires !e.Register? && !e.Endpoint? && !e.WaitForSpawn?
    ensures Stamped(slot, SlotStep(u, slot, e, x), e.env.now)
  {
    match e
    case Tick(_, _, env) => TickStamps(u, slot, x, env);
    case Report(d, entries, env) =>
      ReconcileAllStamps(u, slot, d, entries, x.archived, x.connected, env.now, Readable(env, u), Durable(env, u));
    case SpawnReport(_, d, ok, env) =>
      if SpawnFails(slot, ok) {
        var df := slot.live.value.(pendingSpawn := slot.live.value.pendingSpawn - {d});
        FailStamps(slot, df, FailedResults(slot, x.results), env.now, Durable(env, u));
      }
    case _ =>
  }

  lemma ReclaimEndsIff(s: State, e: Event, u: DataflowId)
    requires e.Tick? && At(s, u).live.None? && At(s, u).record.Some? && At(s, u).record.value.status == Recovering
    ensures At(Step(s, e), u).live.None? && At(Step(s, e), u).record.Some?
    ensures var late := e.env.now > At(s, u).record.value.updatedAt + 60_000 && e.env.listable && Durable(e.env, u);
            && (late ==> At(Step(s, e), u).record.value.status == Failed(true))
            && (!late ==> At(Step(s, e), u).record == At(s, u).record)
  {
    StepIsPointwise(s, e, u);
  }

  /** The reclaim window: a dataflow that began to wait for its daemons at step `i` is given up
      by a later tick exactly if more than 60 seconds have passed since, and the store could be
      listed and written; until then its record stays. */
  lemma ReclaimWindow(states: seq<State>, events: seq<Event>, u: DataflowId, i: nat, n: nat)
    requires IsRun(states, events) && Inv(states[0]) && i < n < |events| && events[n].Tick?
    requires At(states[i + 1], u).record.Some? && At(states[i + 1], u).record != At(states[i], u).record
    requires At(states[i + 1], u).record.value.status == Recovering
    requires At(states[n], u).record == At(states[i + 1], u).record && At(states[n], u).live.None?
    ensures !events[i].Register? && !events[i].Endpoint? && !events[i].WaitForSpawn?
    ensures At(states[n + 1], u).record.Some?
    ensures var late := events[n].env.now > events[i].env.now + 60_000 && events[n].env.listable && Durable(events[n].env, u);
            && (late ==> At(states[n + 1], u).record.value.status == Failed(true))
            && (!late ==> At(states[n + 1], u).record == At(states[n], u).record)
  {
    assert Steps(states, events, i) && Steps(states, events, n);
    StampedInRun(states[i], events[i], u);
    ReclaimEndsIff(states[n], events[n], u);
  }

  lemma StampedInRun(s: State, e: Event, u: DataflowId)
    requires At(Step(s, e), u).record.Some? && At(Step(s, e), u).record != At(s, u).record
    ensures !e.Register? && !e.Endpoint? && !e.WaitForSpawn?
    ensures At(Step(s, e), u).record.value.updatedAt == e.env.now
  {
    StepIsPointwise(s, e, u);
    if !e.Register? && !e.Endpoint? && !e.WaitForSpawn? {
      EventStamps(u, At(s, u), e, CtxOf(s, e, u));
    }
  }
}
