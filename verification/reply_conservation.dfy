/** Reply conservation: no caller is lost and none is answered twice. */
module ReplyConservation {
  import opened Common
  import opened CoordinatorTypes
  import opened DataflowSlot
  import opened Coordinator

  /** How often `c` occurs in a list of callers. */
  function Times(cs: seq<Caller>, c: Caller): nat {
    if cs == [] then 0 else (if cs[0] == c then 1 else 0) + Times(cs[1..], c)
  }

  /** How many answers to `c` a stretch of output holds. */
  function AnswersTo(out: seq<Output>, c: Caller): nat {
    if out == [] then 0
    else (if out[0].Answered? && out[0].caller == c then 1 else 0) + AnswersTo(out[1..], c)
  }

  lemma {:induction false} TimesConcat(a: seq<Caller>, b: seq<Caller>, c: Caller)
    ensures Times(a + b, c) == Times(a, c) + Times(b, c)
  {
    if a == [] {
      assert a + b == b;
    } else {
      assert (a + b)[1..] == a[1..] + b;
      TimesConcat(a[1..], b, c);
    }
  }

  lemma {:induction false} AnswersConcat(a: seq<Output>, b: seq<Output>, c: Caller)
    ensures AnswersTo(a + b, c) == AnswersTo(a, c) + AnswersTo(b, c)
  {
    if a == [] {
      assert a + b == b;
    } else {
      assert (a + b)[1..] == a[1..] + b;
      AnswersConcat(a[1..], b, c);
    }
  }

  lemma {:induction false} AnswersOfReply(cs: seq<Caller>, answer: Answer, c: Caller)
    ensures AnswersTo(Reply(cs, answer), c) == Times(cs, c)
  {
    if cs != [] {
      assert Reply(cs, answer)[1..] == Reply(cs[1..], answer);
      AnswersOfReply(cs[1..], answer, c);
    }
  }

  /** How often `c` waits on a live dataflow: for its stop or for its spawn. */
  function WaitsOn(live: Option<Dataflow>, c: Caller): nat {
    if live.None? then 0
    else Times(live.value.stopWaiters, c) + Times(SpawnWaiters(live.value.spawn), c)
  }

  /** How often `c` is parked in a slot, counting a deferred restart. */
  function Parked(slot: Slot, c: Caller): nat {
    WaitsOn(slot.live, c) + (if slot.restart.Some? && slot.restart.value.caller == c then 1 else 0)
  }

  /** Times `c` is parked plus times it was answered. */
  function Account(slot: Slot, c: Caller): nat {
    Parked(slot, c) + AnswersTo(slot.out, c)
  }

  lemma EmitAccount(slot: Slot, outs: seq<Output>, c: Caller)
    ensures Account(Emit(slot, outs), c) == Account(slot, c) + AnswersTo(outs, c)
  {
    AnswersConcat(slot.out, outs, c);
  }

  lemma CancelAccount(slot: Slot, reason: CancelReason, c: Caller)
    ensures Account(CancelRestart(slot, reason), c) == Account(slot, c)
  {
    if slot.restart.Some? {
      EmitAccount(slot.(restart := None), [Answered(slot.restart.value.caller, RestartCancelled(reason))], c);
    }
  }

  lemma ReleaseAccount(slot: Slot, df: Dataflow, now: Millis, readable: bool, durable: bool, c: Caller)
    requires WaitsOn(slot.live, c) == WaitsOn(Some(df), c)
    ensures Account(ReleaseBarrier(slot, df, now, readable, durable), c) == Account(slot, c)
  {
    var df' := df.(barrierReleased := true);
    var s1 := Persist(slot, df', BarrierStatus(slot, df', readable), now, durable);
    EmitAccount(s1, [BarrierBroadcast(df'.daemons, df'.exited)], c);
  }

  lemma ReclaimAccount(slot: Slot, df: Dataflow, now: Millis, durable: bool, c: Caller)
    requires WaitsOn(slot.live, c) == WaitsOn(Some(df), c) && !df.spawn.SpawnPending?
    ensures Account(Reclaim(slot, df, now, durable), c) == Account(slot, c)
  {
    AnswersOfReply(df.stopWaiters, Stopped(map[]), c);
    EmitAccount(Persist(slot, df, Recovering, now, durable).(live := None), Reply(df.stopWaiters, Stopped(map[])), c);
  }

  lemma DisconnectAccount(slot: Slot, lost: set<DaemonId>, now: Millis, readable: bool, durable: bool, c: Caller)
    ensures Account(DisconnectSlot(slot, lost, now, readable, durable), c) == Account(slot, c)
  {
    if slot.live.Some? && Affected(slot.live.value, lost) {
      var df := Prune(slot.live.value, lost);
      CancelAccount(slot, DaemonLost, c);
      var s1 := CancelRestart(slot, DaemonLost).(live := Some(df));
      if Orphaned(slot.live.value, lost) {
        ReclaimAccount(s1, df, now, durable, c);
      } else if BarrierFreed(slot.live.value, lost) {
        ReleaseAccount(s1, df, now, readable, durable, c);
      }
    }
  }

  lemma FinishAccount(slot: Slot, d: DaemonId, results: Results, started: Option<Placement>, now: Millis,
                      durable: bool, c: Caller)
    ensures Account(FinishSlot(slot, d, results, started, now, durable), c) == Account(slot, c)
  {
    if Completes(slot, d) {
      var df := slot.live.value.(daemons := slot.live.value.daemons - {d});
      var s1 := Emit(slot.(restart := None), RestartOutcome(slot.restart, started));
      EmitAccount(slot.(restart := None), RestartOutcome(slot.restart, started), c);
      var s2 := Persist(s1, df, Verdict(results), now, durable).(live := None);
      var stops := Reply(df.stopWaiters, Stopped(results));
      var spawns := Reply(SpawnWaiters(df.spawn), SpawnFailed);
      EmitAccount(s2, stops + spawns, c);
      AnswersConcat(stops, spawns, c);
      AnswersOfReply(df.stopWaiters, Stopped(results), c);
      AnswersOfReply(SpawnWaiters(df.spawn), SpawnFailed, c);
    }
  }

  /** Tearing down answers the stop waiters; the spawn waiters were answered before. */
  lemma TearDownAccount(slot: Slot, df: Dataflow, rollback: set<DaemonId>, results: Results, c: Caller)
    requires WaitsOn(slot.live, c) == WaitsOn(Some(df), c)
    ensures Account(TearDown(slot, df, rollback, results), c)
         == Account(slot, c) - Times(SpawnWaiters(df.spawn), c)
  {
    var s1 := if rollback == {} then slot else Emit(slot, [Rollback(rollback)]);
    EmitAccount(slot, [Rollback(rollback)], c);
    CancelAccount(s1, SpawnGaveUp, c);
    var s2 := CancelRestart(s1, SpawnGaveUp);
    EmitAccount(s2.(live := None), Reply(df.stopWaiters, Stopped(results)), c);
    AnswersOfReply(df.stopWaiters, Stopped(results), c);
  }

  lemma FailSpawnAccount(slot: Slot, df: Dataflow, results: Results, now: Millis, durable: bool, c: Caller)
    requires WaitsOn(slot.live, c) == WaitsOn(Some(df), c)
    ensures Account(FailSpawn(slot, df, results, now, durable), c) == Account(slot, c)
  {
    var s1 := Persist(slot, df, Failed(true), now, durable);
    var waiters := Reply(SpawnWaiters(df.spawn), SpawnFailed);
    EmitAccount(s1, waiters, c);
    AnswersOfReply(SpawnWaiters(df.spawn), SpawnFailed, c);
    TearDownAccount(Emit(s1, waiters), df, df.daemons - df.pendingSpawn, results, c);
  }

  lemma SpawnResultAccount(slot: Slot, d: DaemonId, ok: bool, archived: bool, results: Results, now: Millis,
                           durable: bool, c: Caller)
    ensures Account(SpawnResultSlot(slot, d, ok, archived, results, now, durable), c) == Account(slot, c)
  {
    if slot.live.None? {
      EmitAccount(slot, [Rollback({d})], c);
    } else {
      var df := slot.live.value.(pendingSpawn := slot.live.value.pendingSpawn - {d});
      if SpawnFails(slot, ok) {
        FailSpawnAccount(slot, df, results, now, durable, c);
      } else if df.spawn.SpawnPending? {
        EmitAccount(slot, Reply(df.spawn.waiters, Spawned), c);
        AnswersOfReply(df.spawn.waiters, Spawned, c);
      }
    }
  }

  lemma TickAccount(u: DataflowId, slot: Slot, x: Ctx, env: Env, c: Caller)
    ensures Account(TickSlot(u, slot, x, env), c) == Account(slot, c)
  {
    DisconnectAccount(slot, x.lost, env.now, Readable(env, u), Durable(env, u), c);
    var s1 := DisconnectSlot(slot, x.lost, env.now, Readable(env, u), Durable(env, u));
    if s1.live.Some? {
      FailSpawnAccount(s1, s1.live.value, FailedResults(s1, x.results), env.now, Durable(env, u), c);
    }
  }

  lemma ReestablishAccount(slot: Slot, r: Record, d: DaemonId, nodes: seq<NodeId>, connected: bool, now: Millis,
                           c: Caller)
    ensures Account(Reestablish(slot, r, d, nodes, connected, now), c) == Account(slot, c)
  {
    var df := if slot.live.Some? then Relink(slot.live.value, d, nodes) else Recovered(r, d, nodes, now);
    EmitAccount(slot.(live := Some(df)), [BarrierReplay(d, df.exited)], c);
  }

  lemma ReconcileAccount(slot: Slot, d: DaemonId, nodes: seq<NodeId>, archived: bool, connected: bool, now: Millis,
                         readable: bool, durable: bool, c: Caller)
    ensures Account(ReconcileSlot(slot, d, nodes, archived, connected, now, readable, durable), c) == Account(slot, c)
  {
    EmitAccount(slot, [StopOrphan(d)], c);
    if slot.record.Some? {
      var r := slot.record.value;
      var r' := r.(status := Running, generation := r.generation + 1, updatedAt := now);
      ReestablishAccount(slot, r, d, nodes, connected, now, c);
      ReestablishAccount(slot.(record := if durable then Some(r') else slot.record), r', d, nodes, connected, now, c);
    }
  }

  lemma {:induction false} ReconcileAllAccount(u: DataflowId, slot: Slot, d: DaemonId, entries: seq<StatusEntry>,
                                               archived: bool, connected: bool, now: Millis, readable: bool,
                                               durable: bool, c: Caller)
    ensures Account(ReconcileAll(u, slot, d, entries, archived, connected, now, readable, durable), c)
         == Account(slot, c)
    decreases |entries|
  {
    if entries != [] {
      ReconcileAccount(slot, d, entries[0].nodes, archived, connected, now, readable, durable, c);
      var s1 := if entries[0].uuid == u
                then ReconcileSlot(slot, d, entries[0].nodes, archived, connected, now, readable, durable)
                else slot;
      ReconcileAllAccount(u, s1, d, entries[1..], archived, connected, now, readable, durable, c);
    }
  }

  lemma AutoRecoverAccount(slot: Slot, d: DaemonId, reported: bool, connected: bool, now: Millis, c: Caller)
    ensures Account(AutoRecoverSlot(slot, d, reported, connected, now), c) == Account(slot, c)
  {
    if slot.live.Some? {
      var df := slot.live.value;
      var s1 := slot.(live := Some(df.(lastRecovery := df.lastRecovery[d := now])));
      EmitAccount(s1, [Respawn(d, NodesOn(df, d), now)], c);
      EmitAccount(s1, [], c);
    }
  }

  lemma StopAccount(slot: Slot, who: Caller, acks: set<DaemonId>, results: Option<Results>, now: Millis, durable: bool,
                    c: Caller)
    ensures Account(StopSlot(slot, who, acks, results, now, durable), c) == Account(slot, c) + Times([who], c)
  {
    CancelAccount(slot, StoppedFirst, c);
    var s := CancelRestart(slot, StoppedFirst);
    if s.live.None? {
      EmitAccount(s, [Answered(who, if results.Some? then Stopped(results.value) else UnknownDataflow)], c);
    } else if !(s.live.value.daemons <= acks) {
      EmitAccount(s, [Answered(who, StopRejected)], c);
    } else {
      TimesConcat(s.live.value.stopWaiters, [who], c);
    }
  }

  lemma RestartAccount(slot: Slot, who: Caller, acks: set<DaemonId>, now: Millis, durable: bool, c: Caller)
    ensures Account(RestartSlot(slot, who, acks, now, durable), c) == Account(slot, c) + Times([who], c)
  {
    if slot.restart.Some? {
      EmitAccount(slot, [Answered(who, AlreadyRestarting)], c);
    } else if slot.live.None? {
      EmitAccount(slot, [Answered(who, UnknownDataflow)], c);
    } else if !(slot.live.value.daemons <= acks) {
      EmitAccount(slot, [Answered(who, StopRejected)], c);
    }
  }

  lemma WaitAccount(slot: Slot, who: Caller, c: Caller)
    ensures Account(WaitForSpawnSlot(slot, who), c) == Account(slot, c) + Times([who], c)
  {
    if slot.live.None? {
      EmitAccount(slot, [Answered(who, UnknownDataflow)], c);
    } else {
      match slot.live.value.spawn
      case SpawnPending(ws) => TimesConcat(ws, [who], c);
      case SpawnOk => EmitAccount(slot, [Answered(who, Spawned)], c);
      case SpawnErr => EmitAccount(slot, [Answered(who, SpawnFailed)], c);
    }
  }

  lemma ReadyAccount(slot: Slot, d: DaemonId, exited: seq<NodeId>, now: Millis, readable: bool, durable: bool,
                     c: Caller)
    ensures Account(ReadySlot(slot, d, exited, now, readable, durable), c) == Account(slot, c)
  {
    if slot.live.Some? {
      var df := slot.live.value.(pendingDaemons := slot.live.value.pendingDaemons - {d},
                                 exited := slot.live.value.exited + exited);
      ReleaseAccount(slot, df, now, readable, durable, c);
    }
  }

  lemma StartAccount(slot: Slot, p: Placement, name: Option<string>, descriptor: Descriptor, uv: bool, now: Millis,
                     durable: bool, who: Caller, c: Caller)
    requires slot.live.None?
    ensures Account(StartSlot(slot, p, name, descriptor, uv, now, durable), c) == Account(slot, c)
    ensures Account(Emit(StartSlot(slot, p, name, descriptor, uv, now, durable), [Answered(who, StartTriggered)]), c)
         == Account(slot, c) + Times([who], c)
  {
    EmitAccount(StartSlot(slot, p, name, descriptor, uv, now, durable), [Answered(who, StartTriggered)], c);
  }

  predicate Brings(u: DataflowId, e: Event, x: Ctx) {
    && (e.WaitForSpawn? || e.StopReq? || e.StopByName? || e.RestartReq? || e.RestartByName?
        || (e.StartReq? && e.started.Some?))
    && x.target == Some(u)
  }

  /** How often event `e` brings caller `c` to dataflow `u`: once or not at all. */
  function Issued(u: DataflowId, e: Event, x: Ctx, c: Caller): nat {
    if Brings(u, e, x) then Times([e.caller], c) else 0
  }

  predicate IsRequest(e: Event) {
    e.WaitForSpawn? || e.StartReq? || e.StopReq? || e.StopByName? || e.RestartReq? || e.RestartByName?
  }

  lemma EventConserves(u: DataflowId, slot: Slot, e: Event, x: Ctx, c: Caller)
    requires !e.Boot? && !IsRequest(e)
    requires (e.Finished? && u != e.uuid && e.started.Some? && e.started.value.uuid == u) ==> slot.live.None?
    ensures Account(SlotStep(u, slot, e, x), c) == Account(slot, c) + Issued(u, e, x, c)
  {
    match e
    case Exit(_, _, env) => DisconnectAccount(slot, x.lost, env.now, Readable(env, u), Durable(env, u), c);
    case Tick(_, _, env) => TickAccount(u, slot, x, env, c);
    case Report(d, entries, env) =>
      ReconcileAllAccount(u, slot, d, entries, x.archived, x.connected, env.now, Readable(env, u), Durable(env, u), c);
      var s1 := ReconcileAll(u, slot, d, entries, x.archived, x.connected, env.now, Readable(env, u), Durable(env, u));
      AutoRecoverAccount(s1, d, Reports(entries, u), x.connected, env.now, c);
    case Ready(_, d, exited, env) => ReadyAccount(slot, d, exited, env.now, Readable(env, u), Durable(env, u), c);
    case Finished(v, d, result, started, env) =>
      if u == v {
        FinishAccount(slot, d, KnownResults(x.results)[d := result], started, env.now, Durable(env, u), c);
      } else if x.launch.Some? && started.Some? && started.value.uuid == u {
        var r := x.launch.value;
        StartAccount(slot, started.value, r.name, r.descriptor, r.uv, env.now, Durable(env, u), 0, c);
      }
    case SpawnReport(_, d, ok, env) =>
      SpawnResultAccount(slot, d, ok, x.archived, FailedResults(slot, x.results), env.now, Durable(env, u), c);
    case _ =>
  }

  lemma RequestConserves(u: DataflowId, slot: Slot, e: Event, x: Ctx, c: Caller)
    requires IsRequest(e)
    requires e.WaitForSpawn? ==> x.target == Some(e.uuid)
    requires (e.StartReq? && Brings(u, e, x)) ==> slot.live.None?
    ensures Account(SlotStep(u, slot, e, x), c) == Account(slot, c) + Issued(u, e, x, c)
  {
    match e
    case WaitForSpawn(_, who) => WaitAccount(slot, who, c);
    case StartReq(who, name, descriptor, uv, started, env) =>
      if x.target == Some(u) && started.Some? {
        StartAccount(slot, started.value, name, descriptor, uv, env.now, Durable(env, u), who, c);
      }
    case StopReq(_, who, acks, env) => StopAccount(slot, who, acks, x.results, env.now, Durable(env, u), c);
    case StopByName(_, who, acks, env) => StopAccount(slot, who, acks, x.results, env.now, Durable(env, u), c);
    case RestartReq(_, who, acks, env) => RestartAccount(slot, who, acks, env.now, Durable(env, u), c);
    case RestartByName(_, who, acks, env) => RestartAccount(slot, who, acks, env.now, Durable(env, u), c);
  }

  lemma SlotConserves(u: DataflowId, slot: Slot, e: Event, x: Ctx, c: Caller)
    requires !e.Boot?
    requires e.WaitForSpawn? ==> x.target == Some(e.uuid)
    requires (e.StartReq? && Brings(u, e, x)) ==> slot.live.None?
    requires (e.Finished? && u != e.uuid && e.started.Some? && e.started.value.uuid == u) ==> slot.live.None?
    ensures Account(SlotStep(u, slot, e, x), c) == Account(slot, c) + Issued(u, e, x, c)
  {
    if IsRequest(e) {
      RequestConserves(u, slot, e, x, c);
    } else {
      EventConserves(u, slot, e, x, c);
    }
  }

  /** One step keeps every account: it grows by exactly the caller that the event
      brought. Only a process restart drops callers. */
  lemma StepConserves(s: State, e: Event, u: DataflowId, c: Caller)
    requires Enabled(s, e) && !e.Boot?
    ensures Account(At(Step(s, e), u), c) == Account(At(s, u), c) + Issued(u, e, CtxOf(s, e, u), c)
  {
    StepIsPointwise(s, e, u);
    SlotConserves(u, At(s, u), e, CtxOf(s, e, u), c);
  }

  /** How often a run brought caller `c` to dataflow `u`. */
  ghost function IssuedInRun(states: seq<State>, events: seq<Event>, u: DataflowId, c: Caller, n: nat): nat
    requires n <= |events| && n <= |states|
  {
    if n == 0 then 0
    else IssuedInRun(states, events, u, c, n - 1) + Issued(u, events[n - 1], CtxOf(states[n - 1], events[n - 1], u), c)
  }

  /** In every run of one coordinator process: for every dataflow and every caller,
      the times it is parked plus the times it was answered is the number of
      requests that brought it. A caller that came once is therefore either parked
      in exactly one place or was answered exactly once. */
  lemma {:induction false} RepliesAreConserved(states: seq<State>, events: seq<Event>, u: DataflowId, c: Caller, n: nat)
    requires IsRun(states, events) && states[0] == INITIAL && n <= |events|
    requires forall i :: 0 <= i < |events| ==> !events[i].Boot?
    ensures Account(At(states[n], u), c) == IssuedInRun(states, events, u, c, n)
  {
    if n > 0 {
      assert Steps(states, events, n - 1);
      RepliesAreConserved(states, events, u, c, n - 1);
      StepConserves(states[n - 1], events[n - 1], u, c);
    }
  }
}
