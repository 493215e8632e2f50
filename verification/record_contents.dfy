/** What a persisted record holds: a picture of the live entry at the moment of the write, or
    the old picture with a new status. */
module RecordContents {
  import opened Common
  import opened CoordinatorTypes
  import opened DataflowSlot
  import opened Coordinator
  import opened CoordinatorInvariants
  import opened DisconnectConfluence
  import opened ReadyBarrier
  import opened AnswerMeaning

  predicate Shows(r: Record, df: Dataflow) {
    && r.name == df.name && r.descriptor == df.descriptor && r.uv == df.uv && r.daemons == df.daemons
    && r.nodeToDaemon == df.nodeToDaemon && r.exited == df.exited && r.barrierReleased == df.barrierReleased
    && r.createdAt == df.createdAt
  }

  /** Only the status, the version and the time differ. */
  predicate Restamped(r: Record, r': Record) {
    && r'.name == r.name && r'.descriptor == r.descriptor && r'.uv == r.uv && r'.daemons == r.daemons
    && r'.nodeToDaemon == r.nodeToDaemon && r'.exited == r.exited && r'.barrierReleased == r.barrierReleased
    && r'.createdAt == r.createdAt
  }

  /** A changed record is restamped, or it shows the entry as the event leaves it; if the event
      drops the entry, it shows it without the daemons that are gone. */
  predicate Pictured(slot: Slot, slot': Slot, gone: set<DaemonId>) {
    slot'.record.Some? && slot'.record != slot.record ==>
      || (slot.record.Some? && Restamped(slot.record.value, slot'.record.value))
      || (slot'.live.Some? && Shows(slot'.record.value, slot'.live.value))
      || (&& slot'.live.None? && slot.live.Some?
          && Shows(slot'.record.value, slot.live.value.(daemons := slot.live.value.daemons - gone)))
  }

  // ----- one event ---------------------------------------------------------

  lemma DisconnectPictures(slot: Slot, lost: set<DaemonId>, now: Millis, readable: bool, durable: bool)
    ensures Pictured(slot, DisconnectSlot(slot, lost, now, readable, durable), lost)
  {
  }

  lemma FailPictures(slot: Slot, df: Dataflow, results: Results, now: Millis, durable: bool)
    ensures var slot' := FailSpawn(slot, df, results, now, durable);
            slot'.record == slot.record || (slot'.record.Some? && Shows(slot'.record.value, df))
  {
  }

  lemma MidIs(slot: Slot, lost: set<DaemonId>, now: Millis, readable: bool, durable: bool)
    ensures var mid := DisconnectSlot(slot, lost, now, readable, durable);
            && (mid.live.Some? && mid.live.value.spawn.SpawnPending? ==>
                  && mid.record == slot.record && slot.live.Some?
                  && mid.live.value == Prune(slot.live.value, lost))
            && (mid.record != slot.record ==> mid.record.Some? && mid.record.value.updatedAt == now)
  {
    if slot.live.Some? && !Affected(slot.live.value, lost) {
      var df := slot.live.value;
      assert df.daemons - lost == df.daemons && df.pendingDaemons - lost == df.pendingDaemons
             && df.pendingSpawn - lost == df.pendingSpawn;
    }
  }

  lemma TickPictures(u: DataflowId, slot: Slot, x: Ctx, env: Env)
    ensures Pictured(slot, TickSlot(u, slot, x, env), x.lost)
  {
    var mid := MidTick(u, slot, x, env);
    DisconnectPictures(slot, x.lost, env.now, Readable(env, u), Durable(env, u));
    MidIs(slot, x.lost, env.now, Readable(env, u), Durable(env, u));
    TickEnds(u, slot, x, env);
    if mid.live.Some? && SpawnStuck(mid.live.value, env.now) {
      FailPictures(mid, mid.live.value, FailedResults(mid, x.results), env.now, Durable(env, u));
    }
  }

  lemma {:induction false} ReconcileRestamps(u: DataflowId, slot: Slot, d: DaemonId, entries: seq<StatusEntry>,
                                             archived: bool, connected: bool, now: Millis, readable: bool, durable: bool)
    ensures var slot' := ReconcileAll(u, slot, d, entries, archived, connected, now, readable, durable);
            && (slot.record.Some? <==> slot'.record.Some?)
            && (slot.record.Some? ==> Restamped(slot.record.value, slot'.record.value))
    decreases |entries|
  {
    if entries != [] {
      var s1 := if entries[0].uuid == u
                then ReconcileSlot(slot, d, entries[0].nodes, archived, connected, now, readable, durable)
                else slot;
      ReconcileRestamps(u, s1, d, entries[1..], archived, connected, now, readable, durable);
    }
  }

  lemma SpawnResultPictures(slot: Slot, d: DaemonId, ok: bool, archived: bool, results: Results, now: Millis, durable: bool)
    ensures Pictured(slot, SpawnResultSlot(slot, d, ok, archived, results, now, durable), {})
  {
    if SpawnFails(slot, ok) {
      var df := slot.live.value.(pendingSpawn := slot.live.value.pendingSpawn - {d});
      FailPictures(slot, df, results, now, durable);
      assert df.daemons - {} == df.daemons;
    }
  }

  lemma FinishPictures(slot: Slot, d: DaemonId, results: Results, started: Option<Placement>, now: Millis, durable: bool)
    ensures Pictured(slot, FinishSlot(slot, d, results, started, now, durable), {d})
  {
  }

  lemma RequestPictures(slot: Slot, c: Caller, acks: set<DaemonId>, results: Option<Results>, now: Millis, durable: bool)
    ensures Pictured(slot, StopSlot(slot, c, acks, results, now, durable), {})
    ensures Pictured(slot, RestartSlot(slot, c, acks, now, durable), {})
    ensures Pictured(slot, WaitForSpawnSlot(slot, c), {})
  {
  }

  lemma StartPictures(slot: Slot, p: Placement, name: Option<string>, descriptor: Descriptor, uv: bool, now: Millis,
                      durable: bool)
    ensures Pictured(slot, StartSlot(slot, p, name, descriptor, uv, now, durable), {})
  {
  }

  lemma ReadyPictures(slot: Slot, d: DaemonId, exited: seq<NodeId>, now: Millis, readable: bool, durable: bool)
    ensures Pictured(slot, ReadySlot(slot, d, exited, now, readable, durable), {})
  {
  }

  lemma ReportPictures(u: DataflowId, slot: Slot, e: Event, x: Ctx)
    requires e.Report?
    ensures Pictured(slot, SlotStep(u, slot, e, x), {})
  {
    var env := e.env;
    ReconcileRestamps(u, slot, e.daemon, e.entries, x.archived, x.connected, env.now, Readable(env, u), Durable(env, u));
  }

  lemma RequestEventPictures(u: DataflowId, slot: Slot, e: Event, x: Ctx)
    requires !e.Exit? && !e.Tick? && !e.Report? && !e.Ready? && !e.Finished? && !e.SpawnReport?
    ensures Pictured(slot, SlotStep(u, slot, e, x), {})
  {
    match e
    case WaitForSpawn(_, c) => RequestPictures(slot, c, {}, None, 0, true);
    case StartReq(_, name, descriptor, uv, started, env) =>
      if started.Some? {
        StartPictures(slot, started.value, name, descriptor, uv, env.now, Durable(env, u));
      }
    case StopReq(_, c, acks, env) => RequestPictures(slot, c, acks, x.results, env.now, Durable(env, u));
    case StopByName(_, c, acks, env) => RequestPictures(slot, c, acks, x.results, env.now, Durable(env, u));
    case RestartReq(_, c, acks, env) => RequestPictures(slot, c, acks, x.results, env.now, Durable(env, u));
    case RestartByName(_, c, acks, env) => RequestPictures(slot, c, acks, x.results, env.now, Durable(env, u));
    case _ =>
  }

  lemma FinishedPictures(u: DataflowId, slot: Slot, e: Event, x: Ctx)
    requires e.Finished?
    ensures Pictured(slot, SlotStep(u, slot, e, x), FinishedOn(u, e))
  {
    var env := e.env;
    if u == e.uuid {
      FinishPictures(slot, e.daemon, KnownResults(x.results)[e.daemon := e.result], e.started, env.now, Durable(env, u));
    } else if x.launch.Some? && e.started.Some? {
      var r := x.launch.value;
      StartPictures(slot, e.started.value, r.name, r.descriptor, r.uv, env.now, Durable(env, u));
    }
  }

  /** Every event that changes a record writes a picture of the entry, or restamps it. */
  lemma RecordIsAPicture(s: State, e: Event, u: DataflowId)
    ensures Pictured(At(s, u), At(Step(s, e), u), FinishedOn(u, e) + LostBy(s, e))
  {
    var x, slot := CtxOf(s, e, u), At(s, u);
    StepIsPointwise(s, e, u);
    assert FinishedOn(u, e) + LostBy(s, e) == if e.Finished? then FinishedOn(u, e) else LostBy(s, e);
    match e
    case Exit(_, _, env) => DisconnectPictures(slot, x.lost, env.now, Readable(env, u), Durable(env, u));
    case Tick(_, _, env) => TickPictures(u, slot, x, env);
    case Report(_, _, _) => ReportPictures(u, slot, e, x);
    case Ready(_, d, exited, env) => ReadyPictures(slot, d, exited, env.now, Readable(env, u), Durable(env, u));
    case Finished(_, _, _, _, _) => FinishedPictures(u, slot, e, x);
    case SpawnReport(_, d, ok, env) =>
      SpawnResultPictures(slot, d, ok, x.archived, FailedResults(slot, x.results), env.now, Durable(env, u));
    case _ => RequestEventPictures(u, slot, e, x);
  }

  // ----- the status after a release ----------------------------------------

  /** The status that a release writes: running if no node exited early, else what was stored,
      else pending. */
  predicate ReleaseStatus(slot: Slot, slot': Slot, readable: bool) {
    && slot'.live.Some? && slot'.record.Some? && slot'.live.value.barrierReleased
    && (slot'.live.value.exited == [] ==> slot'.record.value.status == Running)
    && (slot'.live.value.exited != [] && readable && slot.record.Some? ==>
          slot'.record.value.status == slot.record.value.status)
    && (slot'.live.value.exited != [] && !(readable && slot.record.Some?) ==> slot'.record.value.status == Pending)
  }

  lemma DisconnectRelease(slot: Slot, lost: set<DaemonId>, now: Millis, readable: bool)
    requires Broadcasts(DisconnectSlot(slot, lost, now, readable, true).out) != Broadcasts(slot.out)
    ensures slot.live.Some? && BarrierFreed(slot.live.value, lost)
    ensures ReleaseStatus(slot, DisconnectSlot(slot, lost, now, readable, true), readable)
    ensures DisconnectSlot(slot, lost, now, readable, true).record.value.updatedAt == now
  {
    if slot.live.Some? {
      BatchActsOnce(slot, lost, now, readable, true);
    }
  }

  /** Whenever a barrier is released and the write succeeds, the record says so. */
  lemma ReleaseIsRecorded(s: State, e: Event, u: DataflowId)
    requires Broadcasts(At(Step(s, e), u).out) != Broadcasts(At(s, u).out)
    requires (e.Ready? || e.Exit? || e.Tick?) && Durable(e.env, u)
    ensures ReleaseStatus(At(s, u), At(Step(s, e), u), Readable(e.env, u))
  {
    var x, slot, env := CtxOf(s, e, u), At(s, u), e.env;
    StepIsPointwise(s, e, u);
    if e.Exit? {
      DisconnectRelease(slot, x.lost, env.now, Readable(env, u));
    } else if e.Tick? {
      TickRelease(u, slot, x, env);
    }
  }

  lemma TickRelease(u: DataflowId, slot: Slot, x: Ctx, env: Env)
    requires Durable(env, u) && Broadcasts(TickSlot(u, slot, x, env).out) != Broadcasts(slot.out)
    ensures ReleaseStatus(slot, TickSlot(u, slot, x, env), Readable(env, u))
  {
    var s1 := DisconnectSlot(slot, x.lost, env.now, Readable(env, u), true);
    if s1.live.Some? {
      FailSpawnBroadcastsNothing(s1, s1.live.value, FailedResults(s1, x.results), env.now, true);
    }
    DisconnectRelease(slot, x.lost, env.now, Readable(env, u));
  }

  // ----- the status an event writes ----------------------------------------

  /** No node of this result failed, nor any that another daemon reported. */
  ghost predicate EveryNodeSucceeded(known: Results, d: DaemonId, result: DaemonResult) {
    && (forall n :: n in result ==> result[n])
    && (forall h, n :: h in known && h != d && n in known[h] ==> known[h][n])
  }

  lemma VerdictTells(known: Results, d: DaemonId, result: DaemonResult)
    ensures Verdict(known[d := result]) == if EveryNodeSucceeded(known, d, result) then Succeeded else Failed(false)
  {
    var r := known[d := result];
    if EveryDaemonOk(r) {
      assert AllOk(r[d]);
      assert forall h :: h in known && h != d ==> h in r && AllOk(r[h]);
    }
  }

  /** What the status of a record that `e` changes says about the dataflow. */
  ghost predicate StatusFits(u: DataflowId, slot: Slot, e: Event, x: Ctx, slot': Slot)
    requires slot'.record.Some?
  {
    var status := slot'.record.value.status;
    match e
    case StartReq(_, _, _, _, _, _) => status == Pending
    case StopReq(_, _, _, _) => status == Stopping
    case StopByName(_, _, _, _) => status == Stopping
    case RestartReq(_, _, _, _) => status == Stopping
    case RestartByName(_, _, _, _) => status == Stopping
    case Report(_, _, _) => status == Running
    case Boot(_) => status == Recovering
    case SpawnReport(_, _, ok, _) => status == if ok then Running else Failed(true)
    case Finished(v, d, result, _, _) =>
      if v != u then status == Pending
      else status == if EveryNodeSucceeded(KnownResults(x.results), d, result) then Succeeded else Failed(false)
    case Exit(_, _, _) => slot'.live.None? ==> status == Recovering
    case Tick(_, _, _) =>
      slot'.live.None? ==>
        status == if slot.live.Some? && slot.live.value.spawn.SpawnOk? then Recovering else Failed(true)
    case _ => true
  }

  lemma {:induction false} ReconcileRuns(u: DataflowId, slot: Slot, d: DaemonId, entries: seq<StatusEntry>,
                                         archived: bool, connected: bool, now: Millis, readable: bool, durable: bool)
    ensures var slot' := ReconcileAll(u, slot, d, entries, archived, connected, now, readable, durable);
            slot'.record != slot.record ==> slot'.record.Some? && slot'.record.value.status == Running
    decreases |entries|
  {
    if entries != [] {
      var s1 := if entries[0].uuid == u
                then ReconcileSlot(slot, d, entries[0].nodes, archived, connected, now, readable, durable)
                else slot;
      ReconcileRuns(u, s1, d, entries[1..], archived, connected, now, readable, durable);
    }
  }

  lemma FailStatus(slot: Slot, df: Dataflow, results: Results, now: Millis, durable: bool)
    ensures var slot' := FailSpawn(slot, df, results, now, durable);
            && slot'.live.None?
            && (slot'.record != slot.record ==> slot'.record.Some? && slot'.record.value.status == Failed(true))
  {
  }

  lemma DisconnectStatus(slot: Slot, lost: set<DaemonId>, now: Millis, readable: bool, durable: bool)
    ensures var slot' := DisconnectSlot(slot, lost, now, readable, durable);
            && (slot'.record != slot.record ==>
                  && slot'.record.Some? && slot.live.Some? && slot.live.value.spawn.SpawnOk?
                  && slot'.record.value.updatedAt == now
                  && (slot'.live.None? ==> slot'.record.value.status == Recovering))
            && (slot.live.Some? && slot'.live.None? ==> slot.live.value.spawn.SpawnOk?)
            && (slot.live.None? ==> slot' == slot)
            && (slot'.live.Some? ==> slot.live.Some? && slot'.live.value.spawn == slot.live.value.spawn)
  {
  }

  lemma SweepStatus(slot: Slot, now: Millis, durable: bool)
    ensures var slot' := RecoveryTimeoutSlot(slot, now, durable);
            && slot'.live == slot.live
            && (slot'.record != slot.record ==>
                  && slot'.record.Some? && slot'.record.value.status == Failed(true)
                  && slot.record.Some? && slot.record.value.updatedAt + 60_000 < now)
  {
  }

  lemma TickStatus(u: DataflowId, slot: Slot, e: Event, x: Ctx)
    requires e.Tick? && SlotStep(u, slot, e, x).record.Some? && SlotStep(u, slot, e, x).record != slot.record
    ensures StatusFits(u, slot, e, x, SlotStep(u, slot, e, x))
  {
    var env := e.env;
    var s1 := DisconnectSlot(slot, x.lost, env.now, Readable(env, u), Durable(env, u));
    var s2 := SpawnTimeoutSlot(s1, FailedResults(s1, x.results), env.now, Durable(env, u));
    DisconnectStatus(slot, x.lost, env.now, Readable(env, u), Durable(env, u));
    if s1.live.Some? {
      FailStatus(s1, s1.live.value, FailedResults(s1, x.results), env.now, Durable(env, u));
    }
    SweepStatus(s2, env.now, env.listable && Durable(env, u));
  }

  lemma SpawnResultStatus(slot: Slot, d: DaemonId, ok: bool, archived: bool, results: Results, now: Millis, durable: bool)
    ensures var slot' := SpawnResultSlot(slot, d, ok, archived, results, now, durable);
            slot'.record != slot.record ==>
              slot'.record.Some? && slot'.record.value.status == if ok then Running else Failed(true)
  {
    if SpawnFails(slot, ok) {
      var df := slot.live.value.(pendingSpawn := slot.live.value.pendingSpawn - {d});
      FailStatus(slot, df, results, now, durable);
    }
  }

  lemma FinishStatus(slot: Slot, d: DaemonId, results: Results, started: Option<Placement>, now: Millis, durable: bool)
    ensures var slot' := FinishSlot(slot, d, results, started, now, durable);
            slot'.record != slot.record ==> slot'.record.Some? && slot'.record.value.status == Verdict(results)
  {
  }

  lemma RequestStatus(slot: Slot, c: Caller, acks: set<DaemonId>, results: Option<Results>, now: Millis, durable: bool)
    ensures var slot' := StopSlot(slot, c, acks, results, now, durable);
            slot'.record != slot.record ==> slot'.record.Some? && slot'.record.value.status == Stopping
    ensures var slot' := RestartSlot(slot, c, acks, now, durable);
            slot'.record != slot.record ==> slot'.record.Some? && slot'.record.value.status == Stopping
  {
  }

  lemma RequestEventStatus(u: DataflowId, slot: Slot, e: Event, x: Ctx)
    requires SlotStep(u, slot, e, x).record.Some? && SlotStep(u, slot, e, x).record != slot.record
    requires !e.Exit? && !e.Tick? && !e.Report? && !e.Ready? && !e.Finished? && !e.SpawnReport?
    ensures StatusFits(u, slot, e, x, SlotStep(u, slot, e, x))
  {
    match e
    case StopReq(_, c, acks, env) => RequestStatus(slot, c, acks, x.results, env.now, Durable(env, u));
    case StopByName(_, c, acks, env) => RequestStatus(slot, c, acks, x.results, env.now, Durable(env, u));
    case RestartReq(_, c, acks, env) => RequestStatus(slot, c, acks, x.results, env.now, Durable(env, u));
    case RestartByName(_, c, acks, env) => RequestStatus(slot, c, acks, x.results, env.now, Durable(env, u));
    case _ =>
  }

  lemma EventStatus(u: DataflowId, slot: Slot, e: Event, x: Ctx)
    requires SlotStep(u, slot, e, x).record.Some? && SlotStep(u, slot, e, x).record != slot.record
    ensures StatusFits(u, slot, e, x, SlotStep(u, slot, e, x))
  {
    match e
    case Exit(_, _, env) => DisconnectStatus(slot, x.lost, env.now, Readable(env, u), Durable(env, u));
    case Tick(_, _, env) => TickStatus(u, slot, e, x);
    case Report(d, entries, env) =>
      ReconcileRuns(u, slot, d, entries, x.archived, x.connected, env.now, Readable(env, u), Durable(env, u));
    case Ready(_, _, _, _) =>
    case Finished(v, d, result, started, env) =>
      FinishStatus(slot, d, KnownResults(x.results)[d := result], started, env.now, Durable(env, u));
      VerdictTells(KnownResults(x.results), d, result);
    case SpawnReport(_, d, ok, env) =>
      SpawnResultStatus(slot, d, ok, x.archived, FailedResults(slot, x.results), env.now, Durable(env, u));
    case _ => RequestEventStatus(u, slot, e, x);
  }

  /** Every event that changes a record writes the status that fits what happened. */
  lemma StatusTells(s: State, e: Event, u: DataflowId)
    requires At(Step(s, e), u).record.Some? && At(Step(s, e), u).record != At(s, u).record
    ensures StatusFits(u, At(s, u), e, CtxOf(s, e, u), At(Step(s, e), u))
  {
    StepIsPointwise(s, e, u);
    EventStatus(u, At(s, u), e, CtxOf(s, e, u));
  }
}
