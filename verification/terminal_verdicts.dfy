/** Terminal verdicts: once a record says Succeeded or terminally Failed, nothing
    but `clean` changes it. */
module TerminalVerdicts {
  import opened Common
  import opened CoordinatorTypes
  import opened DataflowSlot
  import opened Coordinator
  import opened CoordinatorInvariants

  predicate Terminal(status: Status) {
    status == Succeeded || status == Failed(true)
  }

  predicate InFlight(status: Status) {
    status == Pending || status == Running || status == Stopping
  }

  /** A live dataflow's record says that it is in flight: never Recovering, never a
      final status. */
  predicate LiveIsInFlight(slot: Slot) {
    slot.live.Some? ==> slot.record.Some? && InFlight(slot.record.value.status)
  }

  /** The event's store writes for `u` succeed. */
  predicate WritesSucceed(e: Event, u: DataflowId) {
    match e
    case Register(_, _, _, _) => true
    case Endpoint(_, _, _) => true
    case WaitForSpawn(_, _) => true
    case _ => Durable(e.env, u)
  }

  lemma DisconnectInFlight(slot: Slot, lost: set<DaemonId>, now: Millis, readable: bool)
    requires LiveIsInFlight(slot)
    ensures LiveIsInFlight(DisconnectSlot(slot, lost, now, readable, true))
  {
  }

  lemma TickInFlight(u: DataflowId, slot: Slot, x: Ctx, env: Env)
    requires LiveIsInFlight(slot) && Durable(env, u)
    ensures LiveIsInFlight(TickSlot(u, slot, x, env))
  {
    DisconnectInFlight(slot, x.lost, env.now, Readable(env, u));
    var s1 := DisconnectSlot(slot, x.lost, env.now, Readable(env, u), Durable(env, u));
    if s1.live.Some? {
      FailSpawnShrinks(s1, s1.live.value, FailedResults(s1, x.results), env.now, Durable(env, u));
    }
  }

  lemma {:induction false} ReconcileAllInFlight(u: DataflowId, slot: Slot, d: DaemonId, entries: seq<StatusEntry>,
                                                archived: bool, connected: bool, now: Millis, readable: bool)
    requires LiveIsInFlight(slot)
    ensures LiveIsInFlight(ReconcileAll(u, slot, d, entries, archived, connected, now, readable, true))
    decreases |entries|
  {
    if entries != [] {
      var s1 := if entries[0].uuid == u
                then ReconcileSlot(slot, d, entries[0].nodes, archived, connected, now, readable, true)
                else slot;
      ReconcileAllInFlight(u, s1, d, entries[1..], archived, connected, now, readable);
    }
  }

  lemma SpawnResultInFlight(slot: Slot, d: DaemonId, ok: bool, archived: bool, results: Results, now: Millis)
    requires LiveIsInFlight(slot)
    ensures LiveIsInFlight(SpawnResultSlot(slot, d, ok, archived, results, now, true))
  {
    if SpawnFails(slot, ok) {
      var df := slot.live.value.(pendingSpawn := slot.live.value.pendingSpawn - {d});
      FailSpawnShrinks(slot, df, results, now, true);
    }
  }

  lemma SlotStaysInFlight(u: DataflowId, slot: Slot, e: Event, x: Ctx)
    requires LiveIsInFlight(slot) && WritesSucceed(e, u)
    ensures LiveIsInFlight(SlotStep(u, slot, e, x))
  {
    match e
    case Exit(_, _, env) => DisconnectInFlight(slot, x.lost, env.now, Readable(env, u));
    case Tick(_, _, env) => TickInFlight(u, slot, x, env);
    case Report(d, entries, env) =>
      ReconcileAllInFlight(u, slot, d, entries, x.archived, x.connected, env.now, Readable(env, u));
    case SpawnReport(_, d, ok, env) =>
      SpawnResultInFlight(slot, d, ok, x.archived, FailedResults(slot, x.results), env.now);
    case _ =>
  }

  /** With the store writes for `u` succeeding, no reachable state has it live with
      a record that is Recovering, Succeeded or Failed. */
  lemma {:induction false} LiveIsInFlightRun(states: seq<State>, events: seq<Event>, n: nat, u: DataflowId)
    requires IsRun(states, events) && states[0] == INITIAL && n <= |events|
    requires forall i :: 0 <= i < n ==> WritesSucceed(events[i], u)
    ensures LiveIsInFlight(At(states[n], u))
  {
    if n > 0 {
      assert Steps(states, events, n - 1);
      LiveIsInFlightRun(states, events, n - 1, u);
      StepIsPointwise(states[n - 1], events[n - 1], u);
      SlotStaysInFlight(u, At(states[n - 1], u), events[n - 1], CtxOf(states[n - 1], events[n - 1], u));
    }
  }

  // ----- absorption --------------------------------------------------------

  /** A dataflow that is over: not live, and its record is final or deleted. */
  predicate Over(slot: Slot) {
    slot.live.None? && slot.restart.None? && (slot.record.Some? ==> Terminal(slot.record.value.status))
  }

  lemma {:induction false} ReconcileAllOver(u: DataflowId, slot: Slot, d: DaemonId, entries: seq<StatusEntry>,
                                            archived: bool, connected: bool, now: Millis, readable: bool,
                                            durable: bool)
    requires Over(slot)
    ensures var slot' := ReconcileAll(u, slot, d, entries, archived, connected, now, readable, durable);
            Over(slot') && slot'.record == slot.record
    decreases |entries|
  {
    if entries != [] {
      var s1 := if entries[0].uuid == u
                then ReconcileSlot(slot, d, entries[0].nodes, archived, connected, now, readable, durable)
                else slot;
      ReconcileAllOver(u, s1, d, entries[1..], archived, connected, now, readable, durable);
    }
  }

  /** No event revives a dataflow that is over, and none but `clean` touches its
      record. This needs nothing of the store. */
  lemma OverIsAbsorbing(u: DataflowId, slot: Slot, e: Event, x: Ctx)
    requires Over(slot) && !Creates(u, e, x)
    ensures Over(SlotStep(u, slot, e, x))
    ensures SlotStep(u, slot, e, x).record == slot.record || (e.Clean? && SlotStep(u, slot, e, x).record.None?)
  {
    match e
    case Report(d, entries, env) =>
      ReconcileAllOver(u, slot, d, entries, x.archived, x.connected, env.now, Readable(env, u), Durable(env, u));
    case _ =>
  }

  lemma OverStep(s: State, e: Event, u: DataflowId)
    requires Enabled(s, e) && u in s.slots && Over(At(s, u))
    ensures u in Step(s, e).slots && Over(At(Step(s, e), u))
    ensures At(Step(s, e), u).record == At(s, u).record || (e.Clean? && At(Step(s, e), u).record.None?)
  {
    StepIsPointwise(s, e, u);
    CreatesFromEmpty(s, e, u);
    OverIsAbsorbing(u, At(s, u), e, CtxOf(s, e, u));
  }

  lemma {:induction false} OverRun(states: seq<State>, events: seq<Event>, i: nat, j: nat, u: DataflowId)
    requires IsRun(states, events) && i <= j <= |events|
    requires u in states[i].slots && Over(At(states[i], u))
    ensures u in states[j].slots && Over(At(states[j], u))
    ensures At(states[j], u).record == At(states[i], u).record
            || (At(states[j], u).record.None? && exists k :: i <= k < j && events[k].Clean?)
    decreases j
  {
    if i < j {
      assert Steps(states, events, j - 1);
      OverRun(states, events, i, j - 1, u);
      OverStep(states[j - 1], events[j - 1], u);
    }
  }

  /** Terminal verdicts are absorbing. In every run whose writes for `u` succeeded up
      to the verdict, a Succeeded or terminally Failed record is the same record ever
      after (across reports, ticks, disconnects, stops and process restarts), until a
      `clean` deletes it; and then it stays deleted and the dataflow stays down. */
  lemma TerminalVerdictIsAbsorbing(states: seq<State>, events: seq<Event>, i: nat, j: nat, u: DataflowId)
    requires IsRun(states, events) && states[0] == INITIAL && i <= j <= |events|
    requires forall k :: 0 <= k < i ==> WritesSucceed(events[k], u)
    requires At(states[i], u).record.Some? && Terminal(At(states[i], u).record.value.status)
    ensures At(states[j], u).live.None?
    ensures At(states[j], u).record == At(states[i], u).record
            || (At(states[j], u).record.None? && exists k :: i <= k < j && events[k].Clean?)
  {
    LiveIsInFlightRun(states, events, i, u);
    InvRun(states, events, i);
    OverRun(states, events, i, j, u);
  }

  // ----- exactly when a verdict is final -----------------------------------

  /** Whatever happens after `s`, short of a clean, the record of `u` stays as it is. */
  ghost predicate RecordIsFinal(s: State, u: DataflowId) {
    forall states, events, j :: IsRun(states, events) && states[0] == s && 0 <= j <= |events| && NoClean(events) ==>
      At(states[j], u).record == At(s, u).record
  }

  predicate NoClean(events: seq<Event>) {
    forall i :: 0 <= i < |events| ==> !events[i].Clean?
  }

  /** A Succeeded or terminally Failed record is final, in every continuation without a
      clean and already at the very next event, exactly if its dataflow is not live. */
  lemma VerdictIsFinalIff(s: State, u: DataflowId)
    requires Inv(s) && u in s.slots
    requires At(s, u).record.Some? && Terminal(At(s, u).record.value.status)
    ensures RecordIsFinal(s, u) <==> At(s, u).live.None?
    ensures (forall e :: Enabled(s, e) && !e.Clean? ==> At(Step(s, e), u).record == At(s, u).record)
            <==> At(s, u).live.None?
  {
    if At(s, u).live.None? {
      forall e | Enabled(s, e) && !e.Clean?
        ensures At(Step(s, e), u).record == At(s, u).record
      {
        OverStep(s, e, u);
      }
      forall states, events, j | IsRun(states, events) && states[0] == s && 0 <= j <= |events| && NoClean(events)
        ensures At(states[j], u).record == At(s, u).record
      {
        OverRun(states, events, 0, j, u);
      }
    } else {
      var e := StopOverwrites(s, u);
      NextEventDecides(s, u, e);
    }
  }

  /** An acknowledged stop overwrites the verdict of a live dataflow. */
  lemma StopOverwrites(s: State, u: DataflowId) returns (e: Event)
    requires At(s, u).live.Some? && At(s, u).record.Some? && Terminal(At(s, u).record.value.status)
    ensures Enabled(s, e) && !e.Clean? && At(Step(s, e), u).record != At(s, u).record
  {
    e := StopReq(u, 0, At(s, u).live.value.daemons, Env(0, {}, {}, true));
    StepIsPointwise(s, e, u);
  }

  lemma NextEventDecides(s: State, u: DataflowId, e: Event)
    requires Enabled(s, e) && !e.Clean? && At(Step(s, e), u).record != At(s, u).record
    ensures !RecordIsFinal(s, u)
  {
    var states, events := [s, Step(s, e)], [e];
    assert Steps(states, events, 0);
    assert IsRun(states, events) && NoClean(events) && states[1] == Step(s, e);
  }

  /** It takes one lost write to get there: a waiting dataflow is reported while its
      promotion is lost, so it is live with a Recovering record; the recovery timeout then
      fails it terminally although it runs; and its next ready report overwrites that
      verdict with Running. */
  lemma LostWriteUndoesVerdict(states: seq<State>, events: seq<Event>, u: DataflowId)
    requires IsRun(states, events) && |events| == 3
    requires At(states[0], u).live.None? && At(states[0], u).record.Some? && u !in states[0].archived.items
    requires At(states[0], u).record.value.status == Recovering && At(states[0], u).record.value.descriptor.resolves
    requires At(states[0], u).record.value.exited == []
    requires events[0].Report? && Reports(events[0].entries, u)
    requires !Durable(events[0].env, u) && Readable(events[0].env, u)
    requires events[1].Tick? && events[0].daemon !in LostBy(states[1], events[1])
    requires Durable(events[1].env, u) && events[1].env.listable
    requires Elapsed(events[1].env.now, At(states[0], u).record.value.updatedAt) > RECOVERY_TIMEOUT
    requires events[2].Ready? && events[2].uuid == u && events[2].exited == [] && Durable(events[2].env, u)
    ensures At(states[1], u).live.Some? && At(states[1], u).record == At(states[0], u).record
    ensures At(states[2], u).live.Some? && At(states[2], u).record.Some?
            && At(states[2], u).record.value.status == Failed(true)
    ensures At(states[3], u).live.Some? && At(states[3], u).record.Some?
            && At(states[3], u).record.value.status == Running
  {
    assert Steps(states, events, 0) && Steps(states, events, 1) && Steps(states, events, 2);
    ReportedWithoutWrite(states[0], events[0], u);
    ExpiresWhileLive(states[1], events[1], u, events[0].daemon);
    ReadyRuns(states[2], events[2], u, events[0].daemon);
  }

  /** What a rebuilt entry looks like. */
  predicate RunsOnlyOn(df: Dataflow, d: DaemonId, exited: seq<NodeId>) {
    df.daemons == {d} && df.pendingDaemons == {} && df.pendingSpawn == {} && df.spawn.SpawnOk? && df.exited == exited
  }

  lemma {:induction false} RebuiltWithoutWrite(u: DataflowId, slot: Slot, d: DaemonId, entries: seq<StatusEntry>,
                                               connected: bool, now: Millis)
    requires slot.record.Some? && slot.record.value.status == Recovering && slot.record.value.descriptor.resolves
    requires slot.live.Some? ==> RunsOnlyOn(slot.live.value, d, slot.record.value.exited)
    ensures var slot' := ReconcileAll(u, slot, d, entries, false, connected, now, true, false);
            && slot'.record == slot.record
            && (slot'.live.Some? ==> RunsOnlyOn(slot'.live.value, d, slot.record.value.exited))
            && (slot'.live.Some? <==> slot.live.Some? || Reports(entries, u))
    decreases |entries|
  {
    if entries != [] {
      ReportsSplit(entries, u);
      var s1 := if entries[0].uuid == u
                then ReconcileSlot(slot, d, entries[0].nodes, false, connected, now, true, false)
                else slot;
      RebuiltWithoutWrite(u, s1, d, entries[1..], connected, now);
    }
  }

  lemma ReportedWithoutWrite(s: State, e: Event, u: DataflowId)
    requires At(s, u).live.None? && At(s, u).record.Some? && u !in s.archived.items
    requires At(s, u).record.value.status == Recovering && At(s, u).record.value.descriptor.resolves
    requires e.Report? && Reports(e.entries, u) && !Durable(e.env, u) && Readable(e.env, u)
    ensures var slot' := At(Step(s, e), u);
            && slot'.record == At(s, u).record && slot'.live.Some?
            && RunsOnlyOn(slot'.live.value, e.daemon, At(s, u).record.value.exited)
  {
    StepIsPointwise(s, e, u);
    RebuiltWithoutWrite(u, At(s, u), e.daemon, e.entries, e.daemon in s.conns, e.env.now);
  }

  lemma ExpiresWhileLive(s: State, e: Event, u: DataflowId, d: DaemonId)
    requires At(s, u).live.Some? && RunsOnlyOn(At(s, u).live.value, d, [])
    requires At(s, u).record.Some? && At(s, u).record.value.status == Recovering
    requires e.Tick? && d !in LostBy(s, e) && Durable(e.env, u) && e.env.listable
    requires Elapsed(e.env.now, At(s, u).record.value.updatedAt) > RECOVERY_TIMEOUT
    ensures At(Step(s, e), u).live == At(s, u).live
    ensures At(Step(s, e), u).record.Some? && At(Step(s, e), u).record.value.status == Failed(true)
  {
    StepIsPointwise(s, e, u);
    assert !Affected(At(s, u).live.value, LostBy(s, e));
  }

  lemma ReadyRuns(s: State, e: Event, u: DataflowId, d: DaemonId)
    requires At(s, u).live.Some? && RunsOnlyOn(At(s, u).live.value, d, [])
    requires e.Ready? && e.uuid == u && e.exited == [] && Durable(e.env, u)
    ensures At(Step(s, e), u).live.Some? && At(Step(s, e), u).record.Some?
    ensures At(Step(s, e), u).record.value.status == Running
  {
    StepIsPointwise(s, e, u);
  }

  // ----- what is not a final verdict ---------------------------------------

  lemma ReportsSplit(entries: seq<StatusEntry>, u: DataflowId)
    requires entries != []
    ensures Reports(entries, u) <==> entries[0].uuid == u || Reports(entries[1..], u)
  {
    if Reports(entries, u) {
      var i :| 0 <= i < |entries| && entries[i].uuid == u;
      assert i > 0 ==> entries[1..][i - 1] == entries[i];
    }
  }

  /** A report of a dataflow with an open record promotes it, and brings it to life if it
      was not; `heard` says whether the coordinator acts on the entry. */
  lemma {:induction false} ReconcileAllRevives(u: DataflowId, slot: Slot, d: DaemonId, entries: seq<StatusEntry>,
                                               archived: bool, connected: bool, now: Millis, readable: bool,
                                               durable: bool)
    requires slot.record.Some? && (slot.record.value.status == Failed(false) || slot.record.value.status == Running)
    ensures var slot' := ReconcileAll(u, slot, d, entries, archived, connected, now, readable, durable);
            var heard := Reports(entries, u) && !archived && readable;
            && slot'.record.Some? && slot'.record.value.descriptor == slot.record.value.descriptor
            && slot'.record.value.status == (if heard && durable then Running else slot.record.value.status)
            && (slot'.live.Some? <==> slot.live.Some? || (heard && slot.record.value.descriptor.resolves))
    decreases |entries|
  {
    if entries != [] {
      ReportsSplit(entries, u);
      var s1 := if entries[0].uuid == u
                then ReconcileSlot(slot, d, entries[0].nodes, archived, connected, now, readable, durable)
                else slot;
      ReconcileAllRevives(u, s1, d, entries[1..], archived, connected, now, readable, durable);
    }
  }

  /** An ordinary failure is not final. A report brings a failed, finished dataflow back
      to life exactly when it names it, it has left the archive (it was evicted, or the
      process restarted), its record can be read, and its descriptor resolves. Without the
      last, the record still says Running afterwards, with nothing live behind it. */
  lemma FinishedFailureRevivesIff(s: State, d: DaemonId, entries: seq<StatusEntry>, env: Env, u: DataflowId)
    requires At(s, u).live.None? && At(s, u).record.Some? && At(s, u).record.value.status == Failed(false)
    ensures var slot' := At(Step(s, Report(d, entries, env)), u);
            var heard := Reports(entries, u) && u !in s.archived.items && Readable(env, u);
            && (slot'.live.Some? <==> heard && At(s, u).record.value.descriptor.resolves)
            && slot'.record.Some?
            && slot'.record.value.status == (if heard && Durable(env, u) then Running else Failed(false))
  {
    var e := Report(d, entries, env);
    StepIsPointwise(s, e, u);
    ReconcileAllRevives(u, At(s, u), d, entries, u in s.archived.items, d in s.conns, env.now, Readable(env, u),
                        Durable(env, u));
  }

  /** How it comes about, for every dataflow with a failing node: it finishes, the
      coordinator restarts, and some daemon still reports it. */
  lemma FailedDataflowComesBack(states: seq<State>, events: seq<Event>, u: DataflowId)
    requires IsRun(states, events) && |events| == 3
    requires events[0].Finished? && events[0].uuid == u && Completes(At(states[0], u), events[0].daemon)
    requires exists m :: m in events[0].result && !events[0].result[m]
    requires At(states[0], u).live.value.descriptor.resolves && Durable(events[0].env, u)
    requires events[1].Boot?
    requires events[2].Report? && Reports(events[2].entries, u)
    requires Readable(events[2].env, u) && Durable(events[2].env, u)
    ensures At(states[1], u).live.None? && At(states[1], u).record.Some?
            && At(states[1], u).record.value.status == Failed(false)
    ensures At(states[3], u).live.Some? && At(states[3], u).record.Some?
            && At(states[3], u).record.value.status == Running
  {
    assert Steps(states, events, 0) && Steps(states, events, 1) && Steps(states, events, 2);
    FinishesAsFailed(states[0], events[0], u);
    BootKeepsFailure(states[1], events[1], u);
    FinishedFailureRevivesIff(states[2], events[2].daemon, events[2].entries, events[2].env, u);
  }

  lemma FinishesAsFailed(s: State, e: Event, u: DataflowId)
    requires e.Finished? && e.uuid == u && Completes(At(s, u), e.daemon) && Durable(e.env, u)
    requires exists m :: m in e.result && !e.result[m]
    ensures var slot' := At(Step(s, e), u);
            && slot'.live.None? && slot'.record.Some? && slot'.record.value.status == Failed(false)
            && slot'.record.value.descriptor == At(s, u).live.value.descriptor
  {
    StepIsPointwise(s, e, u);
    var results := KnownResults(Lookup(s.results.items, u))[e.daemon := e.result];
    assert !AllOk(results[e.daemon]);
  }

  /** A new process keeps the record of a failure and forgets that it was archived. */
  lemma BootKeepsFailure(s: State, e: Event, u: DataflowId)
    requires e.Boot? && At(s, u).record.Some? && At(s, u).record.value.status == Failed(false)
    ensures At(Step(s, e), u).live.None? && At(Step(s, e), u).record == At(s, u).record
    ensures u !in Step(s, e).archived.items
  {
    StepIsPointwise(s, e, u);
  }

  /** A new process turns a record into Recovering exactly when it was still in flight and
      the store could be listed and written; every other record stays as it is. */
  lemma BootRecoversIff(s: State, env: Env, u: DataflowId)
    requires At(s, u).record.Some?
    ensures var slot', before := At(Step(s, Boot(env)), u), At(s, u).record.value;
            && slot'.live.None? && slot'.restart.None? && slot'.record.Some?
            && (slot'.record.value.status == Recovering <==>
                  before.status == Recovering || (InFlight(before.status) && env.listable && Durable(env, u)))
            && (slot'.record.value.status != Recovering ==> slot'.record.value == before)
  {
    StepIsPointwise(s, Boot(env), u);
  }
}
