/** Deferred restarts: a replacement starts only after every daemon that held the
    old dataflow has reported it finished. */
module RestartSafety {
  import opened Common
  import opened CoordinatorTypes
  import opened DataflowSlot
  import opened Coordinator
  import opened CoordinatorInvariants

  /** Event `j` is a restart request that is accepted for dataflow `u`. */
  ghost predicate Accepts(states: seq<State>, events: seq<Event>, u: DataflowId, j: nat)
    requires j < |events| && j + 1 < |states|
  {
    && AsksRestart(u, events[j], CtxOf(states[j], events[j], u))
    && At(states[j], u).restart.None?
    && At(states[j + 1], u).restart.Some?
    && At(states[j + 1], u).restart.value.caller == events[j].caller
    && At(states[j + 1], u).live.Some?
  }

  /** Event `k` is a stop request handled for dataflow `u`. */
  ghost predicate StopsAt(states: seq<State>, events: seq<Event>, u: DataflowId, k: nat)
    requires k < |events| && k < |states|
  {
    (events[k].StopReq? || events[k].StopByName?) && TargetOf(states[k], events[k]) == Some(u)
  }

  /** Event `k` disconnects a daemon that dataflow `u` runs on. */
  ghost predicate LosesMember(states: seq<State>, events: seq<Event>, u: DataflowId, k: nat)
    requires k < |events| && k < |states|
  {
    exists h :: h in LostBy(states[k], events[k]) && Member(At(states[k], u), h)
  }

  /** The daemons that reported `u` finished in steps `from` up to, not including, `to`. */
  ghost function FinishedBetween(events: seq<Event>, u: DataflowId, from: nat, to: nat): set<DaemonId>
    requires to <= |events|
  {
    set k | from <= k < to && events[k].Finished? && events[k].uuid == u :: events[k].daemon
  }

  lemma RestartSlotStep(u: DataflowId, slot: Slot, e: Event, x: Ctx)
    requires Sound(slot) && (Creates(u, e, x) ==> slot == EMPTY_SLOT) && SlotStep(u, slot, e, x).restart.Some?
    ensures SlotStep(u, slot, e, x).live.Some?
    ensures slot.restart.None? ==>
              AsksRestart(u, e, x) && SlotStep(u, slot, e, x).restart.value.caller == e.caller
    ensures slot.restart.Some? ==>
              && SlotStep(u, slot, e, x).restart == slot.restart && slot.live.Some?
              && slot.live.value.daemons - FinishedOn(u, e) <= SlotStep(u, slot, e, x).live.value.daemons
  {
    if e.Report? {
      ReportGrows(u, slot, e, x);
    } else if AsksRestart(u, e, x) {
      RequestShrinks(slot, e.caller, e.acks, None, e.env.now, Durable(e.env, u));
    } else if !Creates(u, e, x) {
      SlotShrinks(u, slot, e, x);
    }
  }

  /** One step of a pending restart: it was accepted just now, or it is the old one
      and its daemons are still there unless they just reported finished. */
  lemma RestartStep(s: State, e: Event, u: DataflowId)
    requires Inv(s) && Enabled(s, e) && At(Step(s, e), u).restart.Some?
    ensures At(Step(s, e), u).live.Some?
    ensures At(s, u).restart.None? ==>
              && AsksRestart(u, e, CtxOf(s, e, u))
              && At(Step(s, e), u).restart.value.caller == e.caller
    ensures At(s, u).restart.Some? ==>
              && At(Step(s, e), u).restart == At(s, u).restart
              && At(s, u).live.Some?
              && At(s, u).live.value.daemons - FinishedOn(u, e) <= At(Step(s, e), u).live.value.daemons
  {
    StepIsPointwise(s, e, u);
    CreatesFromEmpty(s, e, u);
    RestartSlotStep(u, At(s, u), e, CtxOf(s, e, u));
  }

  /** A handled stop leaves no restart pending, whatever the daemons answer, and tells
      the parked caller so. */
  lemma StopCancels(s: State, e: Event, u: DataflowId)
    requires (e.StopReq? || e.StopByName?) && TargetOf(s, e) == Some(u)
    ensures At(Step(s, e), u).restart.None?
    ensures At(s, u).restart.Some? ==>
              Answered(At(s, u).restart.value.caller, RestartCancelled(StoppedFirst)) in At(Step(s, e), u).out
  {
    StepIsPointwise(s, e, u);
    var cancel := Answered(if At(s, u).restart.Some? then At(s, u).restart.value.caller else 0,
                           RestartCancelled(StoppedFirst));
    assert At(s, u).restart.Some? ==>
           CancelRestart(At(s, u), StoppedFirst).out[|At(s, u).out|] == cancel;
  }

  lemma DisconnectCancels(slot: Slot, lost: set<DaemonId>, now: Millis, readable: bool, durable: bool, h: DaemonId)
    requires h in lost && Member(slot, h)
    ensures DisconnectSlot(slot, lost, now, readable, durable).restart.None?
  {
    assert h in slot.live.value.daemons + slot.live.value.pendingDaemons + slot.live.value.pendingSpawn;
  }

  /** Losing a daemon that runs the dataflow leaves no restart pending. */
  lemma LossCancels(s: State, e: Event, u: DataflowId, h: DaemonId)
    requires Inv(s) && h in LostBy(s, e) && Member(At(s, u), h)
    ensures At(Step(s, e), u).restart.None?
  {
    StepIsPointwise(s, e, u);
    var x := CtxOf(s, e, u);
    var env := e.env;
    DisconnectCancels(At(s, u), x.lost, env.now, Readable(env, u), Durable(env, u), h);
    if e.Tick? {
      var s1 := DisconnectSlot(At(s, u), x.lost, env.now, Readable(env, u), Durable(env, u));
      DisconnectShrinks(At(s, u), x.lost, env.now, Readable(env, u), Durable(env, u));
      TickShrinks(u, s1, x.(lost := {}), env);
      assert TickSlot(u, At(s, u), x, env) == TickSlot(u, s1, x.(lost := {}), env);
    }
  }

  lemma RestartStepInRun(states: seq<State>, events: seq<Event>, u: DataflowId, i: nat)
    requires IsRun(states, events) && states[0] == INITIAL && i < |events|
    requires At(states[i + 1], u).restart.Some?
    ensures At(states[i + 1], u).live.Some?
    ensures At(states[i], u).restart.None? ==> Accepts(states, events, u, i)
    ensures At(states[i], u).restart.Some? ==>
              && At(states[i + 1], u).restart == At(states[i], u).restart
              && At(states[i], u).live.Some?
              && At(states[i], u).live.value.daemons - FinishedOn(u, events[i]) <= At(states[i + 1], u).live.value.daemons
  {
    assert Steps(states, events, i);
    InvRun(states, events, i);
    RestartStep(states[i], events[i], u);
  }

  /** Where a pending restart comes from: an acceptance at some `j`, since when it has
      been pending without interruption, while every daemon that held the dataflow at
      the acceptance still holds it or has reported it finished. */
  lemma {:induction false} RestartHistory(states: seq<State>, events: seq<Event>, u: DataflowId, i: nat) returns (j: nat)
    requires IsRun(states, events) && states[0] == INITIAL && i <= |events|
    requires At(states[i], u).restart.Some?
    ensures j < i && Accepts(states, events, u, j)
    ensures forall k :: j < k <= i ==> At(states[k], u).restart == At(states[i], u).restart
    ensures At(states[i], u).live.Some?
    ensures At(states[j + 1], u).live.value.daemons
            <= At(states[i], u).live.value.daemons + FinishedBetween(events, u, j + 1, i)
    decreases i
  {
    assert i > 0;
    RestartStepInRun(states, events, u, i - 1);
    if At(states[i - 1], u).restart.None? {
      j := i - 1;
    } else {
      j := RestartHistory(states, events, u, i - 1);
      assert FinishedBetween(events, u, j + 1, i) == FinishedBetween(events, u, j + 1, i - 1) + FinishedOn(u, events[i - 1]);
    }
  }

  /** Main result. Whenever a deferred restart is carried out at step `i`, it was
      accepted at an earlier step `j`; every daemon that held the dataflow when it was
      accepted has since reported the dataflow finished; and in between there was no
      stop for the dataflow and no disconnect of a daemon still running it. */
  lemma ReplacementWaitsForEveryHolder(states: seq<State>, events: seq<Event>, i: nat) returns (j: nat)
    requires IsRun(states, events) && states[0] == INITIAL && i < |events|
    requires Launched(states[i], events[i]).Some?
    ensures j < i && Accepts(states, events, events[i].uuid, j)
    ensures Launched(states[i], events[i]) == At(states[j + 1], events[i].uuid).restart
    ensures At(states[j + 1], events[i].uuid).live.value.daemons
            <= FinishedBetween(events, events[i].uuid, j + 1, i + 1)
    ensures forall k :: j < k < i ==> !StopsAt(states, events, events[i].uuid, k)
    ensures forall k :: j < k < i ==> !LosesMember(states, events, events[i].uuid, k)
  {
    var u := events[i].uuid;
    j := RestartHistory(states, events, u, i);
    assert FinishedBetween(events, u, j + 1, i + 1) == FinishedBetween(events, u, j + 1, i) + {events[i].daemon};
    forall k | j < k < i ensures !StopsAt(states, events, u, k) && !LosesMember(states, events, u, k) {
      StillPending(states, events, u, k);
    }
  }

  /** A step after which a restart is still pending was neither a stop nor a loss. */
  lemma StillPending(states: seq<State>, events: seq<Event>, u: DataflowId, k: nat)
    requires IsRun(states, events) && states[0] == INITIAL && k < |events|
    requires At(states[k + 1], u).restart.Some?
    ensures !StopsAt(states, events, u, k) && !LosesMember(states, events, u, k)
  {
    assert Steps(states, events, k);
    InvRun(states, events, k);
    if StopsAt(states, events, u, k) {
      StopCancels(states[k], events[k], u);
    }
    if LosesMember(states, events, u, k) {
      var h :| h in LostBy(states[k], events[k]) && Member(At(states[k], u), h);
      LossCancels(states[k], events[k], u, h);
    }
  }

  /** A request whose restart was cancelled never starts a replacement: once no restart
      is pending for its dataflow, no later step carries it out. */
  lemma CancelledRestartNeverRuns(states: seq<State>, events: seq<Event>, j: nat, k: nat, i: nat)
    requires IsRun(states, events) && states[0] == INITIAL && j < k <= i < |events|
    requires Launched(states[i], events[i]).Some?
    requires Accepts(states, events, events[i].uuid, j) && At(states[k], events[i].uuid).restart.None?
    requires forall a :: 0 <= a < |events| ==>
               ((events[a].RestartReq? || events[a].RestartByName?) && events[a].caller == events[j].caller ==> a == j)
    ensures Launched(states[i], events[i]).value.caller != events[j].caller
  {
    var a := RestartHistory(states, events, events[i].uuid, i);
  }
}
