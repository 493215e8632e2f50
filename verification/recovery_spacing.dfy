/** Auto-recovery spacing: re-spawn attempts for the same dataflow on the same
    daemon are at least the backoff apart. */
module RecoverySpacing {
  import opened Common
  import opened CoordinatorTypes
  import opened DataflowSlot
  import opened Coordinator
  import opened CoordinatorInvariants

  /** Handling `e` makes a re-spawn attempt for `u` on daemon `d`. */
  ghost predicate Attempts(s: State, e: Event, u: DataflowId, d: DaemonId) {
    && e.Report? && e.daemon == d && !Reports(e.entries, u)
    && Member(At(s, u), d) && ShouldRespawn(At(s, u).live.value, d, e.env.now)
  }

  /** `e` reports dataflow `u` as running on daemon `d`. */
  ghost predicate ReportsRunning(e: Event, u: DataflowId, d: DaemonId) {
    e.Report? && e.daemon == d && Reports(e.entries, u)
  }

  /** A re-spawn message leaves the coordinator exactly on an attempt while the daemon
      is connected, and then nothing else is sent for that dataflow; an attempt is never
      made for a failed spawn or while a spawn is in flight on that daemon. */
  lemma RespawnIsSentIff(s: State, e: Event, u: DataflowId)
    requires e.Report? && !Reports(e.entries, u)
    ensures At(Step(s, e), u).out ==
            At(s, u).out
            + (if Attempts(s, e, u, e.daemon) && e.daemon in s.conns
               then [Respawn(e.daemon, NodesOn(At(s, u).live.value, e.daemon), e.env.now)] else [])
    ensures Attempts(s, e, u, e.daemon) ==>
              && !At(s, u).live.value.spawn.SpawnErr?
              && e.daemon !in At(s, u).live.value.pendingSpawn
              && At(Step(s, e), u).live.Some?
              && At(Step(s, e), u).live.value.lastRecovery == At(s, u).live.value.lastRecovery[e.daemon := e.env.now]
    ensures !Attempts(s, e, u, e.daemon) ==> At(Step(s, e), u) == At(s, u)
  {
    StepIsPointwise(s, e, u);
    ReconcileNone(u, At(s, u), e.daemon, e.entries, CtxOf(s, e, u), e.env);
  }

  /** While `d` runs `u`, the last attempt is remembered and is no older than `t`. */
  predicate Remembers(slot: Slot, d: DaemonId, t: Millis) {
    Member(slot, d) ==> d in slot.live.value.lastRecovery && t <= slot.live.value.lastRecovery[d]
  }

  /** No event but a report of `u` running on `d` makes the coordinator forget. */
  lemma RemembersStep(s: State, e: Event, u: DataflowId, d: DaemonId, t: Millis)
    requires Inv(s) && Enabled(s, e) && u in s.slots
    requires Remembers(At(s, u), d, t) && !ReportsRunning(e, u, d)
    ensures u in Step(s, e).slots && Remembers(At(Step(s, e), u), d, t)
  {
    var x := CtxOf(s, e, u);
    StepIsPointwise(s, e, u);
    CreatesFromEmpty(s, e, u);
    if e.Report? && e.daemon == d {
      RespawnIsSentIff(s, e, u);
    } else if e.Report? {
      ReportGrows(u, At(s, u), e, x);
      if At(s, u).live.Some? {
        var before, after := At(s, u).live.value.lastRecovery, At(Step(s, e), u).live.value.lastRecovery;
        assert d in before - {e.daemon} <==> d in after - {e.daemon};
      }
    } else if AsksRestart(u, e, x) {
      RequestShrinks(At(s, u), e.caller, e.acks, None, e.env.now, Durable(e.env, u));
    } else {
      SlotShrinks(u, At(s, u), e, x);
    }
  }

  lemma AttemptIsRemembered(s: State, e: Event, u: DataflowId, d: DaemonId)
    requires Attempts(s, e, u, d)
    ensures u in Step(s, e).slots && Remembers(At(Step(s, e), u), d, e.env.now)
  {
    RespawnIsSentIff(s, e, u);
  }

  lemma {:induction false} RemembersRun(states: seq<State>, events: seq<Event>, i: nat, n: nat, u: DataflowId,
                                        d: DaemonId)
    requires IsRun(states, events) && states[0] == INITIAL && i < n <= |events|
    requires Attempts(states[i], events[i], u, d)
    requires forall m :: i < m < n ==> !ReportsRunning(events[m], u, d)
    ensures u in states[n].slots && Remembers(At(states[n], u), d, events[i].env.now)
    decreases n
  {
    var s, e, now := states[n - 1], events[n - 1], events[i].env.now;
    assert Steps(states, events, n - 1);
    if n == i + 1 {
      AttemptIsRemembered(s, e, u, d);
    } else {
      RemembersRun(states, events, i, n - 1, u, d);
      InvRun(states, events, n - 1);
      RemembersStep(s, e, u, d, now);
    }
  }

  /** Main result. In every run, two attempts for the same dataflow on the same daemon,
      with no report of it running there in between, are at least 30 seconds apart:
      across disconnects, reclaims, reconnects and process restarts. */
  lemma AttemptsAreSpaced(states: seq<State>, events: seq<Event>, i: nat, k: nat, u: DataflowId, d: DaemonId)
    requires IsRun(states, events) && states[0] == INITIAL && i < k < |events|
    requires Attempts(states[i], events[i], u, d) && Attempts(states[k], events[k], u, d)
    requires forall m :: i < m < k ==> !ReportsRunning(events[m], u, d)
    ensures events[i].env.now + RECOVERY_BACKOFF <= events[k].env.now
  {
    RemembersRun(states, events, i, k, u, d);
  }

  // ----- when an attempt is due --------------------------------------------

  /** An attempt was made at step `i`, and `d` has not reported `u` since. */
  ghost predicate Unanswered(states: seq<State>, events: seq<Event>, i: nat, n: nat, u: DataflowId, d: DaemonId)
    requires i < n <= |events| && n <= |states|
  {
    Attempts(states[i], events[i], u, d) && forall m :: i < m < n ==> !ReportsRunning(events[m], u, d)
  }

  /** The time remembered for a member. */
  function LastTime(slot: Slot, d: DaemonId): Option<Millis> {
    if Member(slot, d) then Lookup(slot.live.value.lastRecovery, d) else None
  }

  lemma LastTimeStep(s: State, e: Event, u: DataflowId, d: DaemonId)
    requires Inv(s) && Enabled(s, e) && LastTime(At(Step(s, e), u), d).Some?
    ensures !ReportsRunning(e, u, d)
    ensures Attempts(s, e, u, d) ==> LastTime(At(Step(s, e), u), d) == Some(e.env.now)
    ensures !Attempts(s, e, u, d) ==> LastTime(At(Step(s, e), u), d) == LastTime(At(s, u), d)
  {
    var x := CtxOf(s, e, u);
    StepIsPointwise(s, e, u);
    CreatesFromEmpty(s, e, u);
    if e.Report? && e.daemon == d {
      if Reports(e.entries, u) {
        ReportForgets(u, At(s, u), e, x);
      } else {
        RespawnIsSentIff(s, e, u);
      }
    } else if e.Report? {
      OthersReportGrows(u, At(s, u), e, x, d);
    } else if AsksRestart(u, e, x) {
      RequestShrinks(At(s, u), e.caller, e.acks, None, e.env.now, Durable(e.env, u));
    } else if !Creates(u, e, x) {
      SlotShrinks(u, At(s, u), e, x);
    }
  }

  lemma ReportForgets(u: DataflowId, slot: Slot, e: Event, x: Ctx)
    requires e.Report? && Reports(e.entries, u)
    ensures LastTime(SlotStep(u, slot, e, x), e.daemon).None?
  {
  }

  lemma OthersReportGrows(u: DataflowId, slot: Slot, e: Event, x: Ctx, d: DaemonId)
    requires Sound(slot) && e.Report? && e.daemon != d && LastTime(SlotStep(u, slot, e, x), d).Some?
    ensures LastTime(SlotStep(u, slot, e, x), d) == LastTime(slot, d)
  {
    ReportGrows(u, slot, e, x);
    if slot.live.Some? {
      var before, after := slot.live.value.lastRecovery, SlotStep(u, slot, e, x).live.value.lastRecovery;
      assert d in before - {e.daemon} <==> d in after - {e.daemon};
      assert (before - {e.daemon})[d] == (after - {e.daemon})[d];
    }
  }

  /** What is remembered for a member is the time of an unanswered attempt. */
  lemma {:induction false} RememberedWasAttempted(states: seq<State>, events: seq<Event>, n: nat, u: DataflowId, d: DaemonId)
    returns (i: nat)
    requires IsRun(states, events) && states[0] == INITIAL && n <= |events| && LastTime(At(states[n], u), d).Some?
    ensures i < n && Unanswered(states, events, i, n, u, d) && LastTime(At(states[n], u), d) == Some(events[i].env.now)
    decreases n
  {
    assert Steps(states, events, n - 1);
    InvRun(states, events, n - 1);
    LastTimeStep(states[n - 1], events[n - 1], u, d);
    if Attempts(states[n - 1], events[n - 1], u, d) {
      i := n - 1;
    } else {
      i := RememberedWasAttempted(states, events, n - 1, u, d);
      StillUnanswered(states, events, i, n, u, d);
    }
  }

  lemma StillUnanswered(states: seq<State>, events: seq<Event>, i: nat, n: nat, u: DataflowId, d: DaemonId)
    requires i + 1 < n <= |events| && n <= |states| && Unanswered(states, events, i, n - 1, u, d)
    requires !ReportsRunning(events[n - 1], u, d)
    ensures Unanswered(states, events, i, n, u, d)
  {
  }

  /** The converse of the spacing. When a daemon reports without a dataflow it should run, a
      re-spawn is attempted if and only if it has nodes there, its spawn is neither failed nor
      in flight there, and every unanswered attempt is at least 30 seconds old. */
  lemma AttemptIsDueIff(states: seq<State>, events: seq<Event>, n: nat, u: DataflowId)
    requires IsRun(states, events) && states[0] == INITIAL && n < |events| && events[n].Report?
    requires !Reports(events[n].entries, u) && Member(At(states[n], u), events[n].daemon)
    ensures var d, df := events[n].daemon, At(states[n], u).live.value;
            Attempts(states[n], events[n], u, d) <==>
              && (exists node :: node in df.nodeToDaemon && df.nodeToDaemon[node] == d)
              && !df.spawn.SpawnErr? && d !in df.pendingSpawn
              && forall i :: 0 <= i < n && Unanswered(states, events, i, n, u, d) ==>
                   events[i].env.now + 30_000 <= events[n].env.now
  {
    var s, e, d := states[n], events[n], events[n].daemon;
    NodesOnIs(At(s, u).live.value, d);
    if BackingOff(At(s, u).live.value, d, e.env.now) {
      var i := RememberedWasAttempted(states, events, n, u, d);
      assert Unanswered(states, events, i, n, u, d);
    } else {
      forall i | 0 <= i < n && Unanswered(states, events, i, n, u, d)
        ensures events[i].env.now + 30_000 <= e.env.now
      {
        RemembersRun(states, events, i, n, u, d);
      }
    }
  }

  lemma NodesOnIs(df: Dataflow, d: DaemonId)
    ensures NodesOn(df, d) != {} <==> exists node :: node in df.nodeToDaemon && df.nodeToDaemon[node] == d
  {
    if NodesOn(df, d) != {} {
      var node :| node in NodesOn(df, d);
    }
    if exists node :: node in df.nodeToDaemon && df.nodeToDaemon[node] == d {
      var node :| node in df.nodeToDaemon && df.nodeToDaemon[node] == d;
      assert node in NodesOn(df, d);
    }
  }
}
