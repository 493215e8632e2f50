/** Disconnect confluence: losing several daemons at once or one by one, in any
    order, ends the same way. */
module DisconnectConfluence {
  import opened Common
  import opened CoordinatorTypes
  import opened DataflowSlot
  import opened Coordinator
  import opened CoordinatorInvariants

  /** The answers in a stretch of output, without the messages to daemons. */
  function AnswersOnly(out: seq<Output>): seq<Output> {
    if out == [] then [] else (if out[0].Answered? then [out[0]] else []) + AnswersOnly(out[1..])
  }

  lemma {:induction false} AnswersOnlyConcat(a: seq<Output>, b: seq<Output>)
    ensures AnswersOnly(a + b) == AnswersOnly(a) + AnswersOnly(b)
  {
    if a == [] {
      assert a + b == b;
    } else {
      assert (a + b)[1..] == a[1..] + b;
      AnswersOnlyConcat(a[1..], b);
    }
  }

  function StatusOf(slot: Slot): Option<Status> {
    if slot.record.Some? then Some(slot.record.value.status) else None
  }

  /** The same live entry with the same membership sets, the same pending restart,
      the same persisted status, and the same answers sent in the same order. */
  ghost predicate Agree(a: Slot, b: Slot) {
    && a.live == b.live
    && a.restart == b.restart
    && StatusOf(a) == StatusOf(b)
    && AnswersOnly(a.out) == AnswersOnly(b.out)
  }

  /** The answers a disconnect sends for one dataflow. */
  function DisconnectAnswers(slot: Slot, lost: set<DaemonId>): seq<Output> {
    if slot.live.None? || !Affected(slot.live.value, lost) then []
    else
      (if slot.restart.Some? then [Answered(slot.restart.value.caller, RestartCancelled(DaemonLost))] else [])
      + (if Orphaned(slot.live.value, lost) then Reply(slot.live.value.stopWaiters, Stopped(map[])) else [])
  }

  lemma {:induction false} ReplyIsAnswers(cs: seq<Caller>, answer: Answer)
    ensures AnswersOnly(Reply(cs, answer)) == Reply(cs, answer)
  {
    if cs != [] {
      assert Reply(cs, answer)[1..] == Reply(cs[1..], answer);
      ReplyIsAnswers(cs[1..], answer);
      assert Reply(cs, answer) == [Answered(cs[0], answer)] + Reply(cs[1..], answer);
    }
  }

  lemma EmitSends(slot: Slot, outs: seq<Output>)
    ensures AnswersOnly(Emit(slot, outs).out) == AnswersOnly(slot.out) + AnswersOnly(outs)
  {
    AnswersOnlyConcat(slot.out, outs);
  }

  lemma CancelSends(slot: Slot)
    ensures AnswersOnly(CancelRestart(slot, DaemonLost).out) == AnswersOnly(slot.out) +
              if slot.restart.Some? then [Answered(slot.restart.value.caller, RestartCancelled(DaemonLost))] else []
  {
    if slot.restart.Some? {
      EmitSends(slot.(restart := None), [Answered(slot.restart.value.caller, RestartCancelled(DaemonLost))]);
    }
  }

  lemma ReclaimSends(slot: Slot, df: Dataflow, now: Millis, durable: bool)
    ensures AnswersOnly(Reclaim(slot, df, now, durable).out)
         == AnswersOnly(slot.out) + Reply(df.stopWaiters, Stopped(map[]))
  {
    EmitSends(Persist(slot, df, Recovering, now, durable).(live := None), Reply(df.stopWaiters, Stopped(map[])));
    ReplyIsAnswers(df.stopWaiters, Stopped(map[]));
  }

  lemma ReleaseSends(slot: Slot, df: Dataflow, now: Millis, readable: bool, durable: bool)
    ensures AnswersOnly(ReleaseBarrier(slot, df, now, readable, durable).out) == AnswersOnly(slot.out)
  {
    var df' := df.(barrierReleased := true);
    EmitSends(Persist(slot, df', BarrierStatus(slot, df', readable), now, durable),
              [BarrierBroadcast(df'.daemons, df'.exited)]);
  }

  lemma DisconnectSends(slot: Slot, lost: set<DaemonId>, now: Millis, readable: bool, durable: bool)
    ensures AnswersOnly(DisconnectSlot(slot, lost, now, readable, durable).out)
         == AnswersOnly(slot.out) + DisconnectAnswers(slot, lost)
  {
    if slot.live.Some? && Affected(slot.live.value, lost) {
      var df := Prune(slot.live.value, lost);
      var s1 := CancelRestart(slot, DaemonLost).(live := Some(df));
      CancelSends(slot);
      ReclaimSends(s1, df, now, durable);
      ReleaseSends(s1, df, now, readable, durable);
    }
  }

  /** What a disconnect leaves of the live entry, in one expression. */
  function Survivor(slot: Slot, lost: set<DaemonId>): Option<Dataflow> {
    if slot.live.None? || !Affected(slot.live.value, lost) then slot.live
    else if Orphaned(slot.live.value, lost) then None
    else if BarrierFreed(slot.live.value, lost) then
      var df := Prune(slot.live.value, lost);
      Some(df.(barrierReleased := true, generation := df.generation + 1))
    else Some(Prune(slot.live.value, lost))
  }

  function StatusAfter(slot: Slot, lost: set<DaemonId>, readable: bool, durable: bool): Option<Status> {
    if slot.live.None? || !Affected(slot.live.value, lost) || !durable then StatusOf(slot)
    else if Orphaned(slot.live.value, lost) then Some(Recovering)
    else if BarrierFreed(slot.live.value, lost) then Some(BarrierStatus(slot, slot.live.value, readable))
    else StatusOf(slot)
  }

  lemma DisconnectKeeps(slot: Slot, lost: set<DaemonId>, now: Millis, readable: bool, durable: bool)
    ensures var slot' := DisconnectSlot(slot, lost, now, readable, durable);
            && slot'.live == Survivor(slot, lost)
            && StatusOf(slot') == StatusAfter(slot, lost, readable, durable)
            && slot'.restart == (if slot.live.Some? && Affected(slot.live.value, lost) then None else slot.restart)
  {
  }

  lemma AffectedTwice(df: Dataflow, a: set<DaemonId>, b: set<DaemonId>)
    ensures Affected(df, a + b) <==> Affected(df, a) || Affected(Prune(df, a), b)
    ensures Prune(Prune(df, a), b) == Prune(df, a + b)
    ensures !Affected(df, a) ==> Prune(df, a) == df
  {
    var all := df.daemons + df.pendingDaemons + df.pendingSpawn;
    assert all !! a + b <==> all !! a && all - a !! b;
    assert Prune(df, a).daemons + Prune(df, a).pendingDaemons + Prune(df, a).pendingSpawn == all - a;
    assert df.daemons - a - b == df.daemons - (a + b);
    assert df.pendingDaemons - a - b == df.pendingDaemons - (a + b);
    assert df.pendingSpawn - a - b == df.pendingSpawn - (a + b);
    assert all !! a ==> df.daemons - a == df.daemons && df.pendingDaemons - a == df.pendingDaemons
                        && df.pendingSpawn - a == df.pendingSpawn;
  }

  lemma SurvivorTwice(slot: Slot, mid: Slot, a: set<DaemonId>, b: set<DaemonId>)
    requires mid.live == Survivor(slot, a)
    ensures Survivor(mid, b) == Survivor(slot, a + b)
  {
    if slot.live.Some? {
      AffectedTwice(slot.live.value, a, b);
      AffectedTwice(Prune(slot.live.value, a), b, {});
    }
  }

  lemma OrphanedTwice(df: Dataflow, a: set<DaemonId>, b: set<DaemonId>)
    ensures Orphaned(df, a + b) <==> Orphaned(df, a) || Orphaned(Prune(df, a), b)
    ensures BarrierFreed(df, a + b) <==>
              !Orphaned(df, a + b) && (BarrierFreed(df, a) || BarrierFreed(Prune(df, a), b))
  {
    AffectedTwice(df, a, b);
  }

  lemma StatusTwice(slot: Slot, mid: Slot, a: set<DaemonId>, b: set<DaemonId>, readable: bool, durable: bool)
    requires mid.live == Survivor(slot, a) && StatusOf(mid) == StatusAfter(slot, a, readable, durable)
    ensures StatusAfter(mid, b, readable, durable) == StatusAfter(slot, a + b, readable, durable)
  {
    if slot.live.Some? {
      AffectedTwice(slot.live.value, a, b);
      OrphanedTwice(slot.live.value, a, b);
    }
  }

  lemma AnswersTwice(slot: Slot, mid: Slot, a: set<DaemonId>, b: set<DaemonId>)
    requires mid.live == Survivor(slot, a)
    requires mid.restart == (if slot.live.Some? && Affected(slot.live.value, a) then None else slot.restart)
    ensures DisconnectAnswers(slot, a) + DisconnectAnswers(mid, b) == DisconnectAnswers(slot, a + b)
  {
    if slot.live.Some? {
      AffectedTwice(slot.live.value, a, b);
      OrphanedTwice(slot.live.value, a, b);
    }
  }

  lemma RestartTwice(slot: Slot, mid: Slot, a: set<DaemonId>, b: set<DaemonId>)
    requires mid.live == Survivor(slot, a)
    ensures slot.live.Some? && Affected(slot.live.value, a + b) <==>
              || (slot.live.Some? && Affected(slot.live.value, a))
              || (mid.live.Some? && Affected(mid.live.value, b))
  {
    if slot.live.Some? {
      AffectedTwice(slot.live.value, a, b);
    }
  }

  lemma ConcatTwice(x: seq<Output>, p: seq<Output>, q: seq<Output>)
    ensures x + p + q == x + (p + q)
  {
  }

  lemma SendsTwice(slot: Slot, a: set<DaemonId>, b: set<DaemonId>, t: Millis, t': Millis, t'': Millis, readable: bool,
                   durable: bool)
    ensures AnswersOnly(DisconnectSlot(DisconnectSlot(slot, a, t, readable, durable), b, t', readable, durable).out)
         == AnswersOnly(DisconnectSlot(slot, a + b, t'', readable, durable).out)
  {
    var mid := DisconnectSlot(slot, a, t, readable, durable);
    DisconnectKeeps(slot, a, t, readable, durable);
    DisconnectSends(slot, a, t, readable, durable);
    DisconnectSends(mid, b, t', readable, durable);
    DisconnectSends(slot, a + b, t'', readable, durable);
    AnswersTwice(slot, mid, a, b);
    ConcatTwice(AnswersOnly(slot.out), DisconnectAnswers(slot, a), DisconnectAnswers(mid, b));
  }

  lemma KeepsTwice(slot: Slot, a: set<DaemonId>, b: set<DaemonId>, t: Millis, t': Millis, t'': Millis, readable: bool,
                   durable: bool)
    ensures var fin := DisconnectSlot(DisconnectSlot(slot, a, t, readable, durable), b, t', readable, durable);
            var one := DisconnectSlot(slot, a + b, t'', readable, durable);
            fin.live == one.live && fin.restart == one.restart && StatusOf(fin) == StatusOf(one)
  {
    var mid := DisconnectSlot(slot, a, t, readable, durable);
    DisconnectKeeps(slot, a, t, readable, durable);
    DisconnectKeeps(mid, b, t', readable, durable);
    DisconnectKeeps(slot, a + b, t'', readable, durable);
    SurvivorTwice(slot, mid, a, b);
    StatusTwice(slot, mid, a, b, readable, durable);
    RestartTwice(slot, mid, a, b);
  }

  /** Two batches agree with one, whatever the clock says at each. */
  lemma DisconnectTwice(slot: Slot, a: set<DaemonId>, b: set<DaemonId>, t: Millis, t': Millis, t'': Millis,
                        readable: bool, durable: bool)
    ensures Agree(DisconnectSlot(DisconnectSlot(slot, a, t, readable, durable), b, t', readable, durable),
                  DisconnectSlot(slot, a + b, t'', readable, durable))
  {
    KeepsTwice(slot, a, b, t, t', t'', readable, durable);
    SendsTwice(slot, a, b, t, t', t'', readable, durable);
  }

  // ----- any number of batches ---------------------------------------------

  /** Daemons that are lost together, and when. */
  datatype Batch = Batch(lost: set<DaemonId>, at: Millis)

  function LoseEach(slot: Slot, batches: seq<Batch>, readable: bool, durable: bool): Slot
    decreases |batches|
  {
    if batches == [] then slot
    else LoseEach(DisconnectSlot(slot, batches[0].lost, batches[0].at, readable, durable), batches[1..], readable, durable)
  }

  function UnionOf(batches: seq<Batch>): set<DaemonId> {
    if batches == [] then {} else batches[0].lost + UnionOf(batches[1..])
  }

  /** Losing daemons batch by batch agrees with losing them all at once. */
  lemma {:induction false} BatchesAgree(slot: Slot, batches: seq<Batch>, now: Millis, readable: bool, durable: bool)
    ensures Agree(LoseEach(slot, batches, readable, durable),
                  DisconnectSlot(slot, UnionOf(batches), now, readable, durable))
    decreases |batches|
  {
    if batches != [] {
      var first := batches[0];
      BatchesAgree(DisconnectSlot(slot, first.lost, first.at, readable, durable), batches[1..], now, readable, durable);
      DisconnectTwice(slot, first.lost, UnionOf(batches[1..]), first.at, now, now, readable, durable);
    }
  }

  // ----- what one batch does -----------------------------------------------

  function Broadcasts(out: seq<Output>): nat {
    if out == [] then 0 else (if out[0].BarrierBroadcast? then 1 else 0) + Broadcasts(out[1..])
  }

  lemma {:induction false} BroadcastsConcat(a: seq<Output>, b: seq<Output>)
    ensures Broadcasts(a + b) == Broadcasts(a) + Broadcasts(b)
  {
    if a == [] {
      assert a + b == b;
    } else {
      assert (a + b)[1..] == a[1..] + b;
      BroadcastsConcat(a[1..], b);
    }
  }

  lemma {:induction false} AnswersAreNoBroadcasts(cs: seq<Caller>, answer: Answer)
    ensures Broadcasts(Reply(cs, answer)) == 0
  {
    if cs != [] {
      assert Reply(cs, answer)[1..] == Reply(cs[1..], answer);
      AnswersAreNoBroadcasts(cs[1..], answer);
    }
  }

  /** A batch reclaims exactly the affected spawned dataflows it leaves without a
      daemon, and releases the ready barrier once for exactly those whose last awaited
      daemon it takes while others survive. */
  lemma BatchActsOnce(slot: Slot, lost: set<DaemonId>, now: Millis, readable: bool, durable: bool)
    requires slot.live.Some?
    ensures var df, slot' := slot.live.value, DisconnectSlot(slot, lost, now, readable, durable);
            var hit := lost * (df.daemons + df.pendingDaemons + df.pendingSpawn) != {};
            && (slot'.live.None? <==> hit && df.spawn.SpawnOk? && df.daemons <= lost)
            && Broadcasts(slot'.out) - Broadcasts(slot.out)
               == (if hit && df.spawn.SpawnOk? && !(df.daemons <= lost)
                      && df.pendingDaemons != {} && df.pendingDaemons <= lost then 1 else 0)
  {
    var df := slot.live.value;
    AnswersAreNoBroadcasts(df.stopWaiters, Stopped(map[]));
    var s1 := CancelRestart(slot, DaemonLost);
    if slot.restart.Some? {
      BroadcastsConcat(slot.out, [Answered(slot.restart.value.caller, RestartCancelled(DaemonLost))]);
    }
    BroadcastsConcat(s1.out, Reply(df.stopWaiters, Stopped(map[])));
    BroadcastsConcat(s1.out, [BarrierBroadcast(df.daemons - lost, df.exited)]);
    assert Broadcasts([BarrierBroadcast(df.daemons - lost, df.exited)]) == 1;
    Disjoint(df.daemons + df.pendingDaemons + df.pendingSpawn, lost);
    Exhausted(df.daemons, lost);
    Exhausted(df.pendingDaemons, lost);
  }

  lemma Disjoint(a: set<DaemonId>, b: set<DaemonId>)
    ensures a !! b <==> b * a == {}
  {
    if d :| d in a && d in b {
      assert d in b * a;
    }
  }

  lemma Exhausted(a: set<DaemonId>, b: set<DaemonId>)
    ensures a - b == {} <==> a <= b
  {
    if a - b == {} {
      forall d | d in a ensures d in b {
        assert d !in a - b;
      }
    }
  }

  // ----- exits of the whole coordinator ------------------------------------

  /** The coordinator after the given daemons exit one after the other, at the given times. */
  ghost function ExitAll(s: State, ds: seq<DaemonId>, times: seq<Millis>, env: Env): State
    requires forall i :: 0 <= i < |ds| ==> ds[i] in s.conns
    requires Distinct(ds) && |times| == |ds|
    decreases |ds|
  {
    if ds == [] then s
    else
      assert forall i :: 0 <= i < |ds[1..]| ==> ds[1..][i] == ds[i + 1];
      ExitAll(Step(s, Exit(ds[0], s.conns[ds[0]].id, env.(now := times[0]))), ds[1..], times[1..], env)
  }

  /** Exits in any order: every dataflow ends up as if all the daemons had been lost in
      one batch, so two orders of the same exits agree on every dataflow. */
  lemma {:induction false} ExitsAgree(s: State, ds: seq<DaemonId>, times: seq<Millis>, env: Env, u: DataflowId)
    requires forall i :: 0 <= i < |ds| ==> ds[i] in s.conns
    requires Distinct(ds) && |times| == |ds|
    ensures ExitAll(s, ds, times, env).conns == s.conns - (set d | d in ds)
    ensures Agree(At(ExitAll(s, ds, times, env), u),
                  DisconnectSlot(At(s, u), (set d | d in ds), env.now, Readable(env, u), Durable(env, u)))
    decreases |ds|
  {
    if ds == [] {
      assert (set d | d in ds) == {};
    } else {
      var env1 := env.(now := times[0]);
      var e := Exit(ds[0], s.conns[ds[0]].id, env1);
      var s1 := Step(s, e);
      var rest := set d | d in ds[1..];
      assert forall i :: 0 <= i < |ds[1..]| ==> ds[1..][i] == ds[i + 1];
      assert (set d | d in ds) == {ds[0]} + rest;
      StepIsPointwise(s, e, u);
      assert Readable(env1, u) == Readable(env, u) && Durable(env1, u) == Durable(env, u);
      ExitsAgree(s1, ds[1..], times[1..], env, u);
      DisconnectTwice(At(s, u), {ds[0]}, rest, times[0], env.now, env.now, Readable(env, u), Durable(env, u));
      assert s1.conns == s.conns - {ds[0]};
    }
  }
}
