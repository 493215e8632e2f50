/** What the coordinator's messages say: every answer and every message to a daemon is true
    of the event that caused it, and the messages that are due are sent. */
module AnswerMeaning {
  import opened Common
  import opened CoordinatorTypes
  import opened DataflowSlot
  import opened Coordinator
  import opened CoordinatorInvariants

  // ----- true messages -----------------------------------------------------

  predicate AsksToStop(u: DataflowId, e: Event, x: Ctx, c: Caller) {
    (e.StopReq? || e.StopByName?) && x.target == Some(u) && e.caller == c
  }

  predicate AsksToRestart(u: DataflowId, e: Event, x: Ctx, c: Caller) {
    (e.RestartReq? || e.RestartByName?) && x.target == Some(u) && e.caller == c
  }

  predicate WaitsForSpawn(slot: Slot, c: Caller) {
    slot.live.Some? && slot.live.value.spawn.SpawnPending? && c in slot.live.value.spawn.waiters
  }

  predicate WaitsForStop(slot: Slot, c: Caller) {
    slot.live.Some? && c in slot.live.value.stopWaiters
  }

  /** `e` makes the spawn of `u` fail: a daemon says so, or it has taken longer than a
      minute. */
  predicate EndsSpawn(u: DataflowId, slot: Slot, e: Event) {
    && slot.live.Some? && slot.live.value.spawn.SpawnPending?
    && ((e.SpawnReport? && e.uuid == u && !e.ok) || (e.Tick? && e.env.now > slot.live.value.spawnStartedAt + 60_000))
  }

  /** `e` is the report of the last daemon that `u` finished. */
  predicate EndsRun(u: DataflowId, slot: Slot, e: Event) {
    e.Finished? && e.uuid == u && slot.live.Some? && forall d :: d in slot.live.value.daemons ==> d == e.daemon
  }

  /** What those who wait for `u` to stop are told: the collected results of a finished
      dataflow, the failures of a failed spawn, or nothing if its daemons are gone. */
  function ResultsAtEnd(slot: Slot, e: Event, x: Ctx): Results
    requires slot.live.Some?
  {
    if e.Finished? then KnownResults(x.results)[e.daemon := e.result]
    else if slot.live.value.spawn.SpawnPending? then KnownResults(x.results) + SyntheticResults(slot.live.value)
    else map[]
  }

  ghost predicate TrueReason(u: DataflowId, slot: Slot, e: Event, x: Ctx, slot': Slot, reason: CancelReason) {
    match reason
    case DaemonLost =>
      && slot.live.Some?
      && exists d :: d in x.lost && (d in slot.live.value.daemons || d in slot.live.value.pendingDaemons
                                     || d in slot.live.value.pendingSpawn)
    case StoppedFirst => (e.StopReq? || e.StopByName?) && x.target == Some(u)
    case SpawnGaveUp => EndsSpawn(u, slot, e) && slot'.live.None?
  }

  ghost predicate TrueAnswer(u: DataflowId, slot: Slot, e: Event, x: Ctx, slot': Slot, c: Caller, a: Answer) {
    match a
    case StartTriggered => e.StartReq? && x.target == Some(u) && e.caller == c && slot'.live.Some?
    case Spawned =>
      || (&& e.SpawnReport? && e.uuid == u && e.ok && WaitsForSpawn(slot, c)
          && slot'.live.Some? && slot'.live.value.spawn.SpawnOk?)
      || (&& e.WaitForSpawn? && e.uuid == u && e.caller == c && slot.live.Some? && slot.live.value.spawn.SpawnOk?)
    case SpawnFailed => WaitsForSpawn(slot, c) && slot'.live.None? && (EndsSpawn(u, slot, e) || EndsRun(u, slot, e))
    case Stopped(r) =>
      || (AsksToStop(u, e, x, c) && slot.live.None? && x.results == Some(r))
      || (WaitsForStop(slot, c) && slot'.live.None? && r == ResultsAtEnd(slot, e, x))
    case StopRejected =>
      && (AsksToStop(u, e, x, c) || AsksToRestart(u, e, x, c)) && slot.live.Some?
      && exists d :: d in slot.live.value.daemons && d !in e.acks
    case RestartedAs(v) =>
      && EndsRun(u, slot, e) && slot.restart.Some? && slot.restart.value.caller == c
      && e.started.Some? && e.started.value.uuid == v
    case RestartFailed => EndsRun(u, slot, e) && slot.restart.Some? && slot.restart.value.caller == c && e.started.None?
    case RestartCancelled(reason) =>
      && slot.restart.Some? && slot.restart.value.caller == c && slot'.restart.None?
      && TrueReason(u, slot, e, x, slot', reason)
    case AlreadyRestarting => AsksToRestart(u, e, x, c) && slot.restart.Some?
    case UnknownDataflow =>
      && slot.live.None?
      && (|| (AsksToStop(u, e, x, c) && x.results.None?) || AsksToRestart(u, e, x, c)
          || (e.WaitForSpawn? && e.uuid == u && e.caller == c))
  }

  /** The reporting daemon must not run `u` any more. */
  predicate OrphanReported(u: DataflowId, slot: Slot, e: Event, x: Ctx) {
    && e.Report? && Reports(e.entries, u)
    && (x.archived || (Readable(e.env, u) && slot.record.Some? && slot.record.value.status in {Succeeded, Failed(true)}))
  }

  /** Who already started nodes of a dataflow whose spawn fails. */
  predicate HadStarted(slot: Slot, e: Event, x: Ctx, d: DaemonId)
    requires slot.live.Some?
  {
    && d in slot.live.value.daemons && d !in x.lost
    && (d !in slot.live.value.pendingSpawn || (e.SpawnReport? && e.daemon == d))
  }

  ghost predicate TrueMessage(u: DataflowId, slot: Slot, e: Event, x: Ctx, slot': Slot, o: Output) {
    match o
    case Answered(c, a) => TrueAnswer(u, slot, e, x, slot', c, a)
    case StopOrphan(d) => OrphanReported(u, slot, e, x) && e.daemon == d && x.connected
    case Rollback(ds) =>
      || (e.SpawnReport? && e.uuid == u && e.ok && slot.live.None? && x.archived && ds == {e.daemon})
      || (EndsSpawn(u, slot, e) && ds != {} && forall d :: d in ds <==> HadStarted(slot, e, x, d))
    case Respawn(d, nodes, at) =>
      && e.Report? && e.daemon == d && x.connected && !Reports(e.entries, u) && at == e.env.now
      && slot.live.Some? && d in slot.live.value.daemons
      && forall n :: n in nodes <==> n in slot.live.value.nodeToDaemon && slot.live.value.nodeToDaemon[n] == d
    case BarrierBroadcast(ds, exited) =>
      && ((e.Ready? && e.uuid == u) || e.Exit? || e.Tick?) && slot'.live.Some? && slot'.live.value.barrierReleased
      && ds == slot'.live.value.daemons && exited == slot'.live.value.exited
    case BarrierReplay(d, exited) =>
      && e.Report? && e.daemon == d && x.connected && Reports(e.entries, u) && slot'.live.Some?
      && slot'.live.value.barrierReleased && exited == slot'.live.value.exited
  }

  /** A step only adds messages, and those it adds are true. */
  ghost predicate AddsTrue(u: DataflowId, slot: Slot, e: Event, x: Ctx, slot': Slot) {
    slot.out <= slot'.out && forall o :: o in slot'.out[|slot.out|..] ==> TrueMessage(u, slot, e, x, slot', o)
  }

  lemma Adds(u: DataflowId, slot: Slot, e: Event, x: Ctx, slot': Slot, news: seq<Output>)
    requires slot'.out == slot.out + news && forall o :: o in news ==> TrueMessage(u, slot, e, x, slot', o)
    ensures AddsTrue(u, slot, e, x, slot')
  {
    assert slot'.out[|slot.out|..] == news;
  }

  lemma ReplyIs(cs: seq<Caller>, answer: Answer, o: Output)
    requires o in Reply(cs, answer)
    ensures o.Answered? && o.caller in cs && o.answer == answer
  {
  }

  // ----- what each event sends ---------------------------------------------

  function CancelNews(slot: Slot, reason: CancelReason): seq<Output> {
    if slot.restart.None? then [] else [Answered(slot.restart.value.caller, RestartCancelled(reason))]
  }

  function DisconnectNews(slot: Slot, lost: set<DaemonId>): seq<Output> {
    if slot.live.None? || !Affected(slot.live.value, lost) then []
    else
      var df := slot.live.value;
      CancelNews(slot, DaemonLost)
      + if Orphaned(df, lost) then Reply(df.stopWaiters, Stopped(map[]))
        else if BarrierFreed(df, lost) then [BarrierBroadcast(df.daemons - lost, df.exited)]
        else []
  }

  lemma DisconnectAdds(slot: Slot, lost: set<DaemonId>, now: Millis, readable: bool, durable: bool)
    ensures DisconnectSlot(slot, lost, now, readable, durable).out == slot.out + DisconnectNews(slot, lost)
  {
  }

  function FailNews(slot: Slot, df: Dataflow, results: Results): seq<Output> {
    var rollback := df.daemons - df.pendingSpawn;
    Reply(SpawnWaiters(df.spawn), SpawnFailed) + (if rollback == {} then [] else [Rollback(rollback)])
    + CancelNews(slot, SpawnGaveUp) + Reply(df.stopWaiters, Stopped(results))
  }

  lemma FailAdds(slot: Slot, df: Dataflow, results: Results, now: Millis, durable: bool)
    ensures FailSpawn(slot, df, results, now, durable).out == slot.out + FailNews(slot, df, results)
    ensures FailSpawn(slot, df, results, now, durable).live.None?
    ensures FailSpawn(slot, df, results, now, durable).restart.None?
  {
    var rollback := df.daemons - df.pendingSpawn;
    var a, b := Reply(SpawnWaiters(df.spawn), SpawnFailed), if rollback == {} then [] else [Rollback(rollback)];
    var c, d := CancelNews(slot, SpawnGaveUp), Reply(df.stopWaiters, Stopped(results));
    FourPieces(slot.out, a, b, c, d);
  }

  lemma FourPieces<T>(out: seq<T>, a: seq<T>, b: seq<T>, c: seq<T>, d: seq<T>)
    ensures out + (a + b + c + d) == out + a + b + c + d
    ensures out + [] == out
    ensures out + a + [] == out + a
    ensures out + a + b + [] == out + a + b
  {
  }

  // ----- disconnects and watchdogs -----------------------------------------

  /** The messages of the disconnect half of `e` are true. */
  lemma DisconnectIsTrue(u: DataflowId, slot: Slot, e: Event, x: Ctx, mid: Slot, slot': Slot, o: Output)
    requires e.Exit? || e.Tick?
    requires mid == DisconnectSlot(slot, x.lost, e.env.now, Readable(e.env, u), Durable(e.env, u))
    requires o in DisconnectNews(slot, x.lost)
    requires mid.restart.None? ==> slot'.restart.None?
    requires mid.live.None? ==> slot'.live.None?
    requires mid.live.Some? && mid.live.value.spawn.SpawnOk? ==> slot'.live == mid.live
    ensures TrueMessage(u, slot, e, x, slot', o)
  {
    var df := slot.live.value;
    if o in CancelNews(slot, DaemonLost) {
      var d :| d in df.daemons + df.pendingDaemons + df.pendingSpawn && d in x.lost;
    } else if Orphaned(df, x.lost) {
      ReplyIs(df.stopWaiters, Stopped(map[]), o);
    }
  }

  /** The messages of a failed spawn are true. */
  lemma FailIsTrue(u: DataflowId, slot: Slot, e: Event, x: Ctx, mid: Slot, df: Dataflow, slot': Slot, o: Output)
    requires EndsSpawn(u, slot, e) && slot'.live.None? && slot'.restart.None? && (mid.restart == slot.restart || mid.restart.None?)
    requires df.spawn == slot.live.value.spawn && df.stopWaiters == slot.live.value.stopWaiters
    requires df.nodeToDaemon == slot.live.value.nodeToDaemon
    requires forall d :: d in df.daemons - df.pendingSpawn <==> HadStarted(slot, e, x, d)
    requires o in FailNews(mid, df, KnownResults(x.results) + SyntheticResults(df))
    ensures TrueMessage(u, slot, e, x, slot', o)
  {
    var results := KnownResults(x.results) + SyntheticResults(df);
    assert SyntheticResults(df) == SyntheticResults(slot.live.value);
    if o in Reply(SpawnWaiters(df.spawn), SpawnFailed) {
      ReplyIs(SpawnWaiters(df.spawn), SpawnFailed, o);
    } else if o in Reply(df.stopWaiters, Stopped(results)) {
      ReplyIs(df.stopWaiters, Stopped(results), o);
    }
  }

  lemma ExitIsTrue(u: DataflowId, slot: Slot, e: Event, x: Ctx)
    requires e.Exit?
    ensures AddsTrue(u, slot, e, x, SlotStep(u, slot, e, x))
  {
    var slot' := SlotStep(u, slot, e, x);
    DisconnectAdds(slot, x.lost, e.env.now, Readable(e.env, u), Durable(e.env, u));
    forall o | o in DisconnectNews(slot, x.lost)
      ensures TrueMessage(u, slot, e, x, slot', o)
    {
      DisconnectIsTrue(u, slot, e, x, slot', slot', o);
    }
    Adds(u, slot, e, x, slot', DisconnectNews(slot, x.lost));
  }

  /** The slot between the two halves of a tick. */
  function MidTick(u: DataflowId, slot: Slot, x: Ctx, env: Env): Slot {
    DisconnectSlot(slot, x.lost, env.now, Readable(env, u), Durable(env, u))
  }

  lemma MidTickIs(u: DataflowId, slot: Slot, x: Ctx, env: Env)
    ensures var mid := MidTick(u, slot, x, env);
            && (mid.restart == slot.restart || mid.restart.None?)
            && (mid.live.Some? ==>
                  && slot.live.Some?
                  && mid.live.value.spawn == slot.live.value.spawn && mid.live.value.stopWaiters == slot.live.value.stopWaiters
                  && mid.live.value.nodeToDaemon == slot.live.value.nodeToDaemon
                  && mid.live.value.spawnStartedAt == slot.live.value.spawnStartedAt
                  && mid.live.value.daemons == slot.live.value.daemons - x.lost
                  && mid.live.value.pendingSpawn == slot.live.value.pendingSpawn - x.lost)
  {
    if slot.live.Some? && !Affected(slot.live.value, x.lost) {
      var df := slot.live.value;
      assert df.daemons - x.lost == df.daemons && df.pendingSpawn - x.lost == df.pendingSpawn;
    }
  }

  /** What the watchdog half of a tick sends. */
  function WatchdogNews(mid: Slot, x: Ctx, now: Millis): seq<Output> {
    if mid.live.Some? && SpawnStuck(mid.live.value, now)
    then FailNews(mid, mid.live.value, FailedResults(mid, x.results)) else []
  }

  lemma TickEnds(u: DataflowId, slot: Slot, x: Ctx, env: Env)
    ensures var mid, slot' := MidTick(u, slot, x, env), TickSlot(u, slot, x, env);
            && slot'.out == mid.out + WatchdogNews(mid, x, env.now)
            && (if mid.live.Some? && SpawnStuck(mid.live.value, env.now) then slot'.live.None? && slot'.restart.None?
                else slot'.live == mid.live && slot'.restart == mid.restart)
  {
    var mid := MidTick(u, slot, x, env);
    if mid.live.Some? {
      FailAdds(mid, mid.live.value, FailedResults(mid, x.results), env.now, Durable(env, u));
    }
    assert mid.out + [] == mid.out;
  }

  lemma WatchdogIsTrue(u: DataflowId, slot: Slot, e: Event, x: Ctx, mid: Slot, slot': Slot, o: Output)
    requires e.Tick? && mid == MidTick(u, slot, x, e.env) && slot' == TickSlot(u, slot, x, e.env)
    requires o in WatchdogNews(mid, x, e.env.now)
    ensures TrueMessage(u, slot, e, x, slot', o)
  {
    MidTickIs(u, slot, x, e.env);
    TickEnds(u, slot, x, e.env);
    FailIsTrue(u, slot, e, x, mid, mid.live.value, slot', o);
  }

  lemma TickMessageIsTrue(u: DataflowId, slot: Slot, e: Event, x: Ctx, mid: Slot, slot': Slot, o: Output)
    requires e.Tick? && mid == MidTick(u, slot, x, e.env) && slot' == TickSlot(u, slot, x, e.env)
    requires o in DisconnectNews(slot, x.lost) || o in WatchdogNews(mid, x, e.env.now)
    ensures TrueMessage(u, slot, e, x, slot', o)
  {
    if o in DisconnectNews(slot, x.lost) {
      TickEnds(u, slot, x, e.env);
      DisconnectIsTrue(u, slot, e, x, mid, slot', o);
    } else {
      WatchdogIsTrue(u, slot, e, x, mid, slot', o);
    }
  }

  lemma TickOut(u: DataflowId, slot: Slot, x: Ctx, env: Env)
    ensures TickSlot(u, slot, x, env).out
         == slot.out + (DisconnectNews(slot, x.lost) + WatchdogNews(MidTick(u, slot, x, env), x, env.now))
  {
    var mid := MidTick(u, slot, x, env);
    DisconnectAdds(slot, x.lost, env.now, Readable(env, u), Durable(env, u));
    TickEnds(u, slot, x, env);
    Regrouped(slot.out, DisconnectNews(slot, x.lost), WatchdogNews(mid, x, env.now));
  }

  lemma Regrouped<T>(a: seq<T>, b: seq<T>, c: seq<T>)
    ensures a + b + c == a + (b + c)
  {
  }

  lemma TickIsTrue(u: DataflowId, slot: Slot, e: Event, x: Ctx)
    requires e.Tick?
    ensures AddsTrue(u, slot, e, x, SlotStep(u, slot, e, x))
  {
    var mid, slot' := MidTick(u, slot, x, e.env), TickSlot(u, slot, x, e.env);
    var news := DisconnectNews(slot, x.lost) + WatchdogNews(mid, x, e.env.now);
    forall o | o in news
      ensures TrueMessage(u, slot, e, x, slot', o)
    {
      TickMessageIsTrue(u, slot, e, x, mid, slot', o);
    }
    TickOut(u, slot, x, e.env);
    Adds(u, slot, e, x, slot', news);
  }

  // ----- finishing and spawning --------------------------------------------

  lemma FinishIsTrue(u: DataflowId, slot: Slot, e: Event, x: Ctx)
    requires e.Finished? && e.uuid == u
    ensures AddsTrue(u, slot, e, x, SlotStep(u, slot, e, x))
  {
    var slot' := SlotStep(u, slot, e, x);
    if slot.live.None? || slot.live.value.daemons - {e.daemon} != {} {
      Adds(u, slot, e, x, slot', []);
    } else {
      var df, results := slot.live.value, KnownResults(x.results)[e.daemon := e.result];
      var stops, spawns := Reply(df.stopWaiters, Stopped(results)), Reply(SpawnWaiters(df.spawn), SpawnFailed);
      var news := RestartOutcome(slot.restart, e.started) + (stops + spawns);
      assert slot'.out == slot.out + news;
      assert EndsRun(u, slot, e) by {
        forall d | d in df.daemons ensures d == e.daemon {
          assert d !in df.daemons - {e.daemon};
        }
      }
      forall o | o in news
        ensures TrueMessage(u, slot, e, x, slot', o)
      {
        if o in stops {
          ReplyIs(df.stopWaiters, Stopped(results), o);
        } else if o in spawns {
          ReplyIs(SpawnWaiters(df.spawn), SpawnFailed, o);
        }
      }
      Adds(u, slot, e, x, slot', news);
    }
  }

  lemma SpawnReportIsTrue(u: DataflowId, slot: Slot, e: Event, x: Ctx)
    requires e.SpawnReport? && e.uuid == u && x.lost == {}
    ensures AddsTrue(u, slot, e, x, SlotStep(u, slot, e, x))
  {
    var slot' := SlotStep(u, slot, e, x);
    if SpawnFails(slot, e.ok) {
      var df := slot.live.value.(pendingSpawn := slot.live.value.pendingSpawn - {e.daemon});
      var results := FailedResults(slot, x.results);
      FailAdds(slot, df, results, e.env.now, Durable(e.env, u));
      assert SyntheticResults(df) == SyntheticResults(slot.live.value);
      forall o | o in FailNews(slot, df, results)
        ensures TrueMessage(u, slot, e, x, slot', o)
      {
        FailIsTrue(u, slot, e, x, slot, df, slot', o);
      }
      Adds(u, slot, e, x, slot', FailNews(slot, df, results));
    } else if slot.live.Some? && slot.live.value.spawn.SpawnPending? && slot'.live.value.spawn.SpawnOk? {
      var waiters := slot.live.value.spawn.waiters;
      forall o | o in Reply(waiters, Spawned)
        ensures TrueMessage(u, slot, e, x, slot', o)
      {
        ReplyIs(waiters, Spawned, o);
      }
      Adds(u, slot, e, x, slot', Reply(waiters, Spawned));
    } else {
      Adds(u, slot, e, x, slot', if slot.live.None? && e.ok && x.archived then [Rollback({e.daemon})] else []);
    }
  }

  lemma ReadyIsTrue(u: DataflowId, slot: Slot, e: Event, x: Ctx)
    requires e.Ready? && e.uuid == u
    ensures AddsTrue(u, slot, e, x, SlotStep(u, slot, e, x))
  {
    var slot' := SlotStep(u, slot, e, x);
    if slot.live.Some? && slot'.live.value.pendingDaemons == {} {
      Adds(u, slot, e, x, slot', [BarrierBroadcast(slot.live.value.daemons, slot.live.value.exited + e.exited)]);
    } else {
      Adds(u, slot, e, x, slot', []);
    }
  }

  // ----- requests ----------------------------------------------------------

  lemma StopIsTrue(u: DataflowId, slot: Slot, e: Event, x: Ctx)
    requires (e.StopReq? || e.StopByName?) && x.target == Some(u)
    ensures AddsTrue(u, slot, e, x, SlotStep(u, slot, e, x))
  {
    var slot' := SlotStep(u, slot, e, x);
    var cancel := CancelNews(slot, StoppedFirst);
    if slot.live.None? {
      var answer := if x.results.Some? then Stopped(x.results.value) else UnknownDataflow;
      Adds(u, slot, e, x, slot', cancel + [Answered(e.caller, answer)]);
    } else if !(slot.live.value.daemons <= e.acks) {
      var d :| d in slot.live.value.daemons && d !in e.acks;
      Adds(u, slot, e, x, slot', cancel + [Answered(e.caller, StopRejected)]);
    } else {
      Adds(u, slot, e, x, slot', cancel);
    }
  }

  lemma RestartIsTrue(u: DataflowId, slot: Slot, e: Event, x: Ctx)
    requires (e.RestartReq? || e.RestartByName?) && x.target == Some(u)
    ensures AddsTrue(u, slot, e, x, SlotStep(u, slot, e, x))
  {
    var slot' := SlotStep(u, slot, e, x);
    if slot.restart.Some? {
      Adds(u, slot, e, x, slot', [Answered(e.caller, AlreadyRestarting)]);
    } else if slot.live.None? {
      Adds(u, slot, e, x, slot', [Answered(e.caller, UnknownDataflow)]);
    } else if !(slot.live.value.daemons <= e.acks) {
      var d :| d in slot.live.value.daemons && d !in e.acks;
      Adds(u, slot, e, x, slot', [Answered(e.caller, StopRejected)]);
    } else {
      Adds(u, slot, e, x, slot', []);
    }
  }

  lemma WaitIsTrue(u: DataflowId, slot: Slot, e: Event, x: Ctx)
    requires e.WaitForSpawn? && e.uuid == u && Sound(slot)
    ensures AddsTrue(u, slot, e, x, SlotStep(u, slot, e, x))
  {
    var slot' := SlotStep(u, slot, e, x);
    if slot.live.None? {
      Adds(u, slot, e, x, slot', [Answered(e.caller, UnknownDataflow)]);
    } else if slot.live.value.spawn.SpawnOk? {
      Adds(u, slot, e, x, slot', [Answered(e.caller, Spawned)]);
    } else {
      Adds(u, slot, e, x, slot', []);
    }
  }

  lemma StartIsTrue(u: DataflowId, slot: Slot, e: Event, x: Ctx)
    requires e.StartReq? && x.target == Some(u) && e.started.Some?
    ensures AddsTrue(u, slot, e, x, SlotStep(u, slot, e, x))
  {
    Adds(u, slot, e, x, SlotStep(u, slot, e, x), [Answered(e.caller, StartTriggered)]);
  }

  // ----- status reports ----------------------------------------------------

  /** What reconciling may send: orphans are stopped, a missed barrier is replayed. */
  ghost predicate ReconcileMessage(slot: Slot, d: DaemonId, archived: bool, connected: bool, readable: bool, slot': Slot,
                                   o: Output)
  {
    && connected
    && (|| (&& o == StopOrphan(d)
            && (archived || (readable && slot.record.Some? && slot.record.value.status in {Succeeded, Failed(true)})))
        || (slot'.live.Some? && slot'.live.value.barrierReleased && o == BarrierReplay(d, slot'.live.value.exited)))
  }

  lemma {:induction false} ReconcileAllAdds(u: DataflowId, slot: Slot, d: DaemonId, entries: seq<StatusEntry>,
                                            archived: bool, connected: bool, now: Millis, readable: bool, durable: bool)
    ensures var slot' := ReconcileAll(u, slot, d, entries, archived, connected, now, readable, durable);
            && slot.out <= slot'.out
            && (forall o :: o in slot'.out[|slot.out|..] ==>
                  Reports(entries, u) && ReconcileMessage(slot, d, archived, connected, readable, slot', o))
            && KeepsBarrier(slot, slot')
    decreases |entries|
  {
    if entries != [] {
      var s1 := if entries[0].uuid == u
                then ReconcileSlot(slot, d, entries[0].nodes, archived, connected, now, readable, durable)
                else slot;
      var slot' := ReconcileAll(u, slot, d, entries, archived, connected, now, readable, durable);
      ReconcileAdds(slot, d, entries[0].nodes, archived, connected, now, readable, durable);
      ReconcileAllAdds(u, s1, d, entries[1..], archived, connected, now, readable, durable);
      LaterReports(entries, u);
      forall o | o in slot'.out[|slot.out|..]
        ensures Reports(entries, u) && ReconcileMessage(slot, d, archived, connected, readable, slot', o)
      {
        if o !in s1.out[|slot.out|..] {
          assert o in slot'.out[|s1.out|..];
        }
      }
    }
  }

  lemma LaterReports(entries: seq<StatusEntry>, u: DataflowId)
    requires entries != []
    ensures entries[0].uuid == u || Reports(entries[1..], u) ==> Reports(entries, u)
  {
    if Reports(entries[1..], u) {
      var i :| 0 <= i < |entries[1..]| && entries[1..][i].uuid == u;
      assert entries[i + 1].uuid == u;
    }
  }

  /** A live entry keeps its barrier, and an open record never becomes final. */
  ghost predicate KeepsBarrier(slot: Slot, slot': Slot) {
    && (slot.live.Some? ==>
          && slot'.live.Some? && slot'.live.value.barrierReleased == slot.live.value.barrierReleased
          && slot'.live.value.exited == slot.live.value.exited)
    && (slot'.record.Some? && slot'.record.value.status in {Succeeded, Failed(true)} ==> slot'.record == slot.record)
  }

  lemma ReconcileAdds(slot: Slot, d: DaemonId, nodes: seq<NodeId>, archived: bool, connected: bool, now: Millis,
                      readable: bool, durable: bool)
    ensures var slot' := ReconcileSlot(slot, d, nodes, archived, connected, now, readable, durable);
            && slot.out <= slot'.out && KeepsBarrier(slot, slot')
            && (forall o :: o in slot'.out[|slot.out|..] ==>
                  ReconcileMessage(slot, d, archived, connected, readable, slot', o))
  {
    var slot' := ReconcileSlot(slot, d, nodes, archived, connected, now, readable, durable);
    ReconcileKeepsBarrier(slot, d, nodes, archived, connected, now, readable, durable);
    if slot'.out != slot.out {
      var o := ReconcileAddsOne(slot, d, nodes, archived, connected, now, readable, durable);
      assert slot'.out[|slot.out|..] == [o];
    }
  }

  lemma ReconcileKeepsBarrier(slot: Slot, d: DaemonId, nodes: seq<NodeId>, archived: bool, connected: bool, now: Millis,
                              readable: bool, durable: bool)
    ensures KeepsBarrier(slot, ReconcileSlot(slot, d, nodes, archived, connected, now, readable, durable))
  {
  }

  lemma ReconcileAddsOne(slot: Slot, d: DaemonId, nodes: seq<NodeId>, archived: bool, connected: bool, now: Millis,
                         readable: bool, durable: bool) returns (o: Output)
    requires ReconcileSlot(slot, d, nodes, archived, connected, now, readable, durable).out != slot.out
    ensures var slot' := ReconcileSlot(slot, d, nodes, archived, connected, now, readable, durable);
            slot'.out == slot.out + [o] && ReconcileMessage(slot, d, archived, connected, readable, slot', o)
  {
    var slot' := ReconcileSlot(slot, d, nodes, archived, connected, now, readable, durable);
    if archived || slot.record.value.status in {Succeeded, Failed(true)} {
      o := StopOrphan(d);
    } else {
      o := BarrierReplay(d, slot'.live.value.exited);
    }
  }

  lemma ReportIsTrue(u: DataflowId, slot: Slot, e: Event, x: Ctx)
    requires e.Report?
    ensures AddsTrue(u, slot, e, x, SlotStep(u, slot, e, x))
  {
    var env, slot' := e.env, SlotStep(u, slot, e, x);
    var mid := ReconcileAll(u, slot, e.daemon, e.entries, x.archived, x.connected, env.now, Readable(env, u), Durable(env, u));
    ReconcileAllAdds(u, slot, e.daemon, e.entries, x.archived, x.connected, env.now, Readable(env, u), Durable(env, u));
    var news := mid.out[|slot.out|..];
    if Reports(e.entries, u) {
      assert slot'.out == mid.out;
      Adds(u, slot, e, x, slot', news);
    } else {
      NotReported(u, slot, e, x);
      RecoverIsTrue(u, slot, e, x);
    }
  }

  lemma NotReported(u: DataflowId, slot: Slot, e: Event, x: Ctx)
    requires e.Report? && !Reports(e.entries, u)
    ensures SlotStep(u, slot, e, x) == AutoRecoverSlot(slot, e.daemon, false, x.connected, e.env.now)
  {
    ReconcileNone(u, slot, e.daemon, e.entries, x, e.env);
  }

  lemma RecoverIsTrue(u: DataflowId, slot: Slot, e: Event, x: Ctx)
    requires e.Report? && !Reports(e.entries, u)
    ensures AddsTrue(u, slot, e, x, AutoRecoverSlot(slot, e.daemon, false, x.connected, e.env.now))
  {
    var slot' := AutoRecoverSlot(slot, e.daemon, false, x.connected, e.env.now);
    if slot'.out == slot.out {
      Adds(u, slot, e, x, slot', []);
    } else {
      Adds(u, slot, e, x, slot', [Respawn(e.daemon, NodesOn(slot.live.value, e.daemon), e.env.now)]);
    }
  }

  // ----- every step, every run ---------------------------------------------

  lemma SlotAddsTrue(u: DataflowId, slot: Slot, e: Event, x: Ctx)
    requires Sound(slot) && (!e.Exit? && !e.Tick? ==> x.lost == {})
    requires e.StartReq? && x.target == Some(u) ==> e.started.Some?
    ensures AddsTrue(u, slot, e, x, SlotStep(u, slot, e, x))
  {
    match e
    case Exit(_, _, _) => ExitIsTrue(u, slot, e, x);
    case Tick(_, _, _) => TickIsTrue(u, slot, e, x);
    case Report(_, _, _) => ReportIsTrue(u, slot, e, x);
    case _ => OtherAddsTrue(u, slot, e, x);
  }

  lemma OtherAddsTrue(u: DataflowId, slot: Slot, e: Event, x: Ctx)
    requires Sound(slot) && x.lost == {} && !e.Exit? && !e.Tick? && !e.Report?
    requires e.StartReq? && x.target == Some(u) ==> e.started.Some?
    ensures AddsTrue(u, slot, e, x, SlotStep(u, slot, e, x))
  {
    if e.Finished? && e.uuid == u {
      FinishIsTrue(u, slot, e, x);
    } else if e.SpawnReport? && e.uuid == u {
      SpawnReportIsTrue(u, slot, e, x);
    } else if e.Ready? && e.uuid == u {
      ReadyIsTrue(u, slot, e, x);
    } else if (e.StopReq? || e.StopByName?) && x.target == Some(u) {
      StopIsTrue(u, slot, e, x);
    } else if (e.RestartReq? || e.RestartByName?) && x.target == Some(u) {
      RestartIsTrue(u, slot, e, x);
    } else if e.WaitForSpawn? && e.uuid == u {
      WaitIsTrue(u, slot, e, x);
    } else if e.StartReq? && x.target == Some(u) {
      StartIsTrue(u, slot, e, x);
    } else {
      Adds(u, slot, e, x, SlotStep(u, slot, e, x), []);
    }
  }

  /** One step: whatever is sent on behalf of `u` is true of the event, the state it found
      and the state it left. */
  lemma StepAddsTrue(s: State, e: Event, u: DataflowId)
    requires Inv(s)
    ensures AddsTrue(u, At(s, u), e, CtxOf(s, e, u), At(Step(s, e), u))
  {
    StepIsPointwise(s, e, u);
    SlotAddsTrue(u, At(s, u), e, CtxOf(s, e, u));
  }

  /** Main result. Every message the coordinator ever sent on behalf of a dataflow goes back
      to a step that made it true: nobody is told of a spawn, a stop, a restart or a failure
      that did not happen just then. */
  lemma {:induction false} MessagesAreTrue(states: seq<State>, events: seq<Event>, u: DataflowId, n: nat, j: nat)
    returns (k: nat)
    requires IsRun(states, events) && states[0] == INITIAL && n <= |events| && j < |At(states[n], u).out|
    ensures k < n
    ensures TrueMessage(u, At(states[k], u), events[k], CtxOf(states[k], events[k], u), At(states[k + 1], u),
                        At(states[n], u).out[j])
    decreases n
  {
    OutGrows(states, events, u, n - 1);
    if j < |At(states[n - 1], u).out| {
      k := MessagesAreTrue(states, events, u, n - 1, j);
      assert At(states[n], u).out[j] == At(states[n - 1], u).out[j];
    } else {
      NewMessageIsTrue(states, events, u, n - 1, j);
      k := n - 1;
    }
  }

  lemma OutGrows(states: seq<State>, events: seq<Event>, u: DataflowId, i: nat)
    requires IsRun(states, events) && states[0] == INITIAL && i < |events|
    ensures At(states[i], u).out <= At(states[i + 1], u).out
  {
    assert Steps(states, events, i);
    InvRun(states, events, i);
    StepAddsTrue(states[i], events[i], u);
  }

  lemma NewMessageIsTrue(states: seq<State>, events: seq<Event>, u: DataflowId, i: nat, j: nat)
    requires IsRun(states, events) && states[0] == INITIAL && i < |events|
    requires |At(states[i], u).out| <= j < |At(states[i + 1], u).out|
    ensures TrueMessage(u, At(states[i], u), events[i], CtxOf(states[i], events[i], u), At(states[i + 1], u),
                        At(states[i + 1], u).out[j])
  {
    assert Steps(states, events, i);
    InvRun(states, events, i);
    StepAddsTrue(states[i], events[i], u);
    AddedIsTrue(u, At(states[i], u), events[i], CtxOf(states[i], events[i], u), At(states[i + 1], u), j);
  }

  lemma AddedIsTrue(u: DataflowId, slot: Slot, e: Event, x: Ctx, slot': Slot, j: nat)
    requires AddsTrue(u, slot, e, x, slot') && |slot.out| <= j < |slot'.out|
    ensures TrueMessage(u, slot, e, x, slot', slot'.out[j])
  {
    assert slot'.out[j] == slot'.out[|slot.out|..][j - |slot.out|];
  }

  // ----- messages that are due ---------------------------------------------

  lemma {:induction false} OrphansAreStopped(u: DataflowId, slot: Slot, d: DaemonId, entries: seq<StatusEntry>,
                                             archived: bool, now: Millis, readable: bool, durable: bool)
    requires Reports(entries, u)
    requires archived || (readable && slot.record.Some? && slot.record.value.status in {Succeeded, Failed(true)})
    ensures var slot' := ReconcileAll(u, slot, d, entries, archived, true, now, readable, durable);
            slot.out < slot'.out && StopOrphan(d) in slot'.out[|slot.out|..]
    decreases |entries|
  {
    var s1 := if entries[0].uuid == u
              then ReconcileSlot(slot, d, entries[0].nodes, archived, true, now, readable, durable)
              else slot;
    var slot' := ReconcileAll(u, slot, d, entries, archived, true, now, readable, durable);
    ReconcileAllAdds(u, s1, d, entries[1..], archived, true, now, readable, durable);
    if entries[0].uuid == u {
      assert slot'.out[|slot.out|] == StopOrphan(d);
    } else {
      var i :| 0 <= i < |entries| && entries[i].uuid == u;
      assert entries[1..][i - 1].uuid == u;
      OrphansAreStopped(u, s1, d, entries[1..], archived, now, readable, durable);
    }
  }

  /** A connected daemon that reports a dataflow which is archived or over is told to stop
      it; by `MessagesAreTrue` nobody else is. */
  lemma OrphanIsStopped(s: State, e: Event, u: DataflowId)
    requires e.Report? && e.daemon in s.conns && Reports(e.entries, u)
    requires u in s.archived.items
             || (Readable(e.env, u) && At(s, u).record.Some? && At(s, u).record.value.status in {Succeeded, Failed(true)})
    ensures At(s, u).out < At(Step(s, e), u).out && StopOrphan(e.daemon) in At(Step(s, e), u).out[|At(s, u).out|..]
  {
    StepIsPointwise(s, e, u);
    OrphansAreStopped(u, At(s, u), e.daemon, e.entries, u in s.archived.items, e.env.now, Readable(e.env, u),
                      Durable(e.env, u));
  }

  /** A daemon that missed the barrier of a live dataflow hears of it when it reports. */
  lemma MissedBarrierIsReplayed(s: State, e: Event, u: DataflowId)
    requires e.Report? && e.daemon in s.conns && Reports(e.entries, u)
    requires At(s, u).live.Some? && At(s, u).live.value.barrierReleased
    requires Adoptable(At(s, u), u in s.archived.items, Readable(e.env, u))
    ensures At(s, u).out < At(Step(s, e), u).out
    ensures BarrierReplay(e.daemon, At(s, u).live.value.exited) in At(Step(s, e), u).out[|At(s, u).out|..]
  {
    StepIsPointwise(s, e, u);
    BarriersAreReplayed(u, At(s, u), e.daemon, e.entries, e.env.now, Durable(e.env, u));
  }

  lemma {:induction false} BarriersAreReplayed(u: DataflowId, slot: Slot, d: DaemonId, entries: seq<StatusEntry>,
                                               now: Millis, durable: bool)
    requires Reports(entries, u) && slot.live.Some? && slot.live.value.barrierReleased && Adoptable(slot, false, true)
    ensures var slot' := ReconcileAll(u, slot, d, entries, false, true, now, true, durable);
            slot.out < slot'.out && BarrierReplay(d, slot.live.value.exited) in slot'.out[|slot.out|..]
    decreases |entries|
  {
    var s1 := if entries[0].uuid == u
              then ReconcileSlot(slot, d, entries[0].nodes, false, true, now, true, durable)
              else slot;
    var slot' := ReconcileAll(u, slot, d, entries, false, true, now, true, durable);
    ReconcileAllAdds(u, s1, d, entries[1..], false, true, now, true, durable);
    if entries[0].uuid == u {
      assert slot'.out[|slot.out|] == BarrierReplay(d, slot.live.value.exited);
    } else {
      var i :| 0 <= i < |entries| && entries[i].uuid == u;
      assert entries[1..][i - 1].uuid == u;
      BarriersAreReplayed(u, s1, d, entries[1..], now, durable);
    }
  }

  /** When a spawn fails, exactly the daemons that had started nodes are rolled back. */
  lemma FailedSpawnIsRolledBack(s: State, e: Event, u: DataflowId, d: DaemonId) returns (ds: set<DaemonId>)
    requires EndsSpawn(u, At(s, u), e) && HadStarted(At(s, u), e, CtxOf(s, e, u), d)
    ensures At(s, u).out < At(Step(s, e), u).out && Rollback(ds) in At(Step(s, e), u).out[|At(s, u).out|..]
    ensures forall y :: y in ds <==> HadStarted(At(s, u), e, CtxOf(s, e, u), y)
  {
    var slot, x, slot' := At(s, u), CtxOf(s, e, u), At(Step(s, e), u);
    StepIsPointwise(s, e, u);
    if e.SpawnReport? {
      var df := slot.live.value.(pendingSpawn := slot.live.value.pendingSpawn - {e.daemon});
      ds := df.daemons - df.pendingSpawn;
      assert d in ds;
      FailAdds(slot, df, FailedResults(slot, x.results), e.env.now, Durable(e.env, u));
      RollbackIsSent(slot, df, FailedResults(slot, x.results));
      NewsAre(slot.out, FailNews(slot, df, FailedResults(slot, x.results)), slot'.out);
    } else {
      ds := TickRollsBack(u, slot, e, x, d);
    }
  }

  lemma TickRollsBack(u: DataflowId, slot: Slot, e: Event, x: Ctx, d: DaemonId) returns (ds: set<DaemonId>)
    requires e.Tick? && EndsSpawn(u, slot, e) && HadStarted(slot, e, x, d)
    ensures var slot' := TickSlot(u, slot, x, e.env);
            slot.out < slot'.out && Rollback(ds) in slot'.out[|slot.out|..]
    ensures forall y :: y in ds <==> HadStarted(slot, e, x, y)
  {
    var mid := MidTick(u, slot, x, e.env);
    MidTickIs(u, slot, x, e.env);
    StaysPending(slot, x.lost, e.env.now, Readable(e.env, u), Durable(e.env, u));
    var df, results := mid.live.value, FailedResults(mid, x.results);
    ds := df.daemons - df.pendingSpawn;
    assert d in ds;
    DisconnectAdds(slot, x.lost, e.env.now, Readable(e.env, u), Durable(e.env, u));
    TickEnds(u, slot, x, e.env);
    RollbackIsSent(mid, df, results);
    TwoNews(slot.out, DisconnectNews(slot, x.lost), FailNews(mid, df, results), TickSlot(u, slot, x, e.env).out);
  }

  /** A dataflow whose spawn is pending is not reclaimed. */
  lemma StaysPending(slot: Slot, lost: set<DaemonId>, now: Millis, readable: bool, durable: bool)
    requires slot.live.Some? && slot.live.value.spawn.SpawnPending?
    ensures DisconnectSlot(slot, lost, now, readable, durable).live.Some?
  {
  }

  lemma RollbackIsSent(slot: Slot, df: Dataflow, results: Results)
    requires df.daemons - df.pendingSpawn != {}
    ensures Rollback(df.daemons - df.pendingSpawn) in FailNews(slot, df, results)
  {
    var first := Reply(SpawnWaiters(df.spawn), SpawnFailed);
    assert FailNews(slot, df, results)[|first|] == Rollback(df.daemons - df.pendingSpawn);
  }

  lemma NewsAre(out: seq<Output>, news: seq<Output>, out': seq<Output>)
    requires out' == out + news
    ensures out <= out' && out'[|out|..] == news
  {
  }

  lemma TwoNews(out: seq<Output>, a: seq<Output>, b: seq<Output>, out': seq<Output>)
    requires out' == out + a + b
    ensures out <= out' && out'[|out|..] == a + b && forall o :: o in b ==> o in out'[|out|..]
  {
  }
}
