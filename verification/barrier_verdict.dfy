/** The verdict of the ready barrier outlives the live entry: what a daemon is replayed after a
    reclaim or a process restart is what was broadcast. */
module BarrierVerdict {
  import opened Common
  import opened CoordinatorTypes
  import opened DataflowSlot
  import opened Coordinator
  import opened CoordinatorInvariants
  import opened ReadyBarrier
  import opened AnswerMeaning
  import opened TerminalVerdicts

  // ----- the last broadcast ------------------------------------------------

  /** What the last barrier broadcast said: the nodes that had exited early. */
  function LastVerdict(out: seq<Output>): Option<seq<NodeId>> {
    if out == [] then None
    else if out[|out| - 1].BarrierBroadcast? then Some(out[|out| - 1].exited)
    else LastVerdict(out[..|out| - 1])
  }

  predicate Silent(news: seq<Output>) {
    forall o :: o in news ==> !o.BarrierBroadcast?
  }

  lemma {:induction false} SilentKeeps(out: seq<Output>, news: seq<Output>)
    requires Silent(news)
    ensures LastVerdict(out + news) == LastVerdict(out)
  {
    if news == [] {
      assert out + news == out;
    } else {
      var m := |news| - 1;
      assert (out + news)[..|out| + m] == out + news[..m] && news[m] in news;
      SilentKeeps(out, news[..m]);
    }
  }

  lemma SaysIt(out: seq<Output>, ds: set<DaemonId>, exited: seq<NodeId>)
    ensures LastVerdict(out + [BarrierBroadcast(ds, exited)]) == Some(exited)
  {
  }

  // ----- the entry and the record agree with it ----------------------------

  /** Released means broadcast, with this verdict. */
  predicate Agrees(released: bool, exited: seq<NodeId>, verdict: Option<seq<NodeId>>) {
    if released then verdict == Some(exited) else verdict.None?
  }

  predicate Remembers(slot: Slot) {
    && (slot.live.Some? ==>
          && Agrees(slot.live.value.barrierReleased, slot.live.value.exited, LastVerdict(slot.out))
          && (slot.live.value.barrierReleased ==> slot.live.value.pendingDaemons == {}))
    && (slot.record.Some? ==>
          Agrees(slot.record.value.barrierReleased, slot.record.value.exited, LastVerdict(slot.out)))
  }

  /** The entry stays, or is made from the record; the record stays, or is made from the entry. */
  predicate FlagsKept(slot: Slot, slot': Slot) {
    && (slot'.live.Some? ==>
          || (&& slot.live.Some? && slot'.live.value.barrierReleased == slot.live.value.barrierReleased
              && slot'.live.value.exited == slot.live.value.exited
              && slot'.live.value.pendingDaemons <= slot.live.value.pendingDaemons)
          || (&& slot.record.Some? && slot'.live.value.barrierReleased == slot.record.value.barrierReleased
              && slot'.live.value.exited == slot.record.value.exited && slot'.live.value.pendingDaemons == {}))
    && (slot'.record.Some? ==>
          || (&& slot.record.Some? && slot'.record.value.barrierReleased == slot.record.value.barrierReleased
              && slot'.record.value.exited == slot.record.value.exited)
          || (&& slot.live.Some? && slot'.record.value.barrierReleased == slot.live.value.barrierReleased
              && slot'.record.value.exited == slot.live.value.exited))
  }

  lemma KeptIsRemembered(slot: Slot, slot': Slot)
    requires Remembers(slot) && FlagsKept(slot, slot') && LastVerdict(slot'.out) == LastVerdict(slot.out)
    ensures Remembers(slot')
  {
    if slot'.live.Some? && slot'.live.value.barrierReleased && slot.live.Some? {
      assert slot.live.value.pendingDaemons == {} ==>
               (slot'.live.value.pendingDaemons <= slot.live.value.pendingDaemons ==> slot'.live.value.pendingDaemons == {});
    }
  }

  lemma FailFlags(slot: Slot, df: Dataflow, results: Results, now: Millis, durable: bool)
    requires slot.live.Some? && df.barrierReleased == slot.live.value.barrierReleased && df.exited == slot.live.value.exited
    ensures FlagsKept(slot, FailSpawn(slot, df, results, now, durable))
  {
  }

  lemma {:induction false} ReconcileFlags(u: DataflowId, slot: Slot, d: DaemonId, entries: seq<StatusEntry>,
                                          archived: bool, connected: bool, now: Millis, readable: bool, durable: bool)
    ensures FlagsKept(slot, ReconcileAll(u, slot, d, entries, archived, connected, now, readable, durable))
    decreases |entries|
  {
    if entries != [] {
      var s1 := if entries[0].uuid == u
                then ReconcileSlot(slot, d, entries[0].nodes, archived, connected, now, readable, durable)
                else slot;
      EntryFlags(slot, d, entries[0].nodes, archived, connected, now, readable, durable);
      ReconcileFlags(u, s1, d, entries[1..], archived, connected, now, readable, durable);
    }
  }

  lemma EntryFlags(slot: Slot, d: DaemonId, nodes: seq<NodeId>, archived: bool, connected: bool, now: Millis,
                   readable: bool, durable: bool)
    ensures var slot' := ReconcileSlot(slot, d, nodes, archived, connected, now, readable, durable);
            && FlagsKept(slot, slot') && (slot.live.Some? ==> slot'.live.Some?)
            && (slot.record.Some? <==> slot'.record.Some?)
            && (slot.record.Some? ==> && slot'.record.value.barrierReleased == slot.record.value.barrierReleased
                                      && slot'.record.value.exited == slot.record.value.exited)
  {
  }

  lemma SpawnResultFlags(slot: Slot, d: DaemonId, ok: bool, archived: bool, results: Results, now: Millis, durable: bool)
    ensures FlagsKept(slot, SpawnResultSlot(slot, d, ok, archived, results, now, durable))
  {
    if SpawnFails(slot, ok) {
      var df := slot.live.value.(pendingSpawn := slot.live.value.pendingSpawn - {d});
      FailFlags(slot, df, results, now, durable);
    }
  }

  lemma FinishFlags(slot: Slot, d: DaemonId, results: Results, started: Option<Placement>, now: Millis, durable: bool)
    ensures FlagsKept(slot, FinishSlot(slot, d, results, started, now, durable))
  {
  }

  lemma StopFlags(slot: Slot, c: Caller, acks: set<DaemonId>, results: Option<Results>, now: Millis, durable: bool)
    ensures FlagsKept(slot, StopSlot(slot, c, acks, results, now, durable))
  {
  }

  lemma RestartFlags(slot: Slot, c: Caller, acks: set<DaemonId>, now: Millis, durable: bool)
    ensures FlagsKept(slot, RestartSlot(slot, c, acks, now, durable))
  {
  }

  lemma RequestFlags(u: DataflowId, slot: Slot, e: Event, x: Ctx)
    requires !Creates(u, e, x) && !e.Ready? && !e.Exit? && !e.Tick? && !e.Report? && !e.SpawnReport? && !e.Finished?
    ensures FlagsKept(slot, SlotStep(u, slot, e, x))
  {
    match e
    case StopReq(_, c, acks, env) => StopFlags(slot, c, acks, x.results, env.now, Durable(env, u));
    case StopByName(_, c, acks, env) => StopFlags(slot, c, acks, x.results, env.now, Durable(env, u));
    case RestartReq(_, c, acks, env) => RestartFlags(slot, c, acks, env.now, Durable(env, u));
    case RestartByName(_, c, acks, env) => RestartFlags(slot, c, acks, env.now, Durable(env, u));
    case _ =>
  }

  lemma ReportFlags(u: DataflowId, slot: Slot, e: Event, x: Ctx)
    requires e.Report?
    ensures FlagsKept(slot, SlotStep(u, slot, e, x))
  {
    var env := e.env;
    var mid := ReconcileAll(u, slot, e.daemon, e.entries, x.archived, x.connected, env.now, Readable(env, u), Durable(env, u));
    ReconcileFlags(u, slot, e.daemon, e.entries, x.archived, x.connected, env.now, Readable(env, u), Durable(env, u));
    RecoverFlags(slot, mid, e.daemon, Reports(e.entries, u), x.connected, env.now);
  }

  lemma RecoverFlags(slot: Slot, mid: Slot, d: DaemonId, reported: bool, connected: bool, now: Millis)
    requires FlagsKept(slot, mid)
    ensures FlagsKept(slot, AutoRecoverSlot(mid, d, reported, connected, now))
  {
  }

  /** Events that broadcast nothing keep the flags. */
  lemma OtherFlags(u: DataflowId, slot: Slot, e: Event, x: Ctx)
    requires !Creates(u, e, x) && !e.Ready? && !e.Exit? && !e.Tick?
    ensures FlagsKept(slot, SlotStep(u, slot, e, x))
  {
    match e
    case Report(_, _, _) => ReportFlags(u, slot, e, x);
    case SpawnReport(_, d, ok, env) =>
      SpawnResultFlags(slot, d, ok, x.archived, FailedResults(slot, x.results), env.now, Durable(env, u));
    case Finished(_, d, result, started, env) =>
      FinishFlags(slot, d, KnownResults(x.results)[d := result], started, env.now, Durable(env, u));
    case _ => RequestFlags(u, slot, e, x);
  }

  lemma OtherIsSilent(u: DataflowId, slot: Slot, e: Event, x: Ctx, slot': Slot)
    requires AddsTrue(u, slot, e, x, slot') && !e.Ready? && !e.Exit? && !e.Tick?
    ensures LastVerdict(slot'.out) == LastVerdict(slot.out)
  {
    var news := slot'.out[|slot.out|..];
    assert Silent(news) && slot'.out == slot.out + news;
    SilentKeeps(slot.out, news);
  }

  lemma OtherRemembers(u: DataflowId, slot: Slot, e: Event, x: Ctx)
    requires Remembers(slot) && !Creates(u, e, x) && !e.Ready? && !e.Exit? && !e.Tick?
    requires AddsTrue(u, slot, e, x, SlotStep(u, slot, e, x))
    ensures Remembers(SlotStep(u, slot, e, x))
  {
    OtherFlags(u, slot, e, x);
    OtherIsSilent(u, slot, e, x, SlotStep(u, slot, e, x));
    KeptIsRemembered(slot, SlotStep(u, slot, e, x));
  }

  // ----- events that broadcast ---------------------------------------------

  lemma ReleaseRemembers(slot: Slot, df: Dataflow, now: Millis, readable: bool)
    requires df.pendingDaemons == {}
    ensures Remembers(ReleaseBarrier(slot, df, now, readable, true))
  {
    SaysIt(slot.out, df.daemons, df.exited);
  }

  lemma ReadyRemembers(slot: Slot, d: DaemonId, exited: seq<NodeId>, now: Millis, readable: bool)
    requires Remembers(slot)
    ensures Remembers(ReadySlot(slot, d, exited, now, readable, true))
  {
    if slot.live.Some? {
      var df := slot.live.value;
      var df' := df.(pendingDaemons := df.pendingDaemons - {d}, exited := df.exited + exited);
      if df'.pendingDaemons == {} {
        ReleaseRemembers(slot, df', now, readable);
      }
    }
  }

  lemma DisconnectRemembers(slot: Slot, lost: set<DaemonId>, now: Millis, readable: bool)
    requires Remembers(slot)
    ensures Remembers(DisconnectSlot(slot, lost, now, readable, true))
  {
    var slot' := DisconnectSlot(slot, lost, now, readable, true);
    if slot.live.Some? && Affected(slot.live.value, lost) {
      var df := Prune(slot.live.value, lost);
      var s1 := CancelRestart(slot, DaemonLost).(live := Some(df));
      if BarrierFreed(slot.live.value, lost) {
        ReleaseRemembers(s1, df, now, readable);
      } else {
        DisconnectAdds(slot, lost, now, readable, true);
        QuietDisconnect(slot, lost);
        SilentKeeps(slot.out, DisconnectNews(slot, lost));
        KeptIsRemembered(slot, slot');
      }
    }
  }

  lemma QuietDisconnect(slot: Slot, lost: set<DaemonId>)
    requires slot.live.Some? && !BarrierFreed(slot.live.value, lost)
    ensures Silent(DisconnectNews(slot, lost))
  {
  }

  lemma TickRemembers(u: DataflowId, slot: Slot, x: Ctx, env: Env)
    requires Remembers(slot) && Durable(env, u)
    ensures Remembers(TickSlot(u, slot, x, env))
  {
    var mid, slot' := MidTick(u, slot, x, env), TickSlot(u, slot, x, env);
    DisconnectRemembers(slot, x.lost, env.now, Readable(env, u));
    TickEnds(u, slot, x, env);
    QuietWatchdog(mid, x, env.now);
    SilentKeeps(mid.out, WatchdogNews(mid, x, env.now));
    WatchdogFlags(u, slot, x, env);
    KeptIsRemembered(mid, slot');
  }

  lemma QuietWatchdog(mid: Slot, x: Ctx, now: Millis)
    ensures Silent(WatchdogNews(mid, x, now))
  {
  }

  lemma WatchdogFlags(u: DataflowId, slot: Slot, x: Ctx, env: Env)
    ensures FlagsKept(MidTick(u, slot, x, env), TickSlot(u, slot, x, env))
  {
    var mid := MidTick(u, slot, x, env);
    if mid.live.Some? {
      FailFlags(mid, mid.live.value, FailedResults(mid, x.results), env.now, Durable(env, u));
    }
  }

  lemma CreationRemembers(u: DataflowId, e: Event, x: Ctx)
    requires Creates(u, e, x)
    ensures Remembers(SlotStep(u, EMPTY_SLOT, e, x))
  {
    if e.StartReq? {
      SilentKeeps([], [Answered(e.caller, StartTriggered)]);
      assert [] + [Answered(e.caller, StartTriggered)] == [Answered(e.caller, StartTriggered)];
    }
  }

  lemma RememberStep(s: State, e: Event, u: DataflowId)
    requires Inv(s) && Enabled(s, e) && WritesSucceed(e, u) && Remembers(At(s, u))
    ensures Remembers(At(Step(s, e), u))
  {
    var x, slot := CtxOf(s, e, u), At(s, u);
    StepIsPointwise(s, e, u);
    CreatesFromEmpty(s, e, u);
    if Creates(u, e, x) {
      CreationRemembers(u, e, x);
    } else if e.Ready? {
      ReadyRemembers(slot, e.daemon, e.exited, e.env.now, Readable(e.env, u));
    } else if e.Exit? {
      DisconnectRemembers(slot, x.lost, e.env.now, Readable(e.env, u));
    } else if e.Tick? {
      TickRemembers(u, slot, x, e.env);
    } else {
      StepAddsTrue(s, e, u);
      OtherRemembers(u, slot, e, x);
    }
  }

  // ----- over runs ---------------------------------------------------------

  lemma {:induction false} RememberedRun(states: seq<State>, events: seq<Event>, u: DataflowId, n: nat)
    requires IsRun(states, events) && states[0] == INITIAL && n <= |events|
    requires forall i :: 0 <= i < n ==> WritesSucceed(events[i], u)
    ensures Remembers(At(states[n], u))
  {
    if n > 0 {
      assert Steps(states, events, n - 1);
      InvRun(states, events, n - 1);
      RememberedRun(states, events, u, n - 1);
      RememberStep(states[n - 1], events[n - 1], u);
    }
  }

  /** In every run in which the writes of `u` succeed, its live entry and its record, however
      often they were dropped and rebuilt, say that the barrier was released exactly if it was
      broadcast, and with the verdict of the last broadcast. */
  lemma VerdictSurvives(states: seq<State>, events: seq<Event>, u: DataflowId, n: nat)
    requires IsRun(states, events) && states[0] == INITIAL && n <= |events|
    requires forall i :: 0 <= i < n ==> WritesSucceed(events[i], u)
    ensures var slot := At(states[n], u);
            && (slot.live.Some? ==>
                  && (slot.live.value.barrierReleased <==> exists o :: o in slot.out && o.BarrierBroadcast?)
                  && (slot.live.value.barrierReleased ==> LastVerdict(slot.out) == Some(slot.live.value.exited)))
            && (slot.record.Some? ==>
                  && (slot.record.value.barrierReleased <==> exists o :: o in slot.out && o.BarrierBroadcast?)
                  && (slot.record.value.barrierReleased ==> LastVerdict(slot.out) == Some(slot.record.value.exited)))
  {
    RememberedRun(states, events, u, n);
    SomethingWasSaid(At(states[n], u).out);
  }

  lemma {:induction false} SomethingWasSaid(out: seq<Output>)
    ensures LastVerdict(out).Some? <==> exists o :: o in out && o.BarrierBroadcast?
  {
    if out != [] {
      SomethingWasSaid(out[..|out| - 1]);
      assert out == out[..|out| - 1] + [out[|out| - 1]];
    }
  }

  /** So a replay repeats the outcome: a daemon that reports a dataflow after its entry was
      reclaimed, or after a process restart, is told the verdict of the last broadcast. */
  lemma ReplayRepeatsTheVerdict(states: seq<State>, events: seq<Event>, u: DataflowId, n: nat, j: nat)
    requires IsRun(states, events) && states[0] == INITIAL && n < |events|
    requires forall i :: 0 <= i < n + 1 ==> WritesSucceed(events[i], u)
    requires |At(states[n], u).out| <= j < |At(states[n + 1], u).out| && At(states[n + 1], u).out[j].BarrierReplay?
    ensures LastVerdict(At(states[n], u).out) == Some(At(states[n + 1], u).out[j].exited)
  {
    RememberedRun(states, events, u, n + 1);
    StepIsTrue(states, events, u, n);
    ReplayTells(u, At(states[n], u), events[n], CtxOf(states[n], events[n], u), At(states[n + 1], u), j);
  }

  lemma StepIsTrue(states: seq<State>, events: seq<Event>, u: DataflowId, n: nat)
    requires IsRun(states, events) && states[0] == INITIAL && n < |events|
    ensures AddsTrue(u, At(states[n], u), events[n], CtxOf(states[n], events[n], u), At(states[n + 1], u))
  {
    assert Steps(states, events, n);
    InvRun(states, events, n);
    StepAddsTrue(states[n], events[n], u);
  }

  lemma ReplayTells(u: DataflowId, slot: Slot, e: Event, x: Ctx, slot': Slot, j: nat)
    requires AddsTrue(u, slot, e, x, slot') && Remembers(slot')
    requires |slot.out| <= j < |slot'.out| && slot'.out[j].BarrierReplay?
    ensures LastVerdict(slot.out) == Some(slot'.out[j].exited)
  {
    var news, o := slot'.out[|slot.out|..], slot'.out[j];
    assert o == news[j - |slot.out|] && TrueMessage(u, slot, e, x, slot', o);
    assert Silent(news) && slot'.out == slot.out + news;
    SilentKeeps(slot.out, news);
  }

  // ----- what the verdict consists of --------------------------------------

  /** The nodes that ready reports named as exited early, in order. */
  function ExitedEarly(events: seq<Event>, u: DataflowId, b: nat, n: nat): seq<NodeId>
    requires n <= |events|
  {
    if n <= b + 1 then []
    else
      var before, e := ExitedEarly(events, u, b, n - 1), events[n - 1];
      if e.Ready? && e.uuid == u then before + e.exited else before
  }

  lemma {:induction false} ReconcileExited(u: DataflowId, slot: Slot, d: DaemonId, entries: seq<StatusEntry>,
                                           archived: bool, connected: bool, now: Millis, readable: bool, durable: bool)
    requires slot.live.Some?
    ensures var slot' := ReconcileAll(u, slot, d, entries, archived, connected, now, readable, durable);
            slot'.live.Some? && slot'.live.value.exited == slot.live.value.exited
    decreases |entries|
  {
    if entries != [] {
      var s1 := if entries[0].uuid == u
                then ReconcileSlot(slot, d, entries[0].nodes, archived, connected, now, readable, durable)
                else slot;
      ReconcileExited(u, s1, d, entries[1..], archived, connected, now, readable, durable);
    }
  }

  lemma DisconnectExited(slot: Slot, lost: set<DaemonId>, now: Millis, readable: bool, durable: bool)
    requires DisconnectSlot(slot, lost, now, readable, durable).live.Some?
    ensures slot.live.Some?
    ensures DisconnectSlot(slot, lost, now, readable, durable).live.value.exited == slot.live.value.exited
  {
  }

  lemma TickExited(u: DataflowId, slot: Slot, x: Ctx, env: Env)
    requires slot.live.Some? && TickSlot(u, slot, x, env).live.Some?
    ensures TickSlot(u, slot, x, env).live.value.exited == slot.live.value.exited
  {
    TickEnds(u, slot, x, env);
    DisconnectExited(slot, x.lost, env.now, Readable(env, u), Durable(env, u));
  }

  lemma OtherExited(u: DataflowId, slot: Slot, e: Event, x: Ctx)
    requires !Creates(u, e, x) && !e.Report? && !e.Tick? && !e.Exit? && !e.Ready?
    requires slot.live.Some? && SlotStep(u, slot, e, x).live.Some?
    ensures SlotStep(u, slot, e, x).live.value.exited == slot.live.value.exited
  {
    if e.SpawnReport? && e.uuid == u && SpawnFails(slot, e.ok) {
      var df := slot.live.value.(pendingSpawn := slot.live.value.pendingSpawn - {e.daemon});
      FailSpawnShrinks(slot, df, FailedResults(slot, x.results), e.env.now, Durable(e.env, u));
    }
  }

  lemma EventExited(u: DataflowId, slot: Slot, e: Event, x: Ctx)
    requires !Creates(u, e, x) && slot.live.Some? && SlotStep(u, slot, e, x).live.Some?
    ensures SlotStep(u, slot, e, x).live.value.exited
         == if e.Ready? && e.uuid == u then slot.live.value.exited + e.exited else slot.live.value.exited
  {
    match e
    case Exit(_, _, env) => DisconnectExited(slot, x.lost, env.now, Readable(env, u), Durable(env, u));
    case Tick(_, _, env) => TickExited(u, slot, x, env);
    case Report(d, entries, env) =>
      ReconcileExited(u, slot, d, entries, x.archived, x.connected, env.now, Readable(env, u), Durable(env, u));
    case Ready(_, _, _, _) =>
    case _ => OtherExited(u, slot, e, x);
  }

  lemma ExitedStep(s: State, e: Event, u: DataflowId)
    requires Enabled(s, e) && At(s, u).live.Some? && At(Step(s, e), u).live.Some?
    ensures At(Step(s, e), u).live.value.exited
         == if e.Ready? && e.uuid == u then At(s, u).live.value.exited + e.exited else At(s, u).live.value.exited
  {
    StepIsPointwise(s, e, u);
    CreatesFromEmpty(s, e, u);
    EventExited(u, At(s, u), e, CtxOf(s, e, u));
  }

  /** While its entry lives, the verdict of a dataflow is what the ready reports since its
      start named, all of it, in order. */
  lemma {:induction false} VerdictIsCollected(states: seq<State>, events: seq<Event>, u: DataflowId, b: nat, n: nat)
    requires IsRun(states, events) && Inv(states[0]) && b < n <= |events| && Starts(states[b], events[b], u)
    requires LiveSince(states, u, b, n)
    ensures At(states[n], u).live.Some? && At(states[n], u).live.value.exited == ExitedEarly(events, u, b, n)
    decreases n
  {
    assert Steps(states, events, n - 1);
    if n == b + 1 {
      StartsWithNone(states[b], events[b], u);
    } else {
      VerdictIsCollected(states, events, u, b, n - 1);
      ExitedStep(states[n - 1], events[n - 1], u);
    }
  }

  lemma StartsWithNone(s: State, e: Event, u: DataflowId)
    requires Enabled(s, e) && Starts(s, e, u)
    ensures At(Step(s, e), u).live.Some? && At(Step(s, e), u).live.value.exited == []
  {
    StepIsPointwise(s, e, u);
  }
}
