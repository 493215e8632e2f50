/** Finishing, listing and cleaning dataflows. */
module FinishAndClean {
  import opened Common
  import opened CoordinatorTypes
  import opened DataflowSlot
  import opened Coordinator
  import opened CoordinatorInvariants

  // ----- listing -----------------------------------------------------------

  datatype Listed = ListedRunning | ListedFinished | ListedFailed | NotListed

  /** How `list` shows a dataflow: live ones as running, others by their results. */
  function ListStatus(s: State, u: DataflowId): Listed {
    if At(s, u).live.Some? then ListedRunning
    else if u in s.results.items then
      if EveryDaemonOk(s.results.items[u]) then ListedFinished else ListedFailed
    else NotListed
  }

  lemma FinishRecordsResult(s: State, e: Event)
    requires e.Finished? && At(s, e.uuid).live.Some?
    ensures s.results.Valid() ==> ResultsAfter(s, e).Valid()
    ensures !Completes(At(s, e.uuid), e.daemon) ==> e.uuid in ResultsAfter(s, e).items
    ensures e.uuid in ResultsAfter(s, e).items ==>
              ResultsAfter(s, e).items[e.uuid] == KnownResults(Lookup(s.results.items, e.uuid))[e.daemon := e.result]
  {
    var put := FinishedResults(s, e.uuid, e.daemon, e.result);
    assert put.items[e.uuid] == KnownResults(Lookup(s.results.items, e.uuid))[e.daemon := e.result];
    var gone := if Completes(At(s, e.uuid), e.daemon) then {e.uuid} else {};
    var pinned := LiveIds(s) - gone + ReplacementOf(s, e);
    assert !Completes(At(s, e.uuid), e.daemon) ==> e.uuid in pinned;
    assert ResultsAfter(s, e) == put.DropOldestExcept(MAX_DATAFLOW_RESULTS, pinned);
    put.DropOldestExceptKeeps(MAX_DATAFLOW_RESULTS, pinned);
  }

  lemma FinishWritesVerdict(s: State, e: Event)
    requires e.Finished? && Completes(At(s, e.uuid), e.daemon) && Durable(e.env, e.uuid)
    ensures At(Step(s, e), e.uuid).live.None? && At(Step(s, e), e.uuid).record.Some?
    ensures At(Step(s, e), e.uuid).record.value.status
         == Verdict(KnownResults(Lookup(s.results.items, e.uuid))[e.daemon := e.result])
  {
    StepIsPointwise(s, e, e.uuid);
  }

  /** When a finish completes a dataflow, the persisted verdict is Succeeded exactly when
      `list` shows it as finished (as long as it still fits the history). */
  lemma VerdictMatchesList(s: State, e: Event, s': State)
    requires e.Finished? && Completes(At(s, e.uuid), e.daemon) && Durable(e.env, e.uuid)
    requires s' == Step(s, e)
    ensures At(s', e.uuid).record.Some?
    ensures e.uuid in s'.results.items ==>
              (At(s', e.uuid).record.value.status == Succeeded <==> ListStatus(s', e.uuid) == ListedFinished)
  {
    FinishWritesVerdict(s, e);
    FinishRecordsResult(s, e);
  }

  // ----- finish order ------------------------------------------------------

  /** A dataflow after the last of its daemons finished. */
  function DoneSlot(slot: Slot, results: Results, started: Option<Placement>, now: Millis, durable: bool): Slot
    requires slot.live.Some?
  {
    FinishSlot(slot.(live := Some(slot.live.value.(daemons := {}))), DaemonId(None, 0), results, started, now, durable)
  }

  /** The results of `ds` on top of what was known. */
  function Collected(known: Results, ds: set<DaemonId>, r: map<DaemonId, DaemonResult>): Results
    requires ds <= r.Keys
  {
    known + map d | d in ds :: r[d]
  }

  lemma FinishOne(s: State, u: DataflowId, d: DaemonId, result: DaemonResult, started: Option<Placement>, env: Env)
    requires At(s, u).live.Some? && !Completes(At(s, u), d)
    ensures var s' := Step(s, Finished(u, d, result, started, env));
            && At(s', u) == At(s, u).(live := Some(At(s, u).live.value.(daemons := At(s, u).live.value.daemons - {d})))
            && u in s'.results.items
            && s'.results.items[u] == KnownResults(Lookup(s.results.items, u))[d := result]
  {
    var e := Finished(u, d, result, started, env);
    StepIsPointwise(s, e, u);
    FinishRecordsResult(s, e);
  }

  lemma FinishIsDone(slot: Slot, d: DaemonId, results: Results, started: Option<Placement>, now: Millis, durable: bool)
    requires slot.live.Some? && Completes(slot, d)
    ensures FinishSlot(slot, d, results, started, now, durable) == DoneSlot(slot, results, started, now, durable)
  {
    var df := slot.live.value;
    assert df.daemons - {d} == {};
    assert df.(daemons := df.daemons - {d}) == df.(daemons := {}).(daemons := {} - {DaemonId(None, 0)});
  }

  lemma FinishLast(s: State, u: DataflowId, d: DaemonId, result: DaemonResult, started: Option<Placement>, env: Env)
    requires At(s, u).live.Some? && Completes(At(s, u), d)
    ensures At(Step(s, Finished(u, d, result, started, env)), u)
         == DoneSlot(At(s, u), KnownResults(Lookup(s.results.items, u))[d := result], started, env.now, Durable(env, u))
  {
    StepIsPointwise(s, Finished(u, d, result, started, env), u);
    FinishIsDone(At(s, u), d, KnownResults(Lookup(s.results.items, u))[d := result], started, env.now, Durable(env, u));
  }

  // ----- events that concern other dataflows -------------------------------

  /** `e` neither addresses the live dataflow `u`, nor loses a daemon it counts on, nor
      runs into one of its timeouts. */
  ghost predicate Elsewhere(s: State, e: Event, u: DataflowId)
    requires At(s, u).live.Some?
  {
    var slot := At(s, u);
    match e
    case Finished(v, _, _, _, _) => v != u
    case Ready(v, _, _, _) => v != u
    case SpawnReport(v, _, _, _) => v != u
    case WaitForSpawn(v, _) => v != u
    case StopReq(_, _, _, _) => TargetOf(s, e) != Some(u)
    case StopByName(_, _, _, _) => TargetOf(s, e) != Some(u)
    case RestartReq(_, _, _, _) => TargetOf(s, e) != Some(u)
    case RestartByName(_, _, _, _) => TargetOf(s, e) != Some(u)
    case Exit(_, _, _) => !Affected(slot.live.value, LostBy(s, e))
    case Tick(_, _, env) =>
      && !Affected(slot.live.value, LostBy(s, e)) && !SpawnStuck(slot.live.value, env.now)
      && (slot.record.Some? ==> slot.record.value.status != Recovering)
    case Report(d, entries, _) => !Reports(entries, u) && d !in slot.live.value.daemons
    case Boot(_) => false
    case _ => true
  }

  lemma ElsewhereKeepsSlot(s: State, e: Event, u: DataflowId)
    requires Enabled(s, e) && At(s, u).live.Some? && Elsewhere(s, e, u)
    ensures At(Step(s, e), u) == At(s, u)
  {
    StepIsPointwise(s, e, u);
    match e
    case Report(d, entries, env) => ReconcileNone(u, At(s, u), d, entries, CtxOf(s, e, u), env);
    case _ =>
  }

  /** Whoever leaves the live set, the results of a dataflow that stays are kept. */
  lemma {:induction false} TearDownSpares(results: IndexMap<DataflowId, Results>, order: seq<DataflowId>,
                                          dfs: map<DataflowId, Dataflow>, live: set<DataflowId>, u: DataflowId)
    requires u in live && u !in order
    ensures Lookup(TearDownResults(results, order, dfs, live).items, u) == Lookup(results.items, u)
    decreases |order|
  {
    if order != [] && order[0] in dfs {
      RecordFailureSpares(results, order[0], dfs[order[0]], live, u);
      TearDownSpares(RecordFailure(results, order[0], dfs[order[0]], live), order[1..], dfs, live - {order[0]}, u);
    }
  }

  lemma RecordFailureSpares(results: IndexMap<DataflowId, Results>, v: DataflowId, df: Dataflow, live: set<DataflowId>,
                            u: DataflowId)
    requires u in live && u != v
    ensures Lookup(RecordFailure(results, v, df, live).items, u) == Lookup(results.items, u)
  {
    results.Put(v, KnownResults(Lookup(results.items, v)) + SyntheticResults(df))
    .DropOldestExceptKeeps(MAX_DATAFLOW_RESULTS, live - {v});
  }

  lemma FinishSpares(s: State, e: Event, u: DataflowId)
    requires e.Finished? && e.uuid != u && At(s, u).live.Some?
    ensures Lookup(ResultsAfter(s, e).items, u) == Lookup(s.results.items, u)
  {
    var put := FinishedResults(s, e.uuid, e.daemon, e.result);
    var gone := if Completes(At(s, e.uuid), e.daemon) then {e.uuid} else {};
    assert u in LiveIds(s) - gone + ReplacementOf(s, e);
    put.DropOldestExceptKeeps(MAX_DATAFLOW_RESULTS, LiveIds(s) - gone + ReplacementOf(s, e));
  }

  lemma TickSpares(s: State, e: Event, u: DataflowId)
    requires e.Tick? && At(s, u).live.Some? && Elsewhere(s, e, u)
    ensures Lookup(ResultsAfter(s, e).items, u) == Lookup(s.results.items, u)
  {
    var dfs := AfterDisconnect(s, LostBy(s, e), e.env);
    assert u in dfs && dfs[u] == At(s, u).live.value;
    TearDownSpares(s.results, StuckIn(e.order, dfs, e.env.now), dfs, dfs.Keys, u);
  }

  lemma ElsewhereKeepsResults(s: State, e: Event, u: DataflowId)
    requires At(s, u).live.Some? && Elsewhere(s, e, u)
    ensures Lookup(ResultsAfter(s, e).items, u) == Lookup(s.results.items, u)
  {
    match e
    case Finished(_, _, _, _, _) => FinishSpares(s, e, u);
    case SpawnReport(v, _, _, _) =>
      if SpawnFailure(s, e) {
        RecordFailureSpares(s.results, v, At(s, v).live.value, LiveIds(s), u);
      }
    case Tick(_, _, _) => TickSpares(s, e, u);
    case _ =>
  }

  // ----- runs in which a dataflow finishes ---------------------------------

  /** `e` is a report that `u` finished on some daemon, with the result `r` gives it. */
  ghost predicate FinishesWith(e: Event, u: DataflowId, r: map<DaemonId, DaemonResult>) {
    e.Finished? && e.uuid == u && e.daemon in r && e.result == r[e.daemon]
  }

  ghost predicate FinishTurn(s: State, e: Event, u: DataflowId, r: map<DaemonId, DaemonResult>) {
    FinishesWith(e, u, r) || (At(s, u).live.Some? && Elsewhere(s, e, u))
  }

  /** A run in which daemons report dataflow `u` finished with results `r`, in any order,
      amid any events that concern other dataflows. */
  ghost predicate FinishRun(states: seq<State>, events: seq<Event>, u: DataflowId, r: map<DaemonId, DaemonResult>) {
    && IsRun(states, events) && At(states[0], u).live.Some?
    && forall i :: 0 <= i < |events| ==> FinishTurn(states[i], events[i], u, r)
  }

  /** The daemons that reported `u` finished among the first `n` events. */
  ghost function Finishers(events: seq<Event>, u: DataflowId, n: nat): set<DaemonId>
    requires n <= |events|
  {
    if n == 0 then {}
    else
      var e := events[n - 1];
      Finishers(events, u, n - 1) + if e.Finished? && e.uuid == u then {e.daemon} else {}
  }

  /** The last event of the run, and only that one, completes the set of daemons. */
  ghost predicate EndsWithLast(states: seq<State>, events: seq<Event>, u: DataflowId)
    requires |states| > 0 && At(states[0], u).live.Some?
  {
    var daemons := At(states[0], u).live.value.daemons;
    events != [] && daemons <= Finishers(events, u, |events|) && !(daemons <= Finishers(events, u, |events| - 1))
  }

  function RemainingSlot(slot: Slot, gone: set<DaemonId>): Slot
    requires slot.live.Some?
  {
    slot.(live := Some(slot.live.value.(daemons := slot.live.value.daemons - gone)))
  }

  lemma FinishOneInRun(states: seq<State>, events: seq<Event>, u: DataflowId, r: map<DaemonId, DaemonResult>, i: nat)
    requires FinishRun(states, events, u, r) && i < |events| && FinishesWith(events[i], u, r)
    requires At(states[i], u).live.Some? && !Completes(At(states[i], u), events[i].daemon)
    ensures At(states[i + 1], u) == RemainingSlot(At(states[i], u), {events[i].daemon})
    ensures KnownResults(Lookup(states[i + 1].results.items, u))
         == KnownResults(Lookup(states[i].results.items, u))[events[i].daemon := r[events[i].daemon]]
  {
    assert Steps(states, events, i);
    FinishOne(states[i], u, events[i].daemon, events[i].result, events[i].started, events[i].env);
  }

  lemma ElsewhereInRun(states: seq<State>, events: seq<Event>, u: DataflowId, i: nat)
    requires IsRun(states, events) && i < |events| && At(states[i], u).live.Some?
    requires Elsewhere(states[i], events[i], u)
    ensures At(states[i + 1], u) == At(states[i], u)
    ensures Lookup(states[i + 1].results.items, u) == Lookup(states[i].results.items, u)
  {
    assert Steps(states, events, i);
    ElsewhereKeepsSlot(states[i], events[i], u);
    ElsewhereKeepsResults(states[i], events[i], u);
  }

  lemma FinishLastInRun(states: seq<State>, events: seq<Event>, u: DataflowId, r: map<DaemonId, DaemonResult>, i: nat)
    requires FinishRun(states, events, u, r) && i < |events| && FinishesWith(events[i], u, r)
    requires At(states[i], u).live.Some? && Completes(At(states[i], u), events[i].daemon)
    ensures var results := KnownResults(Lookup(states[i].results.items, u))[events[i].daemon := r[events[i].daemon]];
            && At(states[i + 1], u) == DoneSlot(At(states[i], u), results, events[i].started, events[i].env.now,
                                                Durable(events[i].env, u))
            && (u in states[i + 1].results.items ==> states[i + 1].results.items[u] == results)
  {
    assert Steps(states, events, i);
    FinishLast(states[i], u, events[i].daemon, events[i].result, events[i].started, events[i].env);
    FinishRecordsResult(states[i], events[i]);
  }

  /** While daemons are missing, the dataflow stays live on those, and its results
      accumulate. */
  lemma {:induction false} FinishProgress(states: seq<State>, events: seq<Event>, u: DataflowId,
                                          r: map<DaemonId, DaemonResult>, n: nat)
    requires FinishRun(states, events, u, r) && n <= |events|
    requires !(At(states[0], u).live.value.daemons <= Finishers(events, u, n))
    ensures At(states[n], u) == RemainingSlot(At(states[0], u), Finishers(events, u, n))
    ensures Finishers(events, u, n) <= r.Keys
    ensures KnownResults(Lookup(states[n].results.items, u))
         == Collected(KnownResults(Lookup(states[0].results.items, u)), Finishers(events, u, n), r)
  {
    var slot, known := At(states[0], u), KnownResults(Lookup(states[0].results.items, u));
    if n == 0 {
      RemainingNone(slot);
      CollectedNone(known, r);
    } else {
      var e, before := events[n - 1], Finishers(events, u, n - 1);
      FinishProgress(states, events, u, r, n - 1);
      assert FinishTurn(states[n - 1], e, u, r);
      if FinishesWith(e, u, r) {
        StillMissing(slot.live.value.daemons, before, e.daemon);
        FinishOneInRun(states, events, u, r, n - 1);
        RemainingTwice(slot, before, {e.daemon});
        CollectedLast(known, before, e.daemon, r);
      } else {
        assert before + {} == before;
        ElsewhereInRun(states, events, u, n - 1);
      }
    }
  }

  lemma StillMissing(daemons: set<DaemonId>, before: set<DaemonId>, d: DaemonId)
    ensures daemons <= before + {d} <==> daemons - before <= {d}
  {
    if daemons - before <= {d} {
      forall x | x in daemons ensures x in before + {d} {
        assert x in before || x in daemons - before;
      }
    }
  }

  lemma RemainingNone(slot: Slot)
    requires slot.live.Some?
    ensures RemainingSlot(slot, {}) == slot
  {
    assert slot.live.value.daemons - {} == slot.live.value.daemons;
  }

  lemma RemainingTwice(slot: Slot, gone: set<DaemonId>, more: set<DaemonId>)
    requires slot.live.Some?
    ensures RemainingSlot(RemainingSlot(slot, gone), more) == RemainingSlot(slot, gone + more)
  {
    var daemons := slot.live.value.daemons;
    assert daemons - gone - more == daemons - (gone + more);
  }

  lemma CollectedNone(known: Results, r: map<DaemonId, DaemonResult>)
    ensures Collected(known, {}, r) == known
  {
  }

  /** Whatever the order in which the daemons of a dataflow report it finished, and
      whatever happens to other dataflows in between, it ends with the same collected
      results, in its answers, its record and the history; only the last event's clock,
      store and placement show. */
  lemma FinishOrderIsIrrelevant(states: seq<State>, events: seq<Event>, u: DataflowId, r: map<DaemonId, DaemonResult>)
    requires FinishRun(states, events, u, r) && EndsWithLast(states, events, u)
    ensures Finishers(events, u, |events|) <= r.Keys
    ensures var last := events[|events| - 1];
            var results := Collected(KnownResults(Lookup(states[0].results.items, u)), Finishers(events, u, |events|), r);
            && last.Finished?
            && At(states[|events|], u)
               == DoneSlot(At(states[0], u), results, last.started, last.env.now, Durable(last.env, u))
            && (u in states[|events|].results.items ==> states[|events|].results.items[u] == results)
  {
    var n := |events| - 1;
    var slot, known := At(states[0], u), KnownResults(Lookup(states[0].results.items, u));
    var e, before := events[n], Finishers(events, u, n);
    FinishProgress(states, events, u, r, n);
    assert FinishTurn(states[n], e, u, r) && FinishesWith(e, u, r);
    StillMissing(slot.live.value.daemons, before, e.daemon);
    FinishLastInRun(states, events, u, r, n);
    CollectedLast(known, before, e.daemon, r);
    DoneIgnoresDaemons(slot, before, Collected(known, before + {e.daemon}, r), e.started, e.env.now, Durable(e.env, u));
  }

  /** Finish-order independence: two orders of the same reports give the same persisted
      verdict, the same answers to everyone who waits, and the same entry in the history
      wherever the cap left one. */
  lemma FinishOrdersAgree(states: seq<State>, events: seq<Event>, states': seq<State>, events': seq<Event>,
                          u: DataflowId, r: map<DaemonId, DaemonResult>)
    requires FinishRun(states, events, u, r) && FinishRun(states', events', u, r) && states[0] == states'[0]
    requires EndsWithLast(states, events, u) && EndsWithLast(states', events', u)
    requires Finishers(events, u, |events|) == Finishers(events', u, |events'|)
    ensures var a, b, e, e' := states[|events|], states'[|events'|], events[|events| - 1], events'[|events'| - 1];
            && At(a, u).live.None? && At(b, u).live.None? && e.Finished? && e'.Finished?
            && (u in a.results.items && u in b.results.items ==> a.results.items[u] == b.results.items[u])
            && (Durable(e.env, u) && Durable(e'.env, u) ==>
                  && At(a, u).record.Some? && At(b, u).record.Some?
                  && At(a, u).record.value.status == At(b, u).record.value.status)
            && (e.started == e'.started ==> At(a, u).out == At(b, u).out)
  {
    FinishOrderIsIrrelevant(states, events, u, r);
    FinishOrderIsIrrelevant(states', events', u, r);
    var results := Collected(KnownResults(Lookup(states[0].results.items, u)), Finishers(events, u, |events|), r);
    var e, e' := events[|events| - 1], events'[|events'| - 1];
    DonesAgree(At(states[0], u), results, e.started, e.env.now, Durable(e.env, u), e'.started, e'.env.now,
               Durable(e'.env, u));
  }

  lemma DonesAgree(slot: Slot, results: Results, started: Option<Placement>, now: Millis, durable: bool,
                   started': Option<Placement>, now': Millis, durable': bool)
    requires slot.live.Some?
    ensures var a, b := DoneSlot(slot, results, started, now, durable), DoneSlot(slot, results, started', now', durable');
            && a.live.None? && b.live.None?
            && (durable && durable' ==>
                  a.record.Some? && b.record.Some? && a.record.value.status == b.record.value.status)
            && (started == started' ==> a.out == b.out)
  {
  }

  lemma CollectedLast(known: Results, ds: set<DaemonId>, d: DaemonId, r: map<DaemonId, DaemonResult>)
    requires ds + {d} <= r.Keys
    ensures Collected(known, ds, r)[d := r[d]] == Collected(known, ds + {d}, r)
  {
  }

  lemma DoneIgnoresDaemons(slot: Slot, gone: set<DaemonId>, results: Results, started: Option<Placement>, now: Millis,
                           durable: bool)
    requires slot.live.Some?
    ensures DoneSlot(RemainingSlot(slot, gone), results, started, now, durable)
         == DoneSlot(slot, results, started, now, durable)
  {
    var df := slot.live.value;
    assert df.(daemons := df.daemons - gone).(daemons := {}) == df.(daemons := {});
  }

  /** The final slot carries the verdict of the collected results: Succeeded exactly if no
      node of any daemon failed, otherwise a failure that is not terminal. */
  lemma DoneVerdict(slot: Slot, results: Results, started: Option<Placement>, now: Millis)
    requires slot.live.Some?
    ensures var done := DoneSlot(slot, results, started, now, true);
            && done.live.None? && done.restart.None? && done.record.Some?
            && (done.record.value.status == Succeeded <==>
                  forall d, n :: d in results && n in results[d] ==> results[d][n])
            && (done.record.value.status != Succeeded ==> done.record.value.status == Failed(false))
  {
    if d, n :| d in results && n in results[d] && !results[d][n] {
      assert !AllOk(results[d]);
    }
  }

  /** The verdict over whole runs: once every daemon reported, in any order and amid events
      of other dataflows, the record says Succeeded exactly if no collected node failed. */
  lemma FinishedVerdict(states: seq<State>, events: seq<Event>, u: DataflowId, r: map<DaemonId, DaemonResult>)
    requires FinishRun(states, events, u, r) && EndsWithLast(states, events, u)
    requires events[|events| - 1].Finished? ==> Durable(events[|events| - 1].env, u)
    ensures Finishers(events, u, |events|) <= r.Keys
    ensures var record := At(states[|events|], u).record;
            var results := Collected(KnownResults(Lookup(states[0].results.items, u)), Finishers(events, u, |events|), r);
            && record.Some?
            && (record.value.status == Succeeded <==>
                  forall d, n :: d in results && n in results[d] ==> results[d][n])
            && (record.value.status != Succeeded ==> record.value.status == Failed(false))
  {
    FinishOrderIsIrrelevant(states, events, u, r);
    var results := Collected(KnownResults(Lookup(states[0].results.items, u)), Finishers(events, u, |events|), r);
    var last := events[|events| - 1];
    DoneVerdict(At(states[0], u), results, last.started, last.env.now);
  }

  /** What the listing says of a dataflow that is not live, node by node. */
  lemma ListedFinishedIff(s: State, u: DataflowId)
    ensures ListStatus(s, u) == ListedRunning <==> At(s, u).live.Some?
    ensures ListStatus(s, u) == ListedFinished <==>
              && At(s, u).live.None? && u in s.results.items
              && forall d, n :: d in s.results.items[u] && n in s.results.items[u][d] ==> s.results.items[u][d][n]
    ensures ListStatus(s, u) == ListedFailed <==>
              && At(s, u).live.None? && u in s.results.items
              && exists d, n :: d in s.results.items[u] && n in s.results.items[u][d] && !s.results.items[u][d][n]
  {
    if u in s.results.items {
      var results := s.results.items[u];
      if d, n :| d in results && n in results[d] && !results[d][n] {
        assert !AllOk(results[d]);
      }
    }
  }

  // ----- clean -------------------------------------------------------------

  /** Clean touches no live dataflow and nothing it failed to delete, and a cleaned
      dataflow leaves the store, the results and the archive. */
  lemma CleanIsAPartition(s: State, env: Env, u: DataflowId)
    requires Inv(s) && env.listable
    ensures var s' := Step(s, Clean(env));
            && (At(s, u).live.Some? ==> u !in Candidates(s))
            && (u !in CleanedBy(s, env) ==>
                  && At(s', u) == At(s, u)
                  && Lookup(s'.results.items, u) == Lookup(s.results.items, u)
                  && Lookup(s'.archived.items, u) == Lookup(s.archived.items, u))
            && (u in CleanedBy(s, env) ==>
                  && At(s', u) == At(s, u).(record := None)
                  && u !in s'.results.items && u !in s'.archived.items)
  {
    StepIsPointwise(s, Clean(env), u);
  }

  /** The candidates of the next clean are exactly the failures of this one. */
  lemma CleanConverges(s: State, env: Env)
    requires Inv(s) && env.listable
    ensures Candidates(Step(s, Clean(env))) == Candidates(s) * env.lostWrites
  {
    var s' := Step(s, Clean(env));
    forall u ensures u in Candidates(s') <==> u in Candidates(s) * env.lostWrites {
      CleanIsAPartition(s, env, u);
    }
  }

  /** A store that cannot be listed leaves everything as it was. */
  lemma CleanNeedsTheStore(s: State, env: Env)
    requires !env.listable
    ensures SameSlots(Step(s, Clean(env)), s)
    ensures Step(s, Clean(env)).results == s.results && Step(s, Clean(env)).archived == s.archived
  {
    forall u ensures At(Step(s, Clean(env)), u) == At(s, u) {
      StepIsPointwise(s, Clean(env), u);
    }
  }

  /** "Only fully completed dataflows are eligible" is not what the code does: clean
      deletes the record of a dataflow that waits for its daemons to come back exactly
      when the history holds results of a daemon that had finished before. */
  lemma CleanDeletesRecoveringIff(s: State, env: Env, u: DataflowId)
    requires Inv(s) && env.listable && Durable(env, u)
    requires At(s, u).live.None? && At(s, u).record.Some? && At(s, u).record.value.status == Recovering
    ensures At(Step(s, Clean(env)), u).record.None? <==> u in s.results.items
  {
    CleanIsAPartition(s, env, u);
  }

  /** Losing the last daemon of a spawned dataflow leaves a Recovering record. */
  lemma ExitLeavesRecovering(s: State, u: DataflowId, d: DaemonId, env: Env)
    requires d in s.conns && Durable(env, u)
    requires At(s, u).live.Some? && At(s, u).live.value.daemons == {d} && At(s, u).live.value.spawn.SpawnOk?
    ensures var s' := Step(s, Exit(d, s.conns[d].id, env));
            && At(s', u).live.None? && At(s', u).record.Some? && At(s', u).record.value.status == Recovering
            && s'.results == s.results
  {
    StepIsPointwise(s, Exit(d, s.conns[d].id, env), u);
    assert Orphaned(At(s, u).live.value, {d});
  }

  /** How it comes about, for every dataflow on two daemons: one finishes, the other
      loses its connection, and a clean comes before it is back. */
  lemma CleanForgetsAWaitingDataflow(states: seq<State>, events: seq<Event>, u: DataflowId, ds: seq<DaemonId>,
                                     result: DaemonResult, env: Env)
    requires IsRun(states, events) && Inv(states[0]) && |events| == 3
    requires env.listable && Durable(env, u)
    requires |ds| == 2 && ds[0] != ds[1] && ds[1] in states[1].conns
    requires At(states[0], u).live.Some? && At(states[0], u).live.value.daemons == {ds[0], ds[1]}
    requires At(states[0], u).live.value.spawn.SpawnOk?
    requires events == [Finished(u, ds[0], result, None, env), Exit(ds[1], states[1].conns[ds[1]].id, env), Clean(env)]
    ensures At(states[2], u).live.None? && At(states[2], u).record.Some?
            && At(states[2], u).record.value.status == Recovering
    ensures At(states[3], u).live.None? && At(states[3], u).record.None?
  {
    ForgetFinish(states, events, u, ds, result, env);
    ForgetExit(states, events, u, ds, result, env);
    InvRun(states, events, 2);
    assert Steps(states, events, 2);
    CleanDeletesRecoveringIff(states[2], env, u);
    CleanIsAPartition(states[2], env, u);
  }

  lemma ForgetFinish(states: seq<State>, events: seq<Event>, u: DataflowId, ds: seq<DaemonId>, result: DaemonResult,
                     env: Env)
    requires IsRun(states, events) && Inv(states[0]) && |events| == 3 && |ds| == 2 && ds[0] != ds[1]
    requires At(states[0], u).live.Some? && At(states[0], u).live.value.daemons == {ds[0], ds[1]}
    requires events[0] == Finished(u, ds[0], result, None, env)
    ensures u in states[1].results.items
    ensures At(states[1], u).live.Some? && At(states[1], u).live.value.daemons == {ds[1]}
    ensures At(states[1], u).live.value.spawn == At(states[0], u).live.value.spawn
  {
    assert Steps(states, events, 0);
    FinishOne(states[0], u, ds[0], result, None, env);
    assert {ds[0], ds[1]} - {ds[0]} == {ds[1]};
  }

  lemma ForgetExit(states: seq<State>, events: seq<Event>, u: DataflowId, ds: seq<DaemonId>, result: DaemonResult,
                   env: Env)
    requires IsRun(states, events) && |events| == 3 && |ds| == 2 && ds[1] in states[1].conns && Durable(env, u)
    requires At(states[1], u).live.Some? && At(states[1], u).live.value.daemons == {ds[1]}
    requires At(states[1], u).live.value.spawn.SpawnOk?
    requires events[1] == Exit(ds[1], states[1].conns[ds[1]].id, env)
    ensures At(states[2], u).live.None? && At(states[2], u).record.Some?
            && At(states[2], u).record.value.status == Recovering
    ensures states[2].results == states[1].results
  {
    assert Steps(states, events, 1);
    ExitLeavesRecovering(states[1], u, ds[1], env);
  }

  /** After that the returning daemon is neither re-adopted nor told to stop: a report
      about a dataflow with no record and no archive entry does nothing at all. */
  lemma {:induction false} ForgottenDataflowIsIgnored(u: DataflowId, slot: Slot, d: DaemonId, entries: seq<StatusEntry>,
                                                      connected: bool, now: Millis, readable: bool, durable: bool)
    requires slot.live.None? && slot.record.None?
    ensures ReportSlot(u, slot, d, entries, false, connected, now, readable, durable) == slot
    decreases |entries|
  {
    ReconcileForgotten(u, slot, d, entries, connected, now, readable, durable);
  }

  lemma {:induction false} ReconcileForgotten(u: DataflowId, slot: Slot, d: DaemonId, entries: seq<StatusEntry>,
                                              connected: bool, now: Millis, readable: bool, durable: bool)
    requires slot.live.None? && slot.record.None?
    ensures ReconcileAll(u, slot, d, entries, false, connected, now, readable, durable) == slot
    decreases |entries|
  {
    if entries != [] {
      ReconcileForgotten(u, slot, d, entries[1..], connected, now, readable, durable);
    }
  }
}
