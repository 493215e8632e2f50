/** The coordinator process: the fields its event loop updates in place and one
    method per event. Every handler is proved to take exactly the step of module
    Coordinator, so the invariants and run properties proved there hold of it. */
module CoordinatorLoop {
  import opened Common
  import opened CoordinatorTypes
  import opened DataflowSlot
  import opened Coordinator
  import opened CoordinatorInvariants
  import opened DisconnectConfluence
  import opened FinishAndClean
  import opened LoopSteps

  class EventLoop {
    var connections: map<DaemonId, Connection>
    var running: map<DataflowId, Dataflow>
    var pendingRestarts: map<DataflowId, Restart>
    var store: map<DataflowId, Record>
    var sent: map<DataflowId, seq<Output>>
    var results: IndexMap<DataflowId, Results>
    var archived: IndexMap<DataflowId, Option<string>>
    var rejected: seq<Caller>
    ghost var known: set<DataflowId>

    ghost function SlotOf(u: DataflowId): Slot
      reads this`running, this`pendingRestarts, this`store, this`sent
    {
      Slot(Lookup(running, u), Lookup(pendingRestarts, u), Lookup(store, u), if u in sent then sent[u] else [])
    }

    ghost predicate Valid()
      reads this
    {
      forall u :: u !in known ==> SlotOf(u) == EMPTY_SLOT
    }

    ghost function View(): State
      reads this
    {
      State(connections, map u | u in known :: SlotOf(u), results, archived, rejected)
    }

    twostate predicate Only(u: DataflowId)
      reads this`running, this`pendingRestarts, this`store, this`sent
    {
      forall v :: v != u ==> SlotOf(v) == old(SlotOf(v))
    }

    constructor ()
      ensures Valid() && View() == INITIAL
    {
      connections, running, pendingRestarts, store, sent := map[], map[], map[], map[], map[];
      results, archived, rejected, known := IndexMap([], map[]), IndexMap([], map[]), [], {};
    }

    lemma Snapshot() returns (s: State)
      requires Valid()
      ensures s == View() && forall u :: At(s, u) == SlotOf(u)
    {
      s := View();
    }

    lemma Holds(t: State)
      requires connections == t.conns && results == t.results && archived == t.archived && rejected == t.rejected
      requires known == t.slots.Keys && forall u :: SlotOf(u) == At(t, u)
      ensures Valid() && View() == t
    {
      assert View().slots == t.slots by {
        forall u | u in known
          ensures View().slots[u] == t.slots[u]
        {
          assert SlotOf(u) == At(t, u);
        }
      }
    }

    /** Once every field is what the step says, the object has taken the step. */
    lemma TakesStep(s: State, e: Event)
      requires Rest(s, e, connections, Histories(results, archived), rejected, known)
      requires forall u :: Moves(s, e, u, SlotOf(u))
      ensures Valid() && Next(s, e, View())
    {
      assert Open(0);
      forall u
        ensures SlotOf(u) == At(Step(s, e), u)
      {
        StepIsPointwise(s, e, u);
        assert Moves(s, e, u, SlotOf(u));
      }
      Holds(Step(s, e));
    }

    /** The same for a request that reached no dataflow. */
    lemma TakesRefusal(s: State, e: Event)
      requires (e.StopByName? || e.RestartByName? || e.StartReq?) && Targets(s, e, None)
      requires connections == s.conns && rejected == s.rejected + [e.caller] && known == s.slots.Keys
      requires results == s.results && archived == s.archived && forall u :: SlotOf(u) == At(s, u)
      ensures Valid() && Next(s, e, View())
    {
      RefusalRest(s, e);
      forall u
        ensures Moves(s, e, u, SlotOf(u))
      {
        IdleMoves(s, e, u);
      }
      TakesStep(s, e);
    }

    /** The same for an event that only touches connections. */
    lemma TakesIdleStep(s: State, e: Event)
      requires e.Register? || e.Heartbeat? || e.Endpoint?
      requires Rest(s, e, connections, Histories(results, archived), rejected, known)
      requires forall u :: SlotOf(u) == At(s, u)
      ensures Valid() && Next(s, e, View())
    {
      forall u
        ensures Moves(s, e, u, SlotOf(u))
      {
        IdleMoves(s, e, u);
      }
      TakesStep(s, e);
    }

    /** The same for an event that concerns one dataflow only. */
    lemma TakesStepAt(s: State, e: Event, v: DataflowId)
      requires Effect(s, e, v, SlotOf(v), Histories(results, archived))
      requires connections == s.conns && rejected == s.rejected && known == s.slots.Keys + {v}
      requires forall u :: u != v ==> SlotOf(u) == At(s, u)
      ensures Valid() && Next(s, e, View())
    {
      EffectRest(s, e, v, SlotOf(v), Histories(results, archived));
      forall u
        ensures Moves(s, e, u, SlotOf(u))
      {
        EffectMoves(s, e, v, SlotOf(v), Histories(results, archived), u, SlotOf(u));
      }
      TakesStep(s, e);
    }

    // ----- building blocks -------------------------------------------------

    method Send(u: DataflowId, output: Output)
      modifies this`sent
      ensures SlotOf(u) == Emit(old(SlotOf(u)), [output]) && Only(u)
    {
      sent := sent[u := (if u in sent then sent[u] else []) + [output]];
    }

    /** Drains parked callers, one reply each. */
    method ReplyAll(u: DataflowId, callers: seq<Caller>, answer: Answer)
      modifies this`sent
      ensures SlotOf(u) == Emit(old(SlotOf(u)), Reply(callers, answer)) && Only(u)
    {
      var i := 0;
      assert old(SlotOf(u)).out + [] == old(SlotOf(u)).out;
      while i < |callers|
        invariant 0 <= i <= |callers|
        invariant SlotOf(u) == Emit(old(SlotOf(u)), Reply(callers, answer)[..i]) && Only(u)
      {
        Send(u, Answered(callers[i], answer));
        assert Reply(callers, answer)[..i + 1] == Reply(callers, answer)[..i] + [Answered(callers[i], answer)];
        i := i + 1;
      }
      assert Reply(callers, answer)[..|callers|] == Reply(callers, answer);
    }

    method CancelPendingRestart(u: DataflowId, reason: CancelReason)
      modifies this`pendingRestarts, this`sent
      ensures SlotOf(u) == CancelRestart(old(SlotOf(u)), reason) && Only(u)
    {
      if u in pendingRestarts {
        var caller := pendingRestarts[u].caller;
        pendingRestarts := pendingRestarts - {u};
        Send(u, Answered(caller, RestartCancelled(reason)));
      }
    }

    /** `make_record` and `put_dataflow`: the generation moves even if the write is lost. */
    method PutRecord(u: DataflowId, status: Status, env: Env)
      requires u in running
      modifies this`running, this`store
      ensures SlotOf(u) == Persist(old(SlotOf(u)), old(running[u]), status, env.now, Durable(env, u)) && Only(u)
      ensures running.Keys == old(running).Keys
    {
      var df := running[u].(generation := running[u].generation + 1);
      running := running[u := df];
      if u !in env.lostWrites {
        store := store[u := MakeRecord(df, status, env.now)];
      }
    }

    // ----- disconnects -----------------------------------------------------

    /** Prunes lost daemons from every live dataflow, cancels the restarts of the affected
        ones, and returns what is left to do. */
    method CleanupDisconnected(lost: set<DaemonId>) returns (actions: seq<DisconnectAction>)
      modifies this`running, this`pendingRestarts, this`sent
      ensures forall u :: SlotOf(u) == Pruned(old(SlotOf(u)), lost)
      ensures ActionsFor(actions, old(running), lost)
    {
      var affected: set<DataflowId>;
      actions, affected := PruneRunning(lost);
      label pruned:
      var todo := affected;
      while todo != {}
        invariant todo <= affected
        invariant forall u :: SlotOf(u) ==
                    if u in affected - todo then CancelRestart(old@pruned(SlotOf(u)), DaemonLost)
                    else old@pruned(SlotOf(u))
      {
        var u :| u in todo;
        CancelPendingRestart(u, DaemonLost);
        todo := todo - {u};
      }
      forall u | u in old(running)
        ensures !Affected(old(running)[u], lost) ==> Prune(old(running)[u], lost) == old(running)[u]
      {
        AffectedTwice(old(running)[u], lost, {});
      }
    }

    method PruneRunning(lost: set<DaemonId>) returns (actions: seq<DisconnectAction>, affected: set<DataflowId>)
      modifies this`running
      ensures running.Keys == old(running).Keys
      ensures forall u :: u in running ==> running[u] == Prune(old(running)[u], lost)
      ensures affected == set u | u in old(running) && Affected(old(running)[u], lost)
      ensures ActionsFor(actions, old(running), lost)
    {
      actions, affected := [], {};
      ghost var before := running;
      var todo := running.Keys;
      while todo != {}
        invariant todo <= before.Keys == running.Keys
        invariant forall u :: u in todo ==> running[u] == before[u]
        invariant forall u :: u in before.Keys - todo ==> running[u] == Prune(before[u], lost)
        invariant affected == set u | u in before.Keys - todo && Affected(before[u], lost)
        invariant ActionsFor(actions, Restrict(before, todo), lost)
      {
        var u :| u in todo;
        var awaited := running[u].pendingDaemons != {};
        var df, hit := PruneMembership(running[u], lost);
        running := running[u := df];
        var next: seq<DisconnectAction> := [];
        if hit {
          affected := affected + {u};
          if df.daemons == {} {
            if df.spawn.SpawnOk? {
              next := [ReclaimOrphaned(u)];
            }
          } else if df.spawn.SpawnOk? && awaited && df.pendingDaemons == {} {
            next := [ReleaseReadyBarrier(u)];
          }
        }
        ActionsGrow(actions, next, before, todo, lost, u);
        actions := actions + next;
        todo := todo - {u};
      }
      assert Restrict(before, {}) == before;
    }

    method BroadcastAllNodesReady(u: DataflowId, env: Env)
      requires u in running
      modifies this`running, this`store, this`sent
      ensures SlotOf(u) == ReleaseBarrier(old(SlotOf(u)), old(running[u]), env.now, Readable(env, u), Durable(env, u))
      ensures Only(u)
    {
      running := running[u := running[u].(barrierReleased := true)];
      var status := Pending;
      if running[u].exited == [] {
        status := Running;
      } else if u !in env.unreadable && u in store {
        status := store[u].status;
      }
      PutRecord(u, status, env);
      Send(u, BarrierBroadcast(running[u].daemons, running[u].exited));
    }

    /** All daemons of the dataflow are gone: park it in the store and free its waiters. */
    method BeginReclaim(u: DataflowId, env: Env)
      modifies this`running, this`store, this`sent
      ensures SlotOf(u) == Acted(old(SlotOf(u)), ReclaimOrphaned(u), env) && Only(u)
    {
      if u in running {
        PutRecord(u, Recovering, env);
        var df := running[u];
        running := running - {u};
        ReplyAll(u, df.stopWaiters, Stopped(map[]));
      }
    }

    method ApplyActions(actions: seq<DisconnectAction>, env: Env)
      requires forall i, j :: 0 <= i < j < |actions| ==> actions[i].uuid != actions[j].uuid
      modifies this`running, this`store, this`sent
      ensures forall i :: 0 <= i < |actions| ==>
                SlotOf(actions[i].uuid) == Acted(old(SlotOf(actions[i].uuid)), actions[i], env)
      ensures forall u :: (forall i :: 0 <= i < |actions| ==> actions[i].uuid != u) ==> SlotOf(u) == old(SlotOf(u))
    {
      var i := 0;
      while i < |actions|
        invariant 0 <= i <= |actions|
        invariant forall k :: 0 <= k < i ==>
                    SlotOf(actions[k].uuid) == Acted(old(SlotOf(actions[k].uuid)), actions[k], env)
        invariant forall u :: (forall k :: 0 <= k < i ==> actions[k].uuid != u) ==> SlotOf(u) == old(SlotOf(u))
      {
        match actions[i] {
          case ReclaimOrphaned(u) => BeginReclaim(u, env);
          case ReleaseReadyBarrier(u) =>
            if u in running {
              BroadcastAllNodesReady(u, env);
            }
        }
        i := i + 1;
      }
    }

    /** The whole reaction to losing daemons. */
    method Disconnect(lost: set<DaemonId>, env: Env)
      modifies this`running, this`pendingRestarts, this`store, this`sent
      ensures forall u :: SlotOf(u) ==
                DisconnectSlot(old(SlotOf(u)), lost, env.now, Readable(env, u), Durable(env, u))
    {
      var actions := CleanupDisconnected(lost);
      label cleaned:
      ApplyActions(actions, env);
      forall u
        ensures SlotOf(u) == DisconnectSlot(old(SlotOf(u)), lost, env.now, Readable(env, u), Durable(env, u))
      {
        if u in old(running) && Orphaned(old(running)[u], lost) {
          assert ReclaimOrphaned(u) in actions;
        } else if u in old(running) && BarrierFreed(old(running)[u], lost) {
          assert ReleaseReadyBarrier(u) in actions;
        } else {
          assert ReclaimOrphaned(u) !in actions && ReleaseReadyBarrier(u) !in actions;
        }
      }
    }

    // ----- connection events -----------------------------------------------

    method HandleExit(d: DaemonId, connection: nat, env: Env)
      requires Valid()
      modifies this
      ensures Valid() && Next(old(View()), Exit(d, connection, env), View())
    {
      ghost var s := Snapshot();
      if d in connections && connections[d].id == connection {
        connections := connections - {d};
        Disconnect({d}, env);
      }
      forall u
        ensures Moves(s, Exit(d, connection, env), u, SlotOf(u))
      {
        ExitMoves(s, d, connection, env, u);
      }
      TakesStep(s, Exit(d, connection, env));
    }

    method HandleHeartbeat(d: DaemonId, env: Env)
      requires Valid()
      modifies this
      ensures Valid() && Next(old(View()), Heartbeat(d, env), View())
    {
      ghost var s := Snapshot();
      if d in connections {
        connections := connections[d := connections[d].(lastHeartbeat := env.now)];
      }
      TakesIdleStep(s, Heartbeat(d, env));
    }

    method HandleEndpoint(d: DaemonId, connection: nat, endpoint: Option<string>)
      requires Valid()
      modifies this
      ensures Valid() && Next(old(View()), Endpoint(d, connection, endpoint), View())
    {
      ghost var s := Snapshot();
      if d in connections && connections[d].id == connection {
        connections := connections[d := connections[d].(endpoint := endpoint)];
      }
      TakesIdleStep(s, Endpoint(d, connection, endpoint));
    }

    /** The registered id of a machine, if there is one. */
    method FindMachine(machine: Option<string>) returns (r: Option<DaemonId>)
      ensures r.Some? ==> r.value in connections && r.value.machine == machine
      ensures r.None? ==> forall d :: d in connections ==> d.machine != machine
    {
      var todo := connections.Keys;
      while todo != {}
        invariant todo <= connections.Keys
        invariant forall d :: d in connections.Keys - todo ==> d.machine != machine
      {
        var d :| d in todo;
        if d.machine == machine {
          return Some(d);
        }
        todo := todo - {d};
      }
      return None;
    }

    method HandleRegister(machine: Option<string>, conn: Connection, accepted: bool, freshUuid: nat)
      requires Valid() && OneIdPerMachine(connections)
      modifies this
      ensures Valid() && Next(old(View()), Register(machine, conn, accepted, freshUuid), View())
    {
      ghost var s := Snapshot();
      var existing := FindMachine(machine);
      var d := if existing.Some? then existing.value else DaemonId(machine, freshUuid);
      assert d == RegisteredId(s.conns, machine, freshUuid);
      if accepted {
        connections := connections[d := conn];
      }
      TakesIdleStep(s, Register(machine, conn, accepted, freshUuid));
    }

    // ----- heartbeat tick --------------------------------------------------

    /** Sends one heartbeat per daemon and drops those that are stale or unreachable. */
    method CheckHeartbeats(sends: map<DaemonId, SendOutcome>, now: Millis) returns (lost: set<DaemonId>)
      modifies this`connections
      ensures lost == TickLost(old(connections), sends, now)
      ensures connections == TickConns(old(connections), sends, now)
    {
      lost := {};
      ghost var before := connections;
      var todo := connections.Keys;
      while todo != {}
        invariant todo <= before.Keys == connections.Keys
        invariant lost == TickLost(before, sends, now) - todo
        invariant forall d :: d in todo ==> connections[d] == before[d]
        invariant forall d :: d in before.Keys - todo - lost ==>
                    connections[d] == before[d].(sendTimeouts :=
                      HeartbeatDecision(OutcomeFor(sends, d), before[d].sendTimeouts).0)
      {
        var d :| d in todo;
        if Stale(connections[d], now) {
          lost := lost + {d};
        } else {
          var decision := HeartbeatDecision(OutcomeFor(sends, d), connections[d].sendTimeouts);
          connections := connections[d := connections[d].(sendTimeouts := decision.0)];
          if decision.1 {
            lost := lost + {d};
          }
        }
        todo := todo - {d};
      }
      connections := connections - lost;
    }

    /** Drops finished history beyond the cap, never the entry of a live dataflow. */
    method CapResults()
      modifies this`results
      ensures results == old(results).DropOldestExcept(MAX_DATAFLOW_RESULTS, running.Keys)
    {
      while |results.keys| > MAX_DATAFLOW_RESULTS
        invariant results.DropOldestExcept(MAX_DATAFLOW_RESULTS, running.Keys)
               == old(results).DropOldestExcept(MAX_DATAFLOW_RESULTS, running.Keys)
        decreases |results.keys|
      {
        var i := FirstOutside(results.keys, running.Keys);
        if i == |results.keys| {
          break;
        }
        WithoutShorter(results.keys, results.keys[i]);
        results := results.Remove(results.keys[i]);
      }
    }

    /** Remembers a dataflow that left the live set, within the archive's cap. */
    method ArchiveDataflow(u: DataflowId, name: Option<string>)
      modifies this`archived
      ensures archived == Archive(old(archived), u, name)
    {
      archived := archived.PutIfAbsent(u, name);
      archived := EvictOldest(archived, MAX_ARCHIVED_DATAFLOWS);
    }

    /** Rolls back the daemons that already started nodes, drops the live entry and
        answers everyone waiting for it to stop. */
    method DropFailedSpawn(u: DataflowId, rollback: set<DaemonId>, collected: Results)
      requires u in running
      modifies this`running, this`pendingRestarts, this`sent
      ensures SlotOf(u) == TearDown(old(SlotOf(u)), old(running[u]), rollback, collected) && Only(u)
      ensures running == old(running) - {u}
    {
      if rollback != {} {
        Send(u, Rollback(rollback));
      }
      var df := running[u];
      CancelPendingRestart(u, SpawnGaveUp);
      running := running - {u};
      ReplyAll(u, df.stopWaiters, Stopped(collected));
    }

    method TearDownFailedSpawn(u: DataflowId, rollback: set<DaemonId>)
      requires u in running
      modifies this`running, this`pendingRestarts, this`sent, this`results, this`archived
      ensures SlotOf(u) == TearDown(old(SlotOf(u)), old(running[u]), rollback,
                                    KnownResults(Lookup(old(results).items, u)) + SyntheticResults(old(running[u])))
      ensures Only(u)
      ensures running == old(running) - {u}
      ensures results == RecordFailure(old(results), u, old(running[u]), old(running).Keys)
      ensures archived == Archive(old(archived), u, old(running[u]).name)
    {
      var df := running[u];
      results := results.Put(u, KnownResults(Lookup(results.items, u)) + SyntheticResults(df));
      DropFailedSpawn(u, rollback, results.items[u]);
      ArchiveDataflow(u, df.name);
      CapResults();
    }

    /** The spawn of `u` failed for good: resolve its waiters, persist, tear down. */
    method FailSpawnOf(u: DataflowId, env: Env)
      requires u in running
      modifies this`running, this`pendingRestarts, this`store, this`sent, this`results, this`archived
      ensures SlotOf(u) == FailSpawn(old(SlotOf(u)), old(running[u]),
                                     FailedResults(old(SlotOf(u)), Lookup(old(results).items, u)),
                                     env.now, Durable(env, u))
      ensures Only(u)
      ensures running.Keys == old(running).Keys - {u}
      ensures results == RecordFailure(old(results), u, old(running[u]), old(running).Keys)
      ensures archived == Archive(old(archived), u, old(running[u]).name)
    {
      var df := running[u];
      PutRecord(u, Failed(true), env);
      SameSynthetic(df, running[u]);
      ReplyAll(u, SpawnWaiters(df.spawn), SpawnFailed);
      TearDownFailedSpawn(u, df.daemons - df.pendingSpawn);
    }

    method CollectStuck(order: seq<DataflowId>, now: Millis) returns (stuck: seq<DataflowId>)
      ensures stuck == StuckIn(order, running, now)
    {
      stuck := [];
      var i := 0;
      while i < |order|
        invariant 0 <= i <= |order|
        invariant stuck + StuckIn(order[i..], running, now) == StuckIn(order, running, now)
      {
        assert order[i..][1..] == order[i + 1..];
        if order[i] in running && SpawnStuck(running[order[i]], now) {
          stuck := stuck + [order[i]];
        }
        i := i + 1;
      }
    }

    /** The first `n` dataflows of `stuck` were given up, all others are as they were. */
    ghost predicate GivenUp(before: imap<DataflowId, Slot>, stuck: seq<DataflowId>, n: nat, start: Histories, env: Env)
      requires n <= |stuck|
      reads this`running, this`pendingRestarts, this`store, this`sent
    {
      forall z {:trigger Open(z)} :: Open(z) && z == 1 ==> forall u ::
        u in before && if u in stuck[..n] then GaveUp(u, before[u], Lookup(start.results.items, u), env, SlotOf(u))
                       else SlotOf(u) == before[u]
    }

    /** Fails the spawn of `stuck[i]`, which is the next one the histories are due to see. */
    method FailNext(stuck: seq<DataflowId>, i: nat, ghost before: imap<DataflowId, Slot>,
                    ghost dfs: map<DataflowId, Dataflow>, ghost start: Histories, ghost end: Histories, env: Env)
      requires Distinct(stuck) && i < |stuck| && stuck[i] in dfs && GivenUp(before, stuck, i, start, env)
      requires stuck[i] in before && before[stuck[i]].live == Some(dfs[stuck[i]])
      requires DueTo(Histories(results, archived), stuck[i..], dfs, running.Keys, end)
      requires SameResults(start.results, results, running.Keys)
      modifies this`running, this`pendingRestarts, this`store, this`sent, this`results, this`archived
      ensures GivenUp(before, stuck, i + 1, start, env)
      ensures DueTo(Histories(results, archived), stuck[i + 1..], dfs, running.Keys, end)
      ensures SameResults(start.results, results, running.Keys)
    {
      assert Open(1);
      var u := stuck[i];
      assert u !in stuck[..i] && stuck[..i + 1] == stuck[..i] + [u];
      assert SlotOf(u) == before[u];
      FailOne(stuck, i, dfs, start, end, env);
      forall v
        ensures v in before && if v in stuck[..i + 1] then GaveUp(v, before[v], Lookup(start.results.items, v), env, SlotOf(v))
                               else SlotOf(v) == before[v]
      {
      }
    }

    method FailOne(stuck: seq<DataflowId>, i: nat, ghost dfs: map<DataflowId, Dataflow>,
                   ghost start: Histories, ghost end: Histories, env: Env)
      requires i < |stuck| && stuck[i] in running && stuck[i] in dfs && running[stuck[i]] == dfs[stuck[i]]
      requires DueTo(Histories(results, archived), stuck[i..], dfs, running.Keys, end)
      requires SameResults(start.results, results, running.Keys)
      modifies this`running, this`pendingRestarts, this`store, this`sent, this`results, this`archived
      ensures GaveUp(stuck[i], old(SlotOf(stuck[i])), Lookup(start.results.items, stuck[i]), env, SlotOf(stuck[i]))
      ensures Only(stuck[i])
      ensures DueTo(Histories(results, archived), stuck[i + 1..], dfs, running.Keys, end)
      ensures SameResults(start.results, results, running.Keys)
    {
      ghost var next := TearDownOne(Histories(results, archived), stuck, i, dfs, running.Keys, end);
      SameResultsNext(start.results, results, stuck[i], dfs[stuck[i]], running.Keys);
      FailSpawnOf(stuck[i], env);
      assert Histories(results, archived) == next;
    }

    /** Fails the given spawns, one after the other. */
    method FailAll(stuck: seq<DataflowId>, env: Env)
      requires Distinct(stuck) && forall u :: u in stuck ==> u in running
      modifies this`running, this`pendingRestarts, this`store, this`sent, this`results, this`archived
      ensures forall u :: u !in stuck ==> SlotOf(u) == old(SlotOf(u))
      ensures forall u :: u in stuck ==> GaveUp(u, old(SlotOf(u)), Lookup(old(results).items, u), env, SlotOf(u))
      ensures DueTo(Histories(old(results), old(archived)), stuck, old(running), old(running).Keys,
                    Histories(results, archived))
    {
      ghost var before := imap u: DataflowId | true :: SlotOf(u);
      ghost var dfs, start := running, Histories(results, archived);
      ghost var end := TornDown(start, stuck, dfs, dfs.Keys);
      var i := 0;
      assert stuck[0..] == stuck && stuck[..0] == [];
      while i < |stuck|
        invariant 0 <= i <= |stuck| && GivenUp(before, stuck, i, start, env)
        invariant SameResults(start.results, results, running.Keys)
        invariant DueTo(Histories(results, archived), stuck[i..], dfs, running.Keys, end)
      {
        FailNext(stuck, i, before, dfs, start, end, env);
        i := i + 1;
      }
      NothingDue(Histories(results, archived), dfs, running.Keys, end);
      assert stuck[..|stuck|] == stuck;
      assert Open(1);
    }

    /** The spawn watchdog: first collect what is stuck, then fail each in turn. */
    method CheckSpawnTimeouts(order: seq<DataflowId>, env: Env)
      requires Distinct(order) && forall u :: u in running ==> u in order
      modifies this`running, this`pendingRestarts, this`store, this`sent, this`results, this`archived
      ensures forall u :: SlotOf(u) == SpawnTimeoutSlot(old(SlotOf(u)),
                            FailedResults(old(SlotOf(u)), Lookup(old(results).items, u)), env.now, Durable(env, u))
      ensures results == TearDownResults(old(results), StuckIn(order, old(running), env.now), old(running),
                                         old(running).Keys)
      ensures archived == TearDownArchive(old(archived), StuckIn(order, old(running), env.now), old(running))
    {
      var stuck := CollectStuck(order, env.now);
      StuckDistinct(order, running, env.now);
      FailAll(stuck, env);
      assert Open(0);
    }

    /** Records that nobody reclaimed in time fail for good. */
    method SweepRecoveries(env: Env)
      modifies this`store
      ensures store == if env.listable then Swept(old(store), {}, env) else old(store)
      ensures forall u :: SlotOf(u) == RecoveryTimeoutSlot(old(SlotOf(u)), env.now, env.listable && Durable(env, u))
    {
      if env.listable {
        ghost var before := store;
        var todo := store.Keys;
        assert store == Swept(before, todo, env);
        while todo != {}
          invariant todo <= before.Keys && store == Swept(before, todo, env)
        {
          var u :| u in todo;
          var r := store[u];
          if r.status == Recovering && Elapsed(env.now, r.updatedAt) > RECOVERY_TIMEOUT && u !in env.lostWrites {
            store := store[u := r.(status := Failed(true), generation := r.generation + 1, updatedAt := env.now)];
          }
          todo := todo - {u};
        }
      }
    }

    lemma LiveIdsAreRunning()
      requires Valid()
      ensures LiveIds(View()) == running.Keys
    {
      forall u
        ensures u in LiveIds(View()) <==> u in running
      {
        assert u !in known ==> SlotOf(u) == EMPTY_SLOT;
      }
    }

    lemma RunningAfterDisconnect(s: State, lost: set<DaemonId>, env: Env)
      requires forall u :: SlotOf(u) == DisconnectSlot(At(s, u), lost, env.now, Readable(env, u), Durable(env, u))
      ensures running == AfterDisconnect(s, lost, env)
    {
      var after := AfterDisconnect(s, lost, env);
      forall u
        ensures u in running <==> u in after
        ensures u in running ==> running[u] == after[u]
      {
        assert SlotOf(u) == DisconnectSlot(At(s, u), lost, env.now, Readable(env, u), Durable(env, u));
      }
    }

    /** The connection half of a tick. */
    method LoseDaemons(sends: map<DaemonId, SendOutcome>, env: Env) returns (lost: set<DaemonId>)
      modifies this`connections, this`running, this`pendingRestarts, this`store, this`sent
      ensures lost == TickLost(old(connections), sends, env.now)
      ensures connections == TickConns(old(connections), sends, env.now)
      ensures forall u :: SlotOf(u) == DisconnectSlot(old(SlotOf(u)), lost, env.now, Readable(env, u), Durable(env, u))
    {
      lost := CheckHeartbeats(sends, env.now);
      if lost != {} {
        Disconnect(lost, env);
      }
    }

    /** The watchdog half of a tick. */
    method RunWatchdogs(order: seq<DataflowId>, env: Env)
      requires Distinct(order) && forall u :: u in running ==> u in order
      modifies this`running, this`pendingRestarts, this`store, this`sent, this`results, this`archived
      ensures forall u :: SlotOf(u) ==
                RecoveryTimeoutSlot(
                  SpawnTimeoutSlot(old(SlotOf(u)), FailedResults(old(SlotOf(u)), Lookup(old(results).items, u)),
                                   env.now, Durable(env, u)),
                  env.now, env.listable && Durable(env, u))
      ensures results == TearDownResults(old(results), StuckIn(order, old(running), env.now), old(running),
                                         old(running).Keys)
      ensures archived == TearDownArchive(old(archived), StuckIn(order, old(running), env.now), old(running))
    {
      CheckSpawnTimeouts(order, env);
      SweepRecoveries(env);
    }

    method OnTick(sends: map<DaemonId, SendOutcome>, order: seq<DataflowId>, env: Env)
      requires Valid() && Distinct(order) && forall u :: u in order <==> u in running
      modifies this`connections, this`running, this`pendingRestarts, this`store, this`sent, this`results, this`archived
      ensures connections == TickConns(old(connections), sends, env.now)
      ensures forall u :: TickShare(u, old(SlotOf(u)), Lookup(old(results).items, u),
                                    TickLost(old(connections), sends, env.now), env, SlotOf(u))
      ensures var dfs := AfterDisconnect(old(View()), TickLost(old(connections), sends, env.now), env);
              DueTo(Histories(old(results), old(archived)), StuckIn(order, dfs, env.now), dfs, dfs.Keys,
                    Histories(results, archived))
    {
      ghost var s := Snapshot();
      var lost := LoseDaemons(sends, env);
      RunningAfterDisconnect(s, lost, env);
      RunWatchdogs(order, env);
    }

    method HandleTick(sends: map<DaemonId, SendOutcome>, order: seq<DataflowId>, env: Env)
      requires Valid() && Distinct(order) && forall u :: u in order <==> u in running
      modifies this
      ensures Valid() && Next(old(View()), Tick(sends, order, env), View())
    {
      ghost var s := Snapshot();
      ghost var e := Tick(sends, order, env);
      OnTick(sends, order, env);
      TickRest(s, sends, order, env, Histories(results, archived));
      forall u
        ensures Moves(s, e, u, SlotOf(u))
      {
        TickMoves(s, sends, order, env, u, SlotOf(u));
      }
      TakesStep(s, e);
    }

    // ----- dataflow events -------------------------------------------------

    method OnReady(u: DataflowId, d: DaemonId, exited: seq<NodeId>, env: Env)
      modifies this`running, this`store, this`sent
      ensures SlotOf(u) == ReadySlot(old(SlotOf(u)), d, exited, env.now, Readable(env, u), Durable(env, u)) && Only(u)
    {
      if u in running {
        running := running[u := running[u].(pendingDaemons := running[u].pendingDaemons - {d},
                                            exited := running[u].exited + exited)];
        if running[u].pendingDaemons == {} {
          BroadcastAllNodesReady(u, env);
        }
      }
    }

    method HandleReady(u: DataflowId, d: DaemonId, exited: seq<NodeId>, env: Env)
      requires Valid()
      modifies this
      ensures Valid() && Next(old(View()), Ready(u, d, exited, env), View())
    {
      ghost var s := Snapshot();
      OnReady(u, d, exited, env);
      known := known + {u};
      ReadyEffect(s, u, d, exited, env);
      TakesStepAt(s, Ready(u, d, exited, env), u);
    }

    /** A daemon reports how its part of the spawn went. */
    method OnSpawnReport(u: DataflowId, d: DaemonId, ok: bool, env: Env)
      modifies this`running, this`pendingRestarts, this`store, this`sent, this`results, this`archived
      ensures SlotOf(u) == SpawnResultSlot(old(SlotOf(u)), d, ok, u in old(archived).items,
                                           FailedResults(old(SlotOf(u)), Lookup(old(results).items, u)),
                                           env.now, Durable(env, u))
      ensures Only(u)
      ensures SpawnFails(old(SlotOf(u)), ok) ==>
                && results == RecordFailure(old(results), u, old(running)[u], old(running).Keys)
                && archived == Archive(old(archived), u, old(running)[u].name)
      ensures !SpawnFails(old(SlotOf(u)), ok) ==> results == old(results) && archived == old(archived)
    {
      if u in running {
        var df := running[u].(pendingSpawn := running[u].pendingSpawn - {d});
        SameSynthetic(running[u], df);
        running := running[u := df];
        assert running.Keys == old(running).Keys;
        if df.spawn.SpawnPending? {
          if !ok {
            FailSpawnOf(u, env);
          } else if df.pendingSpawn == {} {
            running := running[u := df.(spawn := SpawnOk)];
            ReplyAll(u, df.spawn.waiters, Spawned);
            PutRecord(u, Running, env);
          }
        }
      } else if ok && u in archived.items {
        Send(u, Rollback({d}));
      }
    }

    method HandleSpawnReport(u: DataflowId, d: DaemonId, ok: bool, env: Env)
      requires Valid()
      modifies this
      ensures Valid() && Next(old(View()), SpawnReport(u, d, ok, env), View())
    {
      ghost var s := Snapshot();
      LiveIdsAreRunning();
      OnSpawnReport(u, d, ok, env);
      known := known + {u};
      SpawnReportEffect(s, u, d, ok, env);
      TakesStepAt(s, SpawnReport(u, d, ok, env), u);
    }

    method OnWaitForSpawn(u: DataflowId, caller: Caller)
      modifies this`running, this`sent
      ensures SlotOf(u) == WaitForSpawnSlot(old(SlotOf(u)), caller) && Only(u)
    {
      if u !in running {
        Send(u, Answered(caller, UnknownDataflow));
      } else {
        match running[u].spawn {
          case SpawnPending(waiters) =>
            running := running[u := running[u].(spawn := SpawnPending(waiters + [caller]))];
          case SpawnOk => Send(u, Answered(caller, Spawned));
          case SpawnErr => Send(u, Answered(caller, SpawnFailed));
        }
      }
    }

    method HandleWaitForSpawn(u: DataflowId, caller: Caller)
      requires Valid()
      modifies this
      ensures Valid() && Next(old(View()), WaitForSpawn(u, caller), View())
    {
      ghost var s := Snapshot();
      OnWaitForSpawn(u, caller);
      known := known + {u};
      WaitForSpawnEffect(s, u, caller);
      TakesStepAt(s, WaitForSpawn(u, caller), u);
    }

    // ----- finish ----------------------------------------------------------

    /** Starts `p` as a new dataflow, persisted as Pending. */
    method Launch(p: Placement, name: Option<string>, descriptor: Descriptor, uv: bool, env: Env)
      modifies this`running, this`store
      ensures SlotOf(p.uuid) == StartSlot(old(SlotOf(p.uuid)), p, name, descriptor, uv, env.now, Durable(env, p.uuid))
      ensures Only(p.uuid) && running.Keys == old(running).Keys + {p.uuid}
    {
      running := running[p.uuid := NewDataflow(p, name, descriptor, uv, env.now)];
      PutRecord(p.uuid, Pending, env);
    }

    /** Carries out a deferred restart, if one waits for `u`. */
    method CompleteRestart(u: DataflowId, started: Option<Placement>, env: Env)
      requires u !in running && (started.Some? ==> started.value.uuid != u && started.value.uuid !in running)
      modifies this`running, this`pendingRestarts, this`store, this`sent
      ensures SlotOf(u) == Emit(old(SlotOf(u)).(restart := None), RestartOutcome(old(SlotOf(u)).restart, started))
      ensures old(SlotOf(u)).restart.Some? && started.Some? ==>
                && SlotOf(started.value.uuid) == StartSlot(old(SlotOf(started.value.uuid)), started.value,
                     old(SlotOf(u)).restart.value.name, old(SlotOf(u)).restart.value.descriptor,
                     old(SlotOf(u)).restart.value.uv, env.now, Durable(env, started.value.uuid))
                && running.Keys == old(running).Keys + {started.value.uuid}
      ensures old(SlotOf(u)).restart.None? || started.None? ==> running == old(running) && store == old(store)
      ensures forall v :: v != u && (started.None? || v != started.value.uuid || old(SlotOf(u)).restart.None?) ==>
                SlotOf(v) == old(SlotOf(v))
    {
      if u in pendingRestarts {
        var restart := pendingRestarts[u];
        pendingRestarts := pendingRestarts - {u};
        if started.Some? {
          Launch(started.value, restart.name, restart.descriptor, restart.uv, env);
          Send(u, Answered(restart.caller, RestartedAs(started.value.uuid)));
        } else {
          Send(u, Answered(restart.caller, RestartFailed));
        }
      } else {
        assert old(SlotOf(u)).out + [] == old(SlotOf(u)).out;
      }
    }

    /** Persists the final record of a dataflow that already left the live map. */
    method PutFinalRecord(u: DataflowId, df: Dataflow, status: Status, env: Env)
      requires u !in running
      modifies this`store
      ensures SlotOf(u) == Persist(old(SlotOf(u)), df, status, env.now, Durable(env, u)).(live := None) && Only(u)
    {
      if u !in env.lostWrites {
        store := store[u := MakeRecord(df.(generation := df.generation + 1), status, env.now)];
      }
    }

    /** Persists the verdict and answers everyone who waits for the dataflow. */
    method CloseFinished(u: DataflowId, df: Dataflow, collected: Results, env: Env)
      requires u !in running
      modifies this`store, this`sent
      ensures SlotOf(u) == Emit(Persist(old(SlotOf(u)), df, Verdict(collected), env.now, Durable(env, u)).(live := None),
                                Reply(df.stopWaiters, Stopped(collected)) + Reply(SpawnWaiters(df.spawn), SpawnFailed))
      ensures Only(u)
    {
      PutFinalRecord(u, df, Verdict(collected), env);
      ReplyAll(u, df.stopWaiters, Stopped(collected));
      ReplyAll(u, SpawnWaiters(df.spawn), SpawnFailed);
    }

    /** The last daemon of `u` finished: carry out a deferred restart, persist the verdict
        and answer everyone who waits. */
    method Retire(u: DataflowId, collected: Results, started: Option<Placement>, env: Env)
      requires u in running && running[u].daemons == {}
      requires started.Some? ==> started.value.uuid != u && started.value.uuid !in running
      modifies this`running, this`pendingRestarts, this`store, this`sent
      ensures forall v :: FinishShare(v, old(SlotOf(v)), u, old(SlotOf(u)), DaemonId(None, 0), collected, started, env,
                                      SlotOf(v))
      ensures running.Keys == FinishLive(old(running).Keys, old(SlotOf(u)), u, DaemonId(None, 0), started)
    {
      var df := running[u];
      assert df.(daemons := df.daemons - {DaemonId(None, 0)}) == df;
      running := running - {u};
      CompleteRestart(u, started, env);
      CloseFinished(u, df, collected, env);
    }

    /** Adds one daemon's result; late results of an archived dataflow are merged. */
    method AddResult(u: DataflowId, d: DaemonId, result: DaemonResult)
      requires Valid()
      modifies this`results
      ensures results == FinishedResults(old(View()), u, d, result)
    {
      var prior: Results := if u in results.items then results.items[u] else map[];
      if u in running {
        results := results.Put(u, prior[d := result]);
      } else if u in archived.items {
        results := results.Put(u, prior[d := (if d in prior then prior[d] else map[]) + result]);
      }
    }

    /** Removes the daemon, and retires the dataflow when it was the last one. */
    method FinishOn(u: DataflowId, d: DaemonId, started: Option<Placement>, env: Env)
      requires u in running ==> u in results.items
      requires started.Some? ==> started.value.uuid !in running
      modifies this`running, this`pendingRestarts, this`store, this`sent, this`archived
      ensures forall v :: FinishShare(v, old(SlotOf(v)), u, old(SlotOf(u)), d, KnownResults(Lookup(results.items, u)),
                                      started, env, SlotOf(v))
      ensures running.Keys == FinishLive(old(running).Keys, old(SlotOf(u)), u, d, started)
      ensures archived == FinishArchive(old(archived), old(SlotOf(u)), u, d)
    {
      if u in running {
        running := running[u := running[u].(daemons := running[u].daemons - {d})];
        assert running.Keys == old(running).Keys;
        if running[u].daemons == {} {
          label last:
          ArchiveDataflow(u, running[u].name);
          Retire(u, results.items[u], started, env);
          forall v
            ensures FinishShare(v, old(SlotOf(v)), u, old(SlotOf(u)), d, results.items[u], started, env, SlotOf(v))
          {
            FinishShareLast(v, old(SlotOf(v)), old@last(SlotOf(v)), u, old(SlotOf(u)), d, results.items[u], started, env,
                            SlotOf(v));
          }
        }
      }
    }

    method OnFinished(u: DataflowId, d: DaemonId, result: DaemonResult, started: Option<Placement>, env: Env)
      returns (collected: Results)
      requires Valid() && (started.Some? ==> started.value.uuid !in running)
      modifies this`running, this`pendingRestarts, this`store, this`sent, this`results, this`archived
      ensures u in old(running) ==> collected == KnownResults(Lookup(old(results).items, u))[d := result]
      ensures forall v :: FinishShare(v, old(SlotOf(v)), u, old(SlotOf(u)), d, collected, started, env, SlotOf(v))
      ensures running.Keys == FinishLive(old(running).Keys, old(SlotOf(u)), u, d, started)
      ensures archived == FinishArchive(old(archived), old(SlotOf(u)), u, d)
      ensures results == FinishedResults(old(View()), u, d, result).DropOldestExcept(MAX_DATAFLOW_RESULTS, running.Keys)
    {
      AddResult(u, d, result);
      collected := KnownResults(Lookup(results.items, u));
      FinishOn(u, d, started, env);
      CapResults();
    }

    method HandleFinished(u: DataflowId, d: DaemonId, result: DaemonResult, started: Option<Placement>, env: Env)
      requires Valid() && (started.Some? ==> started.value.uuid !in known)
      modifies this
      ensures Valid() && Next(old(View()), Finished(u, d, result, started, env), View())
    {
      ghost var s := Snapshot();
      ghost var e := Finished(u, d, result, started, env);
      LiveIdsAreRunning();
      var collected := OnFinished(u, d, result, started, env);
      known := known + ReplacementOf(s, e);
      FinishedRest(s, u, d, result, started, env, Histories(results, archived), running.Keys);
      forall v
        ensures Moves(s, e, v, SlotOf(v))
      {
        FinishedMoves(s, u, d, result, started, env, v, collected, SlotOf(v));
      }
      TakesStep(s, e);
    }

    // ----- status reports --------------------------------------------------

    method StopOrphanOn(u: DataflowId, d: DaemonId)
      modifies this`sent
      ensures SlotOf(u) == StopOrphanSlot(old(SlotOf(u)), d, d in connections) && Only(u)
    {
      if d in connections {
        Send(u, StopOrphan(d));
      }
    }

    method AssignNodes(homes: map<NodeId, DaemonId>, d: DaemonId, nodes: seq<NodeId>)
      returns (r: map<NodeId, DaemonId>)
      ensures r == homes + map n | n in nodes :: d
    {
      r := homes;
      var i := 0;
      while i < |nodes|
        invariant 0 <= i <= |nodes| && r == homes + map n | n in nodes[..i] :: d
      {
        assert nodes[..i + 1] == nodes[..i] + [nodes[i]];
        r := r[nodes[i] := d];
        i := i + 1;
      }
      assert nodes[..|nodes|] == nodes;
    }

    /** Relinks or rebuilds the live entry, and replays a barrier the daemon missed. */
    method ReestablishRunning(u: DataflowId, r: Record, d: DaemonId, nodes: seq<NodeId>, now: Millis)
      modifies this`running, this`sent
      ensures SlotOf(u) == Reestablish(old(SlotOf(u)), r, d, nodes, d in connections, now) && Only(u)
    {
      if u in running {
        var df := running[u];
        var homes := AssignNodes(df.nodeToDaemon, d, nodes);
        running := running[u := df.(daemons := df.daemons + {d}, pendingDaemons := df.pendingDaemons - {d},
                                    pendingSpawn := df.pendingSpawn - {d}, nodeToDaemon := homes)];
      } else if r.descriptor.resolves {
        running := running[u := Recovered(r, d, nodes, now)];
      } else {
        return;
      }
      if running[u].barrierReleased && d in connections {
        Send(u, BarrierReplay(d, running[u].exited));
      }
    }

    method ReconcileEntry(d: DaemonId, entry: StatusEntry, env: Env)
      modifies this`running, this`store, this`sent
      ensures SlotOf(entry.uuid) == ReconcileSlot(old(SlotOf(entry.uuid)), d, entry.nodes, entry.uuid in archived.items,
                                                  d in connections, env.now, Readable(env, entry.uuid),
                                                  Durable(env, entry.uuid))
      ensures Only(entry.uuid)
    {
      var u := entry.uuid;
      if u in archived.items {
        StopOrphanOn(u, d);
      } else if u !in env.unreadable && u in store {
        var r := store[u];
        if Promotable(r.status) {
          r := r.(status := Running, generation := r.generation + 1, updatedAt := env.now);
          if u !in env.lostWrites {
            store := store[u := r];
          }
          ReestablishRunning(u, r, d, entry.nodes, env.now);
        } else if r.status == Running {
          ReestablishRunning(u, r, d, entry.nodes, env.now);
        } else if ShouldStopOrphan(r.status) {
          StopOrphanOn(u, d);
        }
      }
    }

    /** Reconciles every entry of a report, in order. */
    method ReconcileReport(d: DaemonId, entries: seq<StatusEntry>, env: Env)
      modifies this`running, this`store, this`sent
      ensures forall u :: Reconciled(u, old(SlotOf(u)), d, entries, u in archived.items, d in connections, env, SlotOf(u))
    {
      var i := 0;
      while i < |entries|
        invariant 0 <= i <= |entries|
        invariant forall u ::
                    Reconciled(u, old(SlotOf(u)), d, entries[..i], u in archived.items, d in connections, env, SlotOf(u))
      {
        label before:
        ReconcileEntry(d, entries[i], env);
        forall u
          ensures Reconciled(u, old(SlotOf(u)), d, entries[..i + 1], u in archived.items, d in connections, env, SlotOf(u))
        {
          ReconciledNext(u, old(SlotOf(u)), d, entries, i, u in archived.items, d in connections, env,
                         old@before(SlotOf(u)), SlotOf(u));
        }
        i := i + 1;
      }
      assert entries[..|entries|] == entries;
    }

    method CollectReported(entries: seq<StatusEntry>) returns (reported: set<DataflowId>)
      ensures forall u :: u in reported <==> Reports(entries, u)
    {
      reported := {};
      var i := 0;
      while i < |entries|
        invariant 0 <= i <= |entries|
        invariant forall u :: u in reported <==> exists k :: 0 <= k < i && entries[k].uuid == u
      {
        reported := reported + {entries[i].uuid};
        i := i + 1;
      }
    }

    method NodesAssigned(df: Dataflow, d: DaemonId) returns (nodes: set<NodeId>)
      ensures nodes == NodesOn(df, d)
    {
      nodes := {};
      var todo := df.nodeToDaemon.Keys;
      while todo != {}
        invariant todo <= df.nodeToDaemon.Keys
        invariant nodes == set n | n in df.nodeToDaemon.Keys - todo && df.nodeToDaemon[n] == d
      {
        var n :| n in todo;
        if df.nodeToDaemon[n] == d {
          nodes := nodes + {n};
        }
        todo := todo - {n};
      }
    }

    /** Auto-recovery of one live dataflow. */
    method RecoverOne(u: DataflowId, d: DaemonId, reported: bool, now: Millis)
      requires u in running
      modifies this`running, this`sent
      ensures SlotOf(u) == AutoRecoverSlot(old(SlotOf(u)), d, reported, d in connections, now) && Only(u)
      ensures running.Keys == old(running).Keys
    {
      var df := running[u];
      if d !in df.daemons {
        return;
      }
      if reported {
        running := running[u := df.(lastRecovery := df.lastRecovery - {d})];
        return;
      }
      if d in df.lastRecovery && Elapsed(now, df.lastRecovery[d]) < RECOVERY_BACKOFF {
        return;
      }
      if d in df.pendingSpawn || df.spawn.SpawnErr? {
        return;
      }
      var nodes := NodesAssigned(df, d);
      if nodes != {} {
        running := running[u := df.(lastRecovery := df.lastRecovery[d := now])];
        assert old(SlotOf(u)).out + [] == old(SlotOf(u)).out;
        if d in connections {
          Send(u, Respawn(d, nodes, now));
        }
      }
    }

    /** Auto-recovery of every live dataflow that should run on the reporting daemon. */
    method AutoRecover(d: DaemonId, reported: set<DataflowId>, now: Millis)
      modifies this`running, this`sent
      ensures forall u :: SlotOf(u) == AutoRecoverSlot(old(SlotOf(u)), d, u in reported, d in connections, now)
    {
      var todo := running.Keys;
      while todo != {}
        invariant todo <= old(running).Keys == running.Keys
        invariant forall u :: u in todo ==> SlotOf(u) == old(SlotOf(u))
        invariant forall u :: u !in todo ==>
                    SlotOf(u) == AutoRecoverSlot(old(SlotOf(u)), d, u in reported, d in connections, now)
      {
        var u :| u in todo;
        RecoverOne(u, d, u in reported, now);
        todo := todo - {u};
      }
    }

    method HandleReport(d: DaemonId, entries: seq<StatusEntry>, env: Env)
      requires Valid()
      modifies this
      ensures Valid() && Next(old(View()), Report(d, entries, env), View())
    {
      ghost var s := Snapshot();
      ghost var e := Report(d, entries, env);
      ReconcileReport(d, entries, env);
      label reconciled:
      var reported := CollectReported(entries);
      AutoRecover(d, reported, env.now);
      known := known + EntryIds(entries);
      forall u
        ensures Moves(s, e, u, SlotOf(u))
      {
        ReportMoves(s, d, entries, env, u, old@reconciled(SlotOf(u)), SlotOf(u));
      }
      ReportRest(s, e);
      TakesStep(s, e);
    }

    // ----- control requests ------------------------------------------------

    method OnStop(u: DataflowId, caller: Caller, acks: set<DaemonId>, env: Env)
      modifies this`running, this`pendingRestarts, this`store, this`sent
      ensures SlotOf(u) == StopSlot(old(SlotOf(u)), caller, acks, Lookup(results.items, u), env.now, Durable(env, u))
      ensures Only(u)
    {
      CancelPendingRestart(u, StoppedFirst);
      if u !in running {
        Send(u, Answered(caller, if u in results.items then Stopped(results.items[u]) else UnknownDataflow));
      } else if !(running[u].daemons <= acks) {
        Send(u, Answered(caller, StopRejected));
      } else {
        running := running[u := running[u].(stopWaiters := running[u].stopWaiters + [caller])];
        PutRecord(u, Stopping, env);
      }
    }

    method OnRestart(u: DataflowId, caller: Caller, acks: set<DaemonId>, env: Env)
      modifies this`running, this`pendingRestarts, this`store, this`sent
      ensures SlotOf(u) == RestartSlot(old(SlotOf(u)), caller, acks, env.now, Durable(env, u)) && Only(u)
    {
      if u in pendingRestarts {
        Send(u, Answered(caller, AlreadyRestarting));
      } else if u !in running {
        Send(u, Answered(caller, UnknownDataflow));
      } else if !(running[u].daemons <= acks) {
        Send(u, Answered(caller, StopRejected));
      } else {
        var df := running[u];
        PutRecord(u, Stopping, env);
        pendingRestarts := pendingRestarts[u := Restart(df.descriptor, df.name, df.uv, caller)];
      }
    }

    /** A stop request that was resolved to `u`. */
    method StopResolved(u: DataflowId, e: Event)
      requires Valid() && (e.StopReq? || e.StopByName?) && Targets(View(), e, Some(u))
      modifies this
      ensures Valid() && Next(old(View()), e, View())
    {
      ghost var s := Snapshot();
      OnStop(u, e.caller, e.acks, e.env);
      known := known + {u};
      StopEffect(s, e, u);
      TakesStepAt(s, e, u);
    }

    /** A restart request that was resolved to `u`. */
    method RestartResolved(u: DataflowId, e: Event)
      requires Valid() && (e.RestartReq? || e.RestartByName?) && Targets(View(), e, Some(u))
      modifies this
      ensures Valid() && Next(old(View()), e, View())
    {
      ghost var s := Snapshot();
      OnRestart(u, e.caller, e.acks, e.env);
      known := known + {u};
      RestartEffect(s, e, u);
      TakesStepAt(s, e, u);
    }

    /** A request that reached no dataflow. */
    method Refuse(e: Event)
      requires Valid() && (e.StopByName? || e.RestartByName? || e.StartReq?) && Targets(View(), e, None)
      modifies this
      ensures Valid() && Next(old(View()), e, View())
    {
      ghost var s := Snapshot();
      rejected := rejected + [e.caller];
      TakesRefusal(s, e);
    }

    method HandleStop(u: DataflowId, caller: Caller, acks: set<DaemonId>, env: Env)
      requires Valid()
      modifies this
      ensures Valid() && Next(old(View()), StopReq(u, caller, acks, env), View())
    {
      StopResolved(u, StopReq(u, caller, acks, env));
    }

    method HandleRestart(u: DataflowId, caller: Caller, acks: set<DaemonId>, env: Env)
      requires Valid()
      modifies this
      ensures Valid() && Next(old(View()), RestartReq(u, caller, acks, env), View())
    {
      RestartResolved(u, RestartReq(u, caller, acks, env));
    }

    /** The live dataflows with the given name. */
    method NamedLive(name: string) returns (ids: set<DataflowId>)
      ensures ids == set u | u in running && running[u].name == Some(name)
    {
      ids := {};
      var todo := running.Keys;
      while todo != {}
        invariant todo <= running.Keys
        invariant ids == set u | u in running.Keys - todo && running[u].name == Some(name)
      {
        var u :| u in todo;
        if running[u].name == Some(name) {
          ids := ids + {u};
        }
        todo := todo - {u};
      }
    }

    method NamedArchived(name: string) returns (ids: set<DataflowId>)
      ensures ids == set u | u in archived.items && archived.items[u] == Some(name)
    {
      ids := {};
      var todo := archived.items.Keys;
      while todo != {}
        invariant todo <= archived.items.Keys
        invariant ids == set u | u in archived.items.Keys - todo && archived.items[u] == Some(name)
      {
        var u :| u in todo;
        if archived.items[u] == Some(name) {
          ids := ids + {u};
        }
        todo := todo - {u};
      }
    }

    lemma NamedIs(name: string)
      requires Valid()
      ensures Named(View(), name) == set u | u in running && running[u].name == Some(name)
    {
      forall u
        ensures u in Named(View(), name) <==> u in running && running[u].name == Some(name)
      {
        assert u !in known ==> SlotOf(u) == EMPTY_SLOT;
      }
    }

    /** A name is looked up among live dataflows first, then in the archive, and must be
        unambiguous there. */
    method Resolve(name: string) returns (r: Option<DataflowId>)
      requires Valid()
      ensures r == ResolveName(View(), name)
    {
      NamedIs(name);
      var ids := NamedLive(name);
      if ids == {} {
        ids := NamedArchived(name);
        assert ids == ArchivedAs(View(), name);
      }
      if |ids| == 1 {
        var u :| u in ids;
        assert TheOnly(ids).Some?;
        return Some(u);
      }
      return None;
    }

    method FindTarget(name: string, ghost e: Event) returns (r: Option<DataflowId>)
      requires Valid() && (e.StopByName? || e.RestartByName?) && e.wanted == name
      ensures Targets(View(), e, r)
    {
      r := Resolve(name);
    }

    /** A start goes ahead if its name is free and the nodes could be placed. */
    method CheckStart(name: Option<string>, started: Option<Placement>, ghost e: Event) returns (ok: bool)
      requires Valid() && e.StartReq? && e.name == name && e.started == started
      ensures ok ==> started.Some?
      ensures Targets(View(), e, if ok then Some(started.value.uuid) else None)
    {
      ok := started.Some?;
      if name.Some? {
        NamedIs(name.value);
        var ids := NamedLive(name.value);
        ok := ok && ids == {};
      }
    }

    method HandleStopByName(name: string, caller: Caller, acks: set<DaemonId>, env: Env)
      requires Valid()
      modifies this
      ensures Valid() && Next(old(View()), StopByName(name, caller, acks, env), View())
    {
      var e := StopByName(name, caller, acks, env);
      var target := FindTarget(name, e);
      if target.Some? {
        StopResolved(target.value, e);
      } else {
        Refuse(e);
      }
    }

    method HandleRestartByName(name: string, caller: Caller, acks: set<DaemonId>, env: Env)
      requires Valid()
      modifies this
      ensures Valid() && Next(old(View()), RestartByName(name, caller, acks, env), View())
    {
      var e := RestartByName(name, caller, acks, env);
      var target := FindTarget(name, e);
      if target.Some? {
        RestartResolved(target.value, e);
      } else {
        Refuse(e);
      }
    }

    method OnStart(caller: Caller, name: Option<string>, descriptor: Descriptor, uv: bool, p: Placement, env: Env)
      modifies this`running, this`store, this`sent
      ensures SlotOf(p.uuid) == Emit(StartSlot(old(SlotOf(p.uuid)), p, name, descriptor, uv, env.now, Durable(env, p.uuid)),
                                     [Answered(caller, StartTriggered)])
      ensures Only(p.uuid)
    {
      Launch(p, name, descriptor, uv, env);
      Send(p.uuid, Answered(caller, StartTriggered));
    }

    /** A start request that goes ahead. */
    method StartResolved(e: Event)
      requires Valid() && e.StartReq? && e.started.Some? && Targets(View(), e, Some(e.started.value.uuid))
      modifies this
      ensures Valid() && Next(old(View()), e, View())
    {
      ghost var s := Snapshot();
      OnStart(e.caller, e.name, e.descriptor, e.uv, e.started.value, e.env);
      known := known + {e.started.value.uuid};
      StartEffect(s, e);
      TakesStepAt(s, e, e.started.value.uuid);
    }

    method HandleStart(caller: Caller, name: Option<string>, descriptor: Descriptor, uv: bool,
                       started: Option<Placement>, env: Env)
      requires Valid()
      modifies this
      ensures Valid() && Next(old(View()), StartReq(caller, name, descriptor, uv, started, env), View())
    {
      var e := StartReq(caller, name, descriptor, uv, started, env);
      var ok := CheckStart(name, started, e);
      if ok {
        StartResolved(e);
      } else {
        Refuse(e);
      }
    }

    // ----- clean and process restart ---------------------------------------

    /** A new coordinator process on the same store. */
    method OnBoot(env: Env)
      modifies this`connections, this`running, this`pendingRestarts, this`results, this`archived, this`store
      ensures connections == map[]
      ensures results == IndexMap([], map[]) && archived == IndexMap([], map[])
      ensures forall u :: SlotOf(u) == BootSlot(old(SlotOf(u)), env.now, env.listable, Durable(env, u))
    {
      connections, running, pendingRestarts := map[], map[], map[];
      results, archived := IndexMap([], map[]), IndexMap([], map[]);
      if env.listable {
        MarkRecovering(env);
      }
    }

    method HandleBoot(env: Env)
      requires Valid()
      modifies this
      ensures Valid() && Next(old(View()), Boot(env), View())
    {
      ghost var s := Snapshot();
      OnBoot(env);
      forall u
        ensures Moves(s, Boot(env), u, SlotOf(u))
      {
        BootMoves(s, env, u);
      }
      BootRest(s, env);
      TakesStep(s, Boot(env));
    }

    /** Startup recovery: whatever was still in flight waits for its daemons. */
    method MarkRecovering(env: Env)
      modifies this`store
      ensures store == Rebooted(old(store), {}, env)
    {
      ghost var before := store;
      var todo := store.Keys;
      assert store == Rebooted(before, todo, env);
      while todo != {}
        invariant todo <= before.Keys && store == Rebooted(before, todo, env)
      {
        var u :| u in todo;
        var r := store[u];
        if !Completed(r.status) && u !in env.lostWrites {
          store := store[u := r.(status := Recovering, generation := r.generation + 1, updatedAt := env.now)];
        }
        todo := todo - {u};
      }
    }

    /** First pass of a clean: finished dataflows of this process. */
    method FinishedInMemory() returns (candidates: seq<DataflowId>)
      requires results.Valid()
      ensures Distinct(candidates) && forall u :: u in candidates <==> u in results.items && u !in running
    {
      candidates := [];
      var i := 0;
      while i < |results.keys|
        invariant 0 <= i <= |results.keys| && Distinct(candidates)
        invariant forall u :: u in candidates <==> u in results.keys[..i] && u !in running
      {
        if results.keys[i] !in running {
          assert results.keys[i] !in results.keys[..i];
          candidates := candidates + [results.keys[i]];
        }
        i := i + 1;
      }
    }

    /** Second pass of a clean: completed records that only exist in the store. */
    method FinishedOnDisk(found: seq<DataflowId>) returns (candidates: seq<DataflowId>)
      requires Distinct(found) && forall u :: u in found <==> u in results.items && u !in running
      ensures Distinct(candidates)
      ensures forall u :: u in candidates <==> Cleanable(SlotOf(u), u in results.items)
    {
      candidates := found;
      var todo := store.Keys;
      while todo != {}
        invariant todo <= store.Keys && Distinct(candidates)
        invariant forall u :: u in candidates <==>
                    || (u in results.items && u !in running)
                    || (u in store.Keys - todo && u !in running && Completed(store[u].status))
      {
        var u :| u in todo;
        if u !in running && u !in results.items && Completed(store[u].status) {
          candidates := candidates + [u];
        }
        todo := todo - {u};
      }
    }

    /** Deletes each candidate from the store first, and from memory once that worked. */
    method Purge(candidates: seq<DataflowId>, env: Env) returns (cleaned: seq<DataflowId>, failed: seq<DataflowId>)
      requires Distinct(candidates) && results.Valid() && archived.Valid()
      modifies this`store, this`results, this`archived
      ensures Distinct(cleaned) && forall u :: u in cleaned <==> u in candidates && u !in env.lostWrites
      ensures Distinct(failed) && forall u :: u in failed <==> u in candidates && u in env.lostWrites
      ensures Purged(old(store), Histories(old(results), old(archived)), IdSet(cleaned), store,
                     Histories(results, archived))
    {
      cleaned, failed := [], [];
      PurgedNone(store, Histories(results, archived));
      var i := 0;
      while i < |candidates|
        invariant 0 <= i <= |candidates| && Distinct(cleaned) && Distinct(failed)
        invariant forall u :: u in cleaned <==> u in candidates[..i] && u !in env.lostWrites
        invariant forall u :: u in failed <==> u in candidates[..i] && u in env.lostWrites
        invariant Purged(old(store), Histories(old(results), old(archived)), IdSet(cleaned), store,
                         Histories(results, archived))
      {
        var u := candidates[i];
        assert u !in candidates[..i];
        if u in env.lostWrites {
          failed := failed + [u];
        } else {
          PurgedOneMore(old(store), Histories(old(results), old(archived)), cleaned, u, store,
                        Histories(results, archived));
          store := store - {u};
          results := results.Remove(u);
          archived := archived.Remove(u);
          cleaned := cleaned + [u];
        }
        i := i + 1;
      }
    }

    method OnClean(env: Env) returns (cleaned: seq<DataflowId>, failed: seq<DataflowId>)
      requires results.Valid() && archived.Valid()
      modifies this`store, this`results, this`archived
      ensures Distinct(cleaned) && Distinct(failed)
      ensures forall u :: u in cleaned <==>
                env.listable && Cleanable(old(SlotOf(u)), u in old(results).items) && Durable(env, u)
      ensures forall u :: u in failed <==>
                env.listable && Cleanable(old(SlotOf(u)), u in old(results).items) && !Durable(env, u)
      ensures forall u :: SlotOf(u) ==
                CleanSlot(old(SlotOf(u)), u in old(results).items, env.listable && Durable(env, u))
      ensures env.listable ==> results == RemoveCleaned(old(results), IdSet(cleaned))
                               && archived == RemoveCleaned(old(archived), IdSet(cleaned))
      ensures !env.listable ==> results == old(results) && archived == old(archived)
    {
      cleaned, failed := [], [];
      if env.listable {
        var found := FinishedInMemory();
        var candidates := FinishedOnDisk(found);
        cleaned, failed := Purge(candidates, env);
        assert Open(0);
      }
    }

    /** Clean: every completed dataflow ends up in exactly one of `cleaned` and `failed`. */
    method HandleClean(env: Env) returns (cleaned: seq<DataflowId>, failed: seq<DataflowId>)
      requires Valid() && results.Valid() && archived.Valid()
      modifies this
      ensures Valid() && Next(old(View()), Clean(env), View())
      ensures Distinct(cleaned) && Distinct(failed)
      ensures IdSet(cleaned) == if env.listable then CleanedBy(old(View()), env) else {}
      ensures IdSet(failed) == if env.listable then Candidates(old(View())) * env.lostWrites else {}
    {
      ghost var s := Snapshot();
      cleaned, failed := OnClean(env);
      CleanSets(s, env, cleaned, failed);
      CleanRest(s, env);
      forall u
        ensures Moves(s, Clean(env), u, SlotOf(u))
      {
        CleanMoves(s, env, u);
      }
      TakesStep(s, Clean(env));
    }

    // ----- list ------------------------------------------------------------

    method ListRunning() returns (ids: seq<DataflowId>)
      ensures Distinct(ids) && forall u :: u in ids <==> u in running
    {
      ids := [];
      var todo := running.Keys;
      while todo != {}
        invariant todo <= running.Keys && Distinct(ids)
        invariant forall u :: u in ids <==> u in running.Keys - todo
      {
        var u :| u in todo;
        assert u !in ids;
        ids := ids + [u];
        todo := todo - {u};
      }
    }

    /** The listing: live dataflows as running, then finished ones by their results. No
        dataflow is shown twice. */
    method HandleList() returns (ids: seq<DataflowId>, shown: seq<Listed>)
      requires Valid() && results.Valid()
      ensures Distinct(ids) && |shown| == |ids|
      ensures forall u :: u in ids <==> ListStatus(View(), u) != NotListed
      ensures forall i :: 0 <= i < |ids| ==> shown[i] == ListStatus(View(), ids[i])
    {
      ghost var s := Snapshot();
      var live := ListRunning();
      var finished := FinishedInMemory();
      ids, shown := live + finished, seq(|live|, _ => ListedRunning);
      var i := 0;
      while i < |finished|
        invariant 0 <= i <= |finished| && |shown| == |live| + i
        invariant forall k :: 0 <= k < |shown| ==> shown[k] == ListStatus(s, ids[k])
      {
        assert ids[|live| + i] in finished;
        var ok := AllSucceeded(results.items[finished[i]]);
        shown := shown + [if ok then ListedFinished else ListedFailed];
        i := i + 1;
      }
    }

    // ----- the loop --------------------------------------------------------

    /** One turn of the event loop: the handler of `e` takes exactly the step of the
        specification, so it keeps the invariant. */
    method Handle(e: Event)
      requires Valid() && Inv(View()) && Enabled(View(), e)
      modifies this
      ensures Valid() && View() == Step(old(View()), e) && Inv(View())
    {
      ghost var s := Snapshot();
      Dispatch(e);
      Advances(s, e, View());
    }

    method Dispatch(e: Event)
      requires Valid() && Inv(View()) && Enabled(View(), e)
      modifies this
      ensures Valid() && Next(old(View()), e, View())
    {
      LiveIdsAreRunning();
      match e {
        case Register(machine, conn, accepted, uuid) => HandleRegister(machine, conn, accepted, uuid);
        case Heartbeat(d, env) => HandleHeartbeat(d, env);
        case Endpoint(d, connection, endpoint) => HandleEndpoint(d, connection, endpoint);
        case Exit(d, connection, env) => HandleExit(d, connection, env);
        case Tick(sends, order, env) => HandleTick(sends, order, env);
        case Report(d, entries, env) => HandleReport(d, entries, env);
        case Ready(u, d, exited, env) => HandleReady(u, d, exited, env);
        case Finished(u, d, result, started, env) => HandleFinished(u, d, result, started, env);
        case SpawnReport(u, d, ok, env) => HandleSpawnReport(u, d, ok, env);
        case WaitForSpawn(u, caller) => HandleWaitForSpawn(u, caller);
        case StartReq(caller, name, descriptor, uv, started, env) =>
          HandleStart(caller, name, descriptor, uv, started, env);
        case StopReq(u, caller, acks, env) => HandleStop(u, caller, acks, env);
        case StopByName(name, caller, acks, env) => HandleStopByName(name, caller, acks, env);
        case RestartReq(u, caller, acks, env) => HandleRestart(u, caller, acks, env);
        case RestartByName(name, caller, acks, env) => HandleRestartByName(name, caller, acks, env);
        case Clean(env) => var _, _ := HandleClean(env);
        case Boot(env) => HandleBoot(env);
      }
    }
  }
}
