/** Where the nodes of a dataflow are: where it placed them, until a daemon reports them. */
module NodeHomes {
  import opened Common
  import opened CoordinatorTypes
  import opened DataflowSlot
  import opened Coordinator
  import opened CoordinatorInvariants
  import opened ReadyBarrier
  import opened AnswerMeaning
  import opened DataflowIdentity

  /** A report names `node` as running in dataflow `u`. */
  predicate NamesNode(entries: seq<StatusEntry>, u: DataflowId, node: NodeId) {
    exists i :: 0 <= i < |entries| && entries[i].uuid == u && node in entries[i].nodes
  }

  function HomesIn(slot: Slot): map<NodeId, DaemonId> {
    if slot.live.Some? then slot.live.value.nodeToDaemon else map[]
  }

  /** The daemon of `node` after `n` events, told from the events: the one it was placed on, or
      the last that reported it since the dataflow was started or rebuilt. */
  ghost function LastClaim(states: seq<State>, events: seq<Event>, u: DataflowId, node: NodeId, n: nat): Option<DaemonId>
    requires n <= |events| && n <= |states|
  {
    if n == 0 then None
    else
      var s, e := states[n - 1], events[n - 1];
      if Starts(s, e, u) then Lookup(e.started.value.nodeToDaemon, node)
      else if e.Report? && NamesNode(e.entries, u, node) && Relinks(s, e, u, e.daemon) then Some(e.daemon)
      else if At(s, u).live.None? then None
      else LastClaim(states, events, u, node, n - 1)
  }

  // ----- one event ---------------------------------------------------------

  lemma FirstOrLaterNode(entries: seq<StatusEntry>, u: DataflowId, node: NodeId)
    requires entries != []
    ensures NamesNode(entries, u, node) <==>
              (entries[0].uuid == u && node in entries[0].nodes) || NamesNode(entries[1..], u, node)
  {
    if NamesNode(entries, u, node) && !(entries[0].uuid == u && node in entries[0].nodes) {
      var i :| 0 <= i < |entries| && entries[i].uuid == u && node in entries[i].nodes;
      assert entries[1..][i - 1].uuid == u && node in entries[1..][i - 1].nodes;
    }
  }

  lemma ReestablishHomes(slot: Slot, r: Record, d: DaemonId, nodes: seq<NodeId>, connected: bool, now: Millis,
                         node: NodeId)
    ensures Lookup(HomesIn(Reestablish(slot, r, d, nodes, connected, now)), node)
         == if node in nodes && (slot.live.Some? || r.descriptor.resolves) then Some(d) else Lookup(HomesIn(slot), node)
  {
  }

  lemma EntryHomes(slot: Slot, d: DaemonId, nodes: seq<NodeId>, archived: bool, connected: bool, now: Millis,
                   readable: bool, durable: bool, node: NodeId)
    ensures Lookup(HomesIn(ReconcileSlot(slot, d, nodes, archived, connected, now, readable, durable)), node)
         == if node in nodes && Adoptable(slot, archived, readable) then Some(d) else Lookup(HomesIn(slot), node)
  {
    if !archived && readable && slot.record.Some? {
      var r := slot.record.value;
      if Promotable(r.status) {
        var r' := r.(status := Running, generation := r.generation + 1, updatedAt := now);
        ReestablishHomes(slot.(record := if durable then Some(r') else slot.record), r', d, nodes, connected, now, node);
      } else if r.status == Running {
        ReestablishHomes(slot, r, d, nodes, connected, now, node);
      }
    }
  }

  lemma EntryKeepsAdoptable(slot: Slot, d: DaemonId, nodes: seq<NodeId>, archived: bool, connected: bool, now: Millis,
                            readable: bool, durable: bool)
    ensures Adoptable(ReconcileSlot(slot, d, nodes, archived, connected, now, readable, durable), archived, readable)
       <==> Adoptable(slot, archived, readable)
  {
  }

  lemma {:induction false} ReconcileHomes(u: DataflowId, slot: Slot, d: DaemonId, entries: seq<StatusEntry>,
                                          archived: bool, connected: bool, now: Millis, readable: bool, durable: bool,
                                          node: NodeId)
    ensures Lookup(HomesIn(ReconcileAll(u, slot, d, entries, archived, connected, now, readable, durable)), node)
         == if NamesNode(entries, u, node) && Adoptable(slot, archived, readable) then Some(d)
            else Lookup(HomesIn(slot), node)
    decreases |entries|
  {
    if entries != [] {
      var s1 := if entries[0].uuid == u
                then ReconcileSlot(slot, d, entries[0].nodes, archived, connected, now, readable, durable)
                else slot;
      EntryHomes(slot, d, entries[0].nodes, archived, connected, now, readable, durable, node);
      EntryKeepsAdoptable(slot, d, entries[0].nodes, archived, connected, now, readable, durable);
      ReconcileHomes(u, s1, d, entries[1..], archived, connected, now, readable, durable, node);
      FirstOrLaterNode(entries, u, node);
    }
  }

  lemma ReportHomes(s: State, e: Event, u: DataflowId, node: NodeId)
    requires e.Report?
    ensures Lookup(HomesIn(At(Step(s, e), u)), node)
         == if NamesNode(e.entries, u, node) && Relinks(s, e, u, e.daemon) then Some(e.daemon)
            else Lookup(HomesIn(At(s, u)), node)
  {
    StepIsPointwise(s, e, u);
    ReconcileHomes(u, At(s, u), e.daemon, e.entries, u in s.archived.items, e.daemon in s.conns, e.env.now,
                   Readable(e.env, u), Durable(e.env, u), node);
    if NamesNode(e.entries, u, node) {
      assert Reports(e.entries, u);
    }
  }

  lemma OtherHomes(u: DataflowId, slot: Slot, e: Event, x: Ctx)
    requires !Creates(u, e, x) && !e.Report? && SlotStep(u, slot, e, x).live.Some?
    ensures slot.live.Some? && SlotStep(u, slot, e, x).live.value.nodeToDaemon == slot.live.value.nodeToDaemon
  {
    if e.Tick? {
      MidTickIs(u, slot, x, e.env);
      TickEnds(u, slot, x, e.env);
    } else if e.SpawnReport? && e.uuid == u && SpawnFails(slot, e.ok) {
      var df := slot.live.value.(pendingSpawn := slot.live.value.pendingSpawn - {e.daemon});
      FailSpawnShrinks(slot, df, FailedResults(slot, x.results), e.env.now, Durable(e.env, u));
    }
  }

  // ----- over runs ---------------------------------------------------------

  /** In every run the coordinator knows each node where it was last claimed. */
  lemma {:induction false} HomeIsTheLastClaim(states: seq<State>, events: seq<Event>, u: DataflowId, node: NodeId, n: nat)
    requires IsRun(states, events) && states[0] == INITIAL && n <= |events| && At(states[n], u).live.Some?
    ensures Lookup(At(states[n], u).live.value.nodeToDaemon, node) == LastClaim(states, events, u, node, n)
  {
    var s, e := states[n - 1], events[n - 1];
    assert Steps(states, events, n - 1);
    if At(s, u).live.Some? {
      HomeIsTheLastClaim(states, events, u, node, n - 1);
    }
    HomeStep(s, e, u, node);
  }

  lemma HomeStep(s: State, e: Event, u: DataflowId, node: NodeId)
    requires Enabled(s, e) && At(Step(s, e), u).live.Some?
    ensures Lookup(At(Step(s, e), u).live.value.nodeToDaemon, node)
         == if Starts(s, e, u) then Lookup(e.started.value.nodeToDaemon, node)
            else if e.Report? && NamesNode(e.entries, u, node) && Relinks(s, e, u, e.daemon) then Some(e.daemon)
            else Lookup(HomesIn(At(s, u)), node)
  {
    if Starts(s, e, u) {
      StartHasIdentity(s, e, u);
    } else if e.Report? {
      ReportHomes(s, e, u, node);
    } else {
      StepIsPointwise(s, e, u);
      OtherHomes(u, At(s, u), e, CtxOf(s, e, u));
    }
  }

  /** What a daemon is asked to respawn is exactly what was last claimed to be on it. */
  lemma RespawnIsTheLastClaim(states: seq<State>, events: seq<Event>, u: DataflowId, n: nat, j: nat, node: NodeId)
    requires IsRun(states, events) && states[0] == INITIAL && n < |events|
    requires |At(states[n], u).out| <= j < |At(states[n + 1], u).out| && At(states[n + 1], u).out[j].Respawn?
    ensures var o := At(states[n + 1], u).out[j];
            && events[n].Report? && events[n].daemon == o.daemon && !Reports(events[n].entries, u)
            && (node in o.nodes <==> LastClaim(states, events, u, node, n) == Some(o.daemon))
  {
    assert Steps(states, events, n);
    InvRun(states, events, n);
    StepAddsTrue(states[n], events[n], u);
    var x := CtxOf(states[n], events[n], u);
    RespawnTells(u, At(states[n], u), events[n], x, At(states[n + 1], u), j);
    HomeIsTheLastClaim(states, events, u, node, n);
  }

  lemma RespawnTells(u: DataflowId, slot: Slot, e: Event, x: Ctx, slot': Slot, j: nat)
    requires AddsTrue(u, slot, e, x, slot')
    requires |slot.out| <= j < |slot'.out| && slot'.out[j].Respawn?
    ensures e.Report? && e.daemon == slot'.out[j].daemon && !Reports(e.entries, u) && slot.live.Some?
    ensures forall node :: node in slot'.out[j].nodes <==>
              Lookup(slot.live.value.nodeToDaemon, node) == Some(slot'.out[j].daemon)
  {
    var news, o := slot'.out[|slot.out|..], slot'.out[j];
    assert o == news[j - |slot.out|] && TrueMessage(u, slot, e, x, slot', o);
  }
}
