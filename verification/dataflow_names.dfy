/** Names of dataflows: what a name resolves to, and whether two live dataflows can share
    one. */
module DataflowNames {
  import opened Common
  import opened CoordinatorTypes
  import opened DataflowSlot
  import opened Coordinator
  import opened CoordinatorInvariants
  import opened ReadyBarrier
  import opened DataflowIdentity

  // ----- what a name resolves to -------------------------------------------

  predicate LiveAs(s: State, u: DataflowId, name: string) {
    At(s, u).live.Some? && At(s, u).live.value.name == Some(name)
  }

  predicate ArchivedUnder(s: State, u: DataflowId, name: string) {
    u in s.archived.items && s.archived.items[u] == Some(name)
  }

  lemma OnlyIff(ids: set<DataflowId>, u: DataflowId)
    ensures TheOnly(ids) == Some(u) <==> u in ids && forall v :: v in ids ==> v == u
  {
    if u in ids && forall v :: v in ids ==> v == u {
      assert ids == {u};
    }
  }

  /** A name means the one live dataflow that has it; if none has, the one archived dataflow
      that had it; and nothing if there are several of those. */
  lemma ResolveIs(s: State, name: string, u: DataflowId)
    ensures ResolveName(s, name) == Some(u) <==>
              || (LiveAs(s, u, name) && forall v :: LiveAs(s, v, name) ==> v == u)
              || (&& (forall v :: !LiveAs(s, v, name))
                  && ArchivedUnder(s, u, name) && forall v :: ArchivedUnder(s, v, name) ==> v == u)
  {
    assert forall v :: v in Named(s, name) <==> LiveAs(s, v, name);
    assert forall v :: v in ArchivedAs(s, name) <==> ArchivedUnder(s, v, name);
    OnlyIff(Named(s, name), u);
    OnlyIff(ArchivedAs(s, name), u);
  }

  // ----- can two live dataflows share a name? ------------------------------

  ghost predicate UniqueNames(s: State) {
    forall u, v, name :: LiveAs(s, u, name) && LiveAs(s, v, name) ==> u == v
  }

  /** Report `e` brings `u` back to life. */
  ghost predicate Revives(s: State, e: Event, u: DataflowId) {
    && e.Report? && At(s, u).live.None? && Reports(e.entries, u)
    && Adoptable(At(s, u), u in s.archived.items, Readable(e.env, u))
  }

  /** The name a dataflow has, or will have when it comes back. */
  function NameOf(slot: Slot): Option<string> {
    if slot.live.Some? then slot.live.value.name else if slot.record.Some? then slot.record.value.name else None
  }

  /** `e` brings back a dataflow whose name is taken by then. */
  ghost predicate RevivesTakenName(s: State, e: Event) {
    exists u, v, name: string :: Retakes(s, e, u, v, name)
  }

  ghost predicate Retakes(s: State, e: Event, u: DataflowId, v: DataflowId, name: string) {
    && u != v && Revives(s, e, u) && (Revives(s, e, v) || At(s, v).live.Some?)
    && NameOf(At(s, u)) == Some(name) && NameOf(At(s, v)) == Some(name)
  }

  lemma {:induction false} ReconcileAllLives(u: DataflowId, slot: Slot, d: DaemonId, entries: seq<StatusEntry>,
                                             archived: bool, connected: bool, now: Millis, readable: bool, durable: bool)
    ensures var slot' := ReconcileAll(u, slot, d, entries, archived, connected, now, readable, durable);
            && (slot'.live.Some? <==> slot.live.Some? || (Reports(entries, u) && Adoptable(slot, archived, readable)))
            && NameOf(slot') == NameOf(slot)
    decreases |entries|
  {
    if entries != [] {
      var s1 := if entries[0].uuid == u
                then ReconcileSlot(slot, d, entries[0].nodes, archived, connected, now, readable, durable)
                else slot;
      FirstOrLater(entries, u);
      ReconcileAllLives(u, s1, d, entries[1..], archived, connected, now, readable, durable);
    }
  }

  lemma LivesAfterReport(s: State, e: Event, u: DataflowId)
    requires e.Report?
    ensures At(Step(s, e), u).live.Some? <==> At(s, u).live.Some? || Revives(s, e, u)
    ensures NameOf(At(Step(s, e), u)) == NameOf(At(s, u))
  {
    StepIsPointwise(s, e, u);
    ReconcileAllLives(u, At(s, u), e.daemon, e.entries, u in s.archived.items, e.daemon in s.conns, e.env.now,
                      Readable(e.env, u), Durable(e.env, u));
  }

  lemma ReportKeepsUniqueIff(s: State, e: Event)
    requires e.Report? && UniqueNames(s)
    ensures UniqueNames(Step(s, e)) <==> !RevivesTakenName(s, e)
  {
    var s' := Step(s, e);
    forall u
      ensures At(s', u).live.Some? <==> At(s, u).live.Some? || Revives(s, e, u)
      ensures NameOf(At(s', u)) == NameOf(At(s, u))
    {
      LivesAfterReport(s, e, u);
    }
    if u, v, name: string :| Retakes(s, e, u, v, name) {
      assert LiveAs(s', u, name) && LiveAs(s', v, name);
    } else {
      forall u, v, name | LiveAs(s', u, name) && LiveAs(s', v, name)
        ensures u == v
      {
        assert !Retakes(s, e, u, v, name) && !Retakes(s, e, v, u, name);
        assert At(s, u).live.Some? && At(s, v).live.Some? && u != v ==> LiveAs(s, u, name) && LiveAs(s, v, name);
      }
    }
  }

  /** Outside reports, a live dataflow was live before under that name or was just started. */
  lemma LivesAfterOther(s: State, e: Event, u: DataflowId)
    requires Inv(s) && Enabled(s, e) && AllConsistent(s) && !e.Report? && At(Step(s, e), u).live.Some?
    ensures Starts(s, e, u) || (At(s, u).live.Some? && At(Step(s, e), u).live.value.name == At(s, u).live.value.name)
  {
    var x := CtxOf(s, e, u);
    StepIsPointwise(s, e, u);
    if !Creates(u, e, x) {
      var i :| AllOf(At(s, u), i) by {
        assert AllOf(EMPTY_SLOT, Origin(Identity(None, Descriptor("", true), false), 0));
      }
      EventKeepsIdentity(u, At(s, u), e, x, i);
      assert Open(0);
      if AsksRestart(u, e, x) {
        RequestShrinks(At(s, u), e.caller, e.acks, None, e.env.now, Durable(e.env, u));
      } else {
        SlotShrinks(u, At(s, u), e, x);
      }
    }
  }

  /** A start takes a name that is free: nobody has it, or the dataflow it replaces, which is
      gone. */
  lemma NameIsFree(s: State, e: Event, u: DataflowId, v: DataflowId, name: string)
    requires Enabled(s, e) && AllConsistent(s) && UniqueNames(s) && Starts(s, e, u)
    requires StartedAs(s, e).name == Some(name) && LiveAs(s, v, name)
    ensures At(Step(s, e), v).live.None?
  {
    assert v in Named(s, name);
    LaunchIs(s, e);
    assert LiveAs(s, e.uuid, name);
  }

  lemma StartTakesFreeName(s: State, e: Event, u: DataflowId, v: DataflowId, name: string)
    requires Inv(s) && Enabled(s, e) && AllConsistent(s) && UniqueNames(s) && Starts(s, e, u) && u != v
    requires LiveAs(Step(s, e), u, name) && At(Step(s, e), v).live.Some?
    ensures !LiveAs(s, v, name)
  {
    StartHasIdentity(s, e, u);
    if LiveAs(s, v, name) {
      NameIsFree(s, e, u, v, name);
    }
  }

  lemma OtherKeepsUnique(s: State, e: Event)
    requires Inv(s) && Enabled(s, e) && AllConsistent(s) && UniqueNames(s) && !e.Report?
    ensures UniqueNames(Step(s, e))
  {
    var s' := Step(s, e);
    forall u, v, name | LiveAs(s', u, name) && LiveAs(s', v, name)
      ensures u == v
    {
      if u != v {
        LivesAfterOther(s, e, u);
        LivesAfterOther(s, e, v);
        assert LiveAs(s, u, name) && LiveAs(s, v, name) ==> u == v;
        if Starts(s, e, u) {
          StartTakesFreeName(s, e, u, v, name);
        } else if Starts(s, e, v) {
          StartTakesFreeName(s, e, v, u, name);
        }
      }
    }
  }

  /** Live dataflows keep distinct names across every event, except exactly a report that
      brings back one whose name was given away in the meantime. */
  lemma NamesStayUniqueIff(s: State, e: Event)
    requires Inv(s) && Enabled(s, e) && AllConsistent(s) && UniqueNames(s)
    ensures UniqueNames(Step(s, e)) <==> !RevivesTakenName(s, e)
  {
    if e.Report? {
      ReportKeepsUniqueIff(s, e);
    } else {
      OtherKeepsUnique(s, e);
    }
  }

  /** In every run without such a report no two live dataflows share a name. */
  lemma {:induction false} NamesAreUnique(states: seq<State>, events: seq<Event>, n: nat)
    requires IsRun(states, events) && states[0] == INITIAL && n <= |events|
    requires forall i :: 0 <= i < n ==> !RevivesTakenName(states[i], events[i])
    ensures UniqueNames(states[n])
  {
    if n > 0 {
      assert Steps(states, events, n - 1);
      NamesAreUnique(states, events, n - 1);
      InvRun(states, events, n - 1);
      ConsistentRun(states, events, n - 1);
      NamesStayUniqueIff(states[n - 1], events[n - 1]);
    }
  }

  /** How it comes about: the only daemon of a named dataflow is lost, a new dataflow takes
      the name, and the daemon comes back with the old one. */
  lemma TwoOfTheSameName(states: seq<State>, events: seq<Event>, u: DataflowId, v: DataflowId, d: DaemonId, name: string)
    requires IsRun(states, events) && Inv(states[0]) && |events| == 3
    requires LiveAs(states[0], u, name) && At(states[0], u).live.value.daemons == {d} && d in states[0].conns
    requires At(states[0], u).live.value.spawn.SpawnOk? && At(states[0], u).live.value.descriptor.resolves
    requires events[0].Exit? && events[0].daemon == d && events[0].connection == states[0].conns[d].id
    requires Durable(events[0].env, u)
    requires events[1].StartReq? && events[1].name == Some(name) && Starts(states[1], events[1], v)
    requires events[2].Report? && Reports(events[2].entries, u) && Readable(events[2].env, u)
    ensures u != v && LiveAs(states[3], u, name) && LiveAs(states[3], v, name)
  {
    assert Steps(states, events, 0) && Steps(states, events, 1) && Steps(states, events, 2);
    InvRun(states, events, 1);
    InvRun(states, events, 2);
    ReclaimParks(states[0], events[0], u, d);
    StartLeavesOthers(states[1], events[1], u, v);
    StartHasIdentity(states[1], events[1], v);
    LivesAfterReport(states[2], events[2], u);
    LivesAfterReport(states[2], events[2], v);
  }

  lemma ReclaimParks(s: State, e: Event, u: DataflowId, d: DaemonId)
    requires Inv(s) && At(s, u).live.Some? && At(s, u).live.value.daemons == {d} && At(s, u).live.value.spawn.SpawnOk?
    requires e.Exit? && e.daemon == d && d in s.conns && e.connection == s.conns[d].id && Durable(e.env, u)
    ensures var slot' := At(Step(s, e), u);
            && u in Step(s, e).slots && u !in Step(s, e).archived.items
            && slot'.live.None? && slot'.record.Some? && slot'.record.value.status == Recovering
            && OfRecord(slot'.record.value) == OfLive(At(s, u).live.value)
  {
    StepIsPointwise(s, e, u);
    assert d in At(s, u).live.value.daemons + At(s, u).live.value.pendingDaemons + At(s, u).live.value.pendingSpawn;
    assert Orphaned(At(s, u).live.value, {d});
  }

  lemma StartLeavesOthers(s: State, e: Event, u: DataflowId, v: DataflowId)
    requires Enabled(s, e) && e.StartReq? && Starts(s, e, v) && u in s.slots
    ensures u != v && At(Step(s, e), u) == At(s, u) && Step(s, e).archived == s.archived
  {
    StepIsPointwise(s, e, u);
  }
}
