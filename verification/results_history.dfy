/** What the two histories hold: the results that were reported, late ones included, the
    failures of spawns that were given up, and the dataflows that went down last. */
module ResultsHistory {
  import opened Common
  import opened CoordinatorTypes
  import opened DataflowSlot
  import opened Coordinator
  import opened CoordinatorInvariants
  import opened FinishAndClean

  /** The result of one node, as the history tells it. */
  function ResultOf(s: State, u: DataflowId, d: DaemonId, node: NodeId): Option<bool> {
    var r := KnownResults(Lookup(s.results.items, u));
    if d in r then Lookup(r[d], node) else None
  }

  // ----- late results ------------------------------------------------------

  /** A result that arrives after its dataflow went down is merged node by node: it counts for
      the nodes it names, and everything else that was known stays. */
  lemma LateResultIsMerged(s: State, e: Event, d: DaemonId, node: NodeId)
    requires e.Finished? && At(s, e.uuid).live.None? && e.uuid in s.archived.items
    requires e.uuid in Step(s, e).results.items
    ensures ResultOf(Step(s, e), e.uuid, d, node)
         == if d == e.daemon && node in e.result then Some(e.result[node]) else ResultOf(s, e.uuid, d, node)
  {
    FinishedResults(s, e.uuid, e.daemon, e.result).DropOldestExceptKeeps(MAX_DATAFLOW_RESULTS, LiveIds(s) + ReplacementOf(s, e));
    assert LiveIds(s) - {} + ReplacementOf(s, e) == LiveIds(s) + ReplacementOf(s, e);
  }

  /** A result of a dataflow that is neither live nor archived is not recorded. */
  lemma UnknownResultIsIgnored(s: State, e: Event)
    requires e.Finished? && At(s, e.uuid).live.None? && e.uuid !in s.archived.items
    ensures e.uuid in Step(s, e).results.items ==>
              e.uuid in s.results.items && Step(s, e).results.items[e.uuid] == s.results.items[e.uuid]
  {
    s.results.DropOldestExceptKeeps(MAX_DATAFLOW_RESULTS, LiveIds(s) + ReplacementOf(s, e));
    assert LiveIds(s) - {} + ReplacementOf(s, e) == LiveIds(s) + ReplacementOf(s, e);
  }

  // ----- failed spawns -----------------------------------------------------

  /** The spawn of `u` is given up: a daemon says that it failed, or it took over a minute. */
  ghost predicate GivesUp(s: State, e: Event, u: DataflowId) {
    && At(s, u).live.Some? && At(s, u).live.value.spawn.SpawnPending?
    && (|| (e.SpawnReport? && e.uuid == u && !e.ok)
        || (e.Tick? && e.env.now > At(s, u).live.value.spawnStartedAt + 60_000))
  }

  lemma StuckAfterDisconnect(s: State, e: Event, u: DataflowId)
    requires e.Tick? && GivesUp(s, e, u)
    ensures var dfs := AfterDisconnect(s, LostBy(s, e), e.env); u in dfs && SpawnStuck(dfs[u], e.env.now)
  {
  }

  lemma {:induction false} TearDownTells(results: IndexMap<DataflowId, Results>, order: seq<DataflowId>,
                                         dfs: map<DataflowId, Dataflow>, live: set<DataflowId>, u: DataflowId)
    requires Distinct(order) && u in order && u in live && forall v :: v in order ==> v in dfs
    ensures var after := TearDownResults(results, order, dfs, live).items;
            u in after ==> after[u] == KnownResults(Lookup(results.items, u)) + SyntheticResults(dfs[u])
    decreases |order|
  {
    var v := order[0];
    var next := RecordFailure(results, v, dfs[v], live);
    assert forall w :: w in order[1..] ==> w in order;
    if v == u {
      results.Put(u, KnownResults(Lookup(results.items, u)) + SyntheticResults(dfs[u]))
      .DropOldestExceptKeeps(MAX_DATAFLOW_RESULTS, live - {u});
      assert u !in order[1..];
      TearDownKeepsValue(next, order[1..], dfs, live - {u}, u);
    } else {
      RecordFailureSpares(results, v, dfs[v], live, u);
      TearDownTells(next, order[1..], dfs, live - {v}, u);
    }
  }

  lemma {:induction false} TearDownKeepsValue(results: IndexMap<DataflowId, Results>, order: seq<DataflowId>,
                                              dfs: map<DataflowId, Dataflow>, live: set<DataflowId>, u: DataflowId)
    requires u !in order
    ensures var after := TearDownResults(results, order, dfs, live).items;
            u in after ==> u in results.items && after[u] == results.items[u]
    decreases |order|
  {
    if order != [] && order[0] in dfs {
      var v := order[0];
      results.Put(v, KnownResults(Lookup(results.items, v)) + SyntheticResults(dfs[v]))
      .DropOldestExceptKeeps(MAX_DATAFLOW_RESULTS, live - {v});
      TearDownKeepsValue(RecordFailure(results, v, dfs[v], live), order[1..], dfs, live - {v}, u);
    }
  }

  lemma {:induction false} StuckDistinct(order: seq<DataflowId>, dfs: map<DataflowId, Dataflow>, now: Millis)
    requires Distinct(order)
    ensures Distinct(StuckIn(order, dfs, now))
  {
    if order != [] {
      assert order[0] !in order[1..];
      StuckDistinct(order[1..], dfs, now);
    }
  }

  lemma TimedOutIsTold(s: State, e: Event, u: DataflowId)
    requires Enabled(s, e) && e.Tick? && GivesUp(s, e, u)
    ensures u in Step(s, e).results.items ==>
              Step(s, e).results.items[u]
              == KnownResults(Lookup(s.results.items, u)) + SyntheticResults(At(s, u).live.value)
  {
    var dfs := AfterDisconnect(s, LostBy(s, e), e.env);
    var stuck := StuckIn(e.order, dfs, e.env.now);
    StuckAfterDisconnect(s, e, u);
    PrunedTheSame(s.slots[u], LostBy(s, e), e.env.now, Readable(e.env, u), Durable(e.env, u));
    assert u in LiveIds(s) && u in stuck;
    StuckDistinct(e.order, dfs, e.env.now);
    TearDownTells(s.results, stuck, dfs, dfs.Keys, u);
  }

  lemma PrunedTheSame(slot: Slot, lost: set<DaemonId>, now: Millis, readable: bool, durable: bool)
    requires DisconnectSlot(slot, lost, now, readable, durable).live.Some?
    ensures slot.live.Some?
    ensures SyntheticResults(DisconnectSlot(slot, lost, now, readable, durable).live.value)
         == SyntheticResults(slot.live.value)
  {
    HomesAreKept(slot, lost, now, readable, durable);
    HomesDecide(slot.live.value, DisconnectSlot(slot, lost, now, readable, durable).live.value);
  }

  lemma HomesAreKept(slot: Slot, lost: set<DaemonId>, now: Millis, readable: bool, durable: bool)
    requires DisconnectSlot(slot, lost, now, readable, durable).live.Some?
    ensures slot.live.Some?
    ensures DisconnectSlot(slot, lost, now, readable, durable).live.value.nodeToDaemon == slot.live.value.nodeToDaemon
  {
  }

  lemma HomesDecide(df: Dataflow, df': Dataflow)
    requires df.nodeToDaemon == df'.nodeToDaemon
    ensures SyntheticResults(df) == SyntheticResults(df')
  {
  }

  lemma ReportedIsTold(s: State, e: Event, u: DataflowId)
    requires e.SpawnReport? && GivesUp(s, e, u)
    ensures u in Step(s, e).results.items ==>
              Step(s, e).results.items[u]
              == KnownResults(Lookup(s.results.items, u)) + SyntheticResults(At(s, u).live.value)
  {
    var df := At(s, u).live.value;
    s.results.Put(u, KnownResults(Lookup(s.results.items, u)) + SyntheticResults(df))
    .DropOldestExceptKeeps(MAX_DATAFLOW_RESULTS, LiveIds(s) - {u});
  }

  /** A dataflow whose spawn is given up is listed as failed: every node that was placed has
      failed, on the daemon it was placed on, and what other daemons reported stays. */
  lemma FailedSpawnIsListed(s: State, e: Event, u: DataflowId, d: DaemonId, node: NodeId)
    requires Enabled(s, e) && GivesUp(s, e, u)
    ensures At(Step(s, e), u).live.None?
    ensures u in Step(s, e).results.items ==>
              var homes := At(s, u).live.value.nodeToDaemon;
              && ListStatus(Step(s, e), u) == ListedFailed
              && (node in homes && homes[node] == d ==> ResultOf(Step(s, e), u, d, node) == Some(false))
              && (homes.Keys != {} && d !in homes.Values ==> ResultOf(Step(s, e), u, d, node) == ResultOf(s, u, d, node))
  {
    GivenUpIsDown(s, e, u);
    if e.Tick? {
      TimedOutIsTold(s, e, u);
    } else {
      ReportedIsTold(s, e, u);
    }
    if u in Step(s, e).results.items {
      SyntheticAt(KnownResults(Lookup(s.results.items, u)), At(s, u).live.value, d, node);
    }
  }

  lemma SyntheticAt(known: Results, df: Dataflow, d: DaemonId, node: NodeId)
    ensures var r := known + SyntheticResults(df);
            && !EveryDaemonOk(r)
            && (node in df.nodeToDaemon && df.nodeToDaemon[node] == d ==> d in r && Lookup(r[d], node) == Some(false))
            && (df.nodeToDaemon.Keys != {} && d !in df.nodeToDaemon.Values ==> Lookup(r, d) == Lookup(known, d))
  {
    var r := known + SyntheticResults(df);
    var d', n' :| d' in SyntheticResults(df) && n' in SyntheticResults(df)[d'] && !SyntheticResults(df)[d'][n'];
    assert d' in r && !AllOk(r[d']);
  }

  lemma GivenUpIsDown(s: State, e: Event, u: DataflowId)
    requires GivesUp(s, e, u)
    ensures At(Step(s, e), u).live.None?
  {
    var x := CtxOf(s, e, u);
    StepIsPointwise(s, e, u);
    if e.Tick? {
      StuckAfterDisconnect(s, e, u);
      var mid := DisconnectSlot(s.slots[u], x.lost, e.env.now, Readable(e.env, u), Durable(e.env, u));
      FailSpawnShrinks(mid, mid.live.value, FailedResults(mid, x.results), e.env.now, Durable(e.env, u));
    } else {
      var df := At(s, u).live.value.(pendingSpawn := At(s, u).live.value.pendingSpawn - {e.daemon});
      FailSpawnShrinks(At(s, u), df, FailedResults(At(s, u), x.results), e.env.now, Durable(e.env, u));
    }
  }

  // ----- the archive -------------------------------------------------------

  lemma ArchiveAdds(archived: IndexMap<DataflowId, Option<string>>, u: DataflowId, name: Option<string>)
    requires archived.Valid() && u !in archived.items
    ensures u in Archive(archived, u, name).items && Archive(archived, u, name).items[u] == name
  {
    var put := archived.Put(u, name);
    assert put.keys[|put.keys| - 1] == u;
    if |put.keys| > MAX_ARCHIVED_DATAFLOWS {
      var n := |put.keys| - MAX_ARCHIVED_DATAFLOWS;
      assert u !in put.keys[..n];
    }
  }

  /** A dataflow that completes, or whose spawn a daemon reports as failed, is archived under
      its name. */
  lemma DownIsArchived(s: State, e: Event)
    requires Inv(s) && (e.Finished? || e.SpawnReport?) && At(s, e.uuid).live.Some?
    requires e.Finished? ==> forall d :: d in At(s, e.uuid).live.value.daemons ==> d == e.daemon
    requires e.SpawnReport? ==> At(s, e.uuid).live.value.spawn.SpawnPending? && !e.ok
    ensures e.uuid in Step(s, e).archived.items
    ensures Step(s, e).archived.items[e.uuid] == At(s, e.uuid).live.value.name
  {
    ArchiveAdds(s.archived, e.uuid, At(s, e.uuid).live.value.name);
  }

  /** At most `MAX_ARCHIVED_DATAFLOWS - left` entries are newer than `u`. */
  predicate AmongNewest(archived: IndexMap<DataflowId, Option<string>>, u: DataflowId, left: nat) {
    exists i :: 0 <= i < |archived.keys| && archived.keys[i] == u && |archived.keys| - i + left <= MAX_ARCHIVED_DATAFLOWS
  }

  lemma ArchivedKeys(archived: IndexMap<DataflowId, Option<string>>, v: DataflowId, name: Option<string>)
    ensures var put := if v in archived.items then archived.keys else archived.keys + [v];
            var n := if |put| <= MAX_ARCHIVED_DATAFLOWS then 0 else |put| - MAX_ARCHIVED_DATAFLOWS;
            Archive(archived, v, name).keys == put[n..]
  {
  }

  lemma ArchiveAges(archived: IndexMap<DataflowId, Option<string>>, u: DataflowId, v: DataflowId, name: Option<string>,
                    left: nat)
    requires left > 0 && AmongNewest(archived, u, left)
    ensures AmongNewest(Archive(archived, v, name), u, left - 1)
  {
    var i :| 0 <= i < |archived.keys| && archived.keys[i] == u && |archived.keys| - i + left <= MAX_ARCHIVED_DATAFLOWS;
    var put := if v in archived.items then archived.keys else archived.keys + [v];
    var n := if |put| <= MAX_ARCHIVED_DATAFLOWS then 0 else |put| - MAX_ARCHIVED_DATAFLOWS;
    ArchivedKeys(archived, v, name);
    assert put[n..][i - n] == u;
  }

  lemma ArchiveIsNewest(archived: IndexMap<DataflowId, Option<string>>, u: DataflowId, name: Option<string>, left: nat)
    requires archived.Valid() && u !in archived.items && left < MAX_ARCHIVED_DATAFLOWS
    ensures AmongNewest(Archive(archived, u, name), u, left)
  {
    ArchivedKeys(archived, u, name);
    var after := Archive(archived, u, name);
    assert after.keys[|after.keys| - 1] == u;
  }

  lemma {:induction false} AgesThrough(archived: IndexMap<DataflowId, Option<string>>, order: seq<DataflowId>,
                                       dfs: map<DataflowId, Dataflow>, u: DataflowId)
    requires archived.Valid() && AmongNewest(archived, u, |order|)
    ensures u in TearDownArchive(archived, order, dfs).items
    decreases |order|
  {
    if order != [] && order[0] in dfs {
      ArchiveAges(archived, u, order[0], dfs[order[0]].name, |order|);
      ArchiveKeeps(archived, order[0], dfs[order[0]].name);
      AgesThrough(Archive(archived, order[0], dfs[order[0]].name), order[1..], dfs, u);
    }
  }

  lemma {:induction false} TearDownArchives(archived: IndexMap<DataflowId, Option<string>>, order: seq<DataflowId>,
                                            dfs: map<DataflowId, Dataflow>, u: DataflowId)
    requires archived.Valid() && u !in archived.items && u in order && |order| <= MAX_ARCHIVED_DATAFLOWS
    requires forall v :: v in order ==> v in dfs
    ensures u in TearDownArchive(archived, order, dfs).items
    decreases |order|
  {
    var v := order[0];
    if v == u {
      ArchiveIsNewest(archived, u, dfs[u].name, |order| - 1);
      ArchiveKeeps(archived, u, dfs[u].name);
      AgesThrough(Archive(archived, u, dfs[u].name), order[1..], dfs, u);
    } else {
      ArchiveKeeps(archived, v, dfs[v].name);
      assert u in order[1..] && forall w :: w in order[1..] ==> w in order;
      TearDownArchives(Archive(archived, v, dfs[v].name), order[1..], dfs, u);
    }
  }

  /** A tick that gives up no more spawns than the archive holds archives each of them. */
  lemma TimedOutIsArchived(s: State, e: Event, u: DataflowId)
    requires Inv(s) && Enabled(s, e) && e.Tick? && GivesUp(s, e, u)
    requires |StuckIn(e.order, AfterDisconnect(s, LostBy(s, e), e.env), e.env.now)| <= MAX_ARCHIVED_DATAFLOWS
    ensures u in Step(s, e).archived.items
  {
    var dfs := AfterDisconnect(s, LostBy(s, e), e.env);
    StuckAfterDisconnect(s, e, u);
    assert u in LiveIds(s);
    TearDownArchives(s.archived, StuckIn(e.order, dfs, e.env.now), dfs, u);
  }

  lemma {:induction false} TearDownBounded(archived: IndexMap<DataflowId, Option<string>>, order: seq<DataflowId>,
                                           dfs: map<DataflowId, Dataflow>)
    requires |archived.keys| <= MAX_ARCHIVED_DATAFLOWS
    ensures |TearDownArchive(archived, order, dfs).keys| <= MAX_ARCHIVED_DATAFLOWS
    decreases |order|
  {
    if order != [] && order[0] in dfs {
      archived.PutIfAbsent(order[0], dfs[order[0]].name).DropOldestKeeps(MAX_ARCHIVED_DATAFLOWS);
      TearDownBounded(Archive(archived, order[0], dfs[order[0]].name), order[1..], dfs);
    }
  }

  lemma {:induction false} FilterShrinks(s: seq<DataflowId>, gone: set<DataflowId>)
    ensures |FilterOut(s, gone)| <= |s|
  {
    if s != [] {
      FilterShrinks(s[1..], gone);
    }
  }

  /** The archive never holds more than 200 dataflows. */
  lemma {:induction false} ArchiveStaysBounded(states: seq<State>, events: seq<Event>, n: nat)
    requires IsRun(states, events) && states[0] == INITIAL && n <= |events|
    ensures |states[n].archived.keys| <= 200
  {
    if n > 0 {
      assert Steps(states, events, n - 1);
      ArchiveStaysBounded(states, events, n - 1);
      BoundedStep(states[n - 1], events[n - 1]);
    }
  }

  lemma BoundedStep(s: State, e: Event)
    requires |s.archived.keys| <= MAX_ARCHIVED_DATAFLOWS
    ensures |Step(s, e).archived.keys| <= MAX_ARCHIVED_DATAFLOWS
  {
    match e
    case Finished(u, _, _, _, _) =>
      if At(s, u).live.Some? {
        s.archived.PutIfAbsent(u, At(s, u).live.value.name).DropOldestKeeps(MAX_ARCHIVED_DATAFLOWS);
      }
    case SpawnReport(u, _, _, _) =>
      if At(s, u).live.Some? {
        s.archived.PutIfAbsent(u, At(s, u).live.value.name).DropOldestKeeps(MAX_ARCHIVED_DATAFLOWS);
      }
    case Tick(_, order, env) =>
      var dfs := AfterDisconnect(s, LostBy(s, e), env);
      TearDownBounded(s.archived, StuckIn(order, dfs, env.now), dfs);
    case Clean(env) => FilterShrinks(s.archived.keys, CleanedBy(s, env));
    case _ =>
  }
}
