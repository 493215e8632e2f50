/** Distributed builds: every daemon it is given to reports once, lost daemons count as
    failures, and a watchdog gives up on builds that take too long. */
module Builds {
  import opened Common
  import opened CoordinatorTypes
  import opened ReplyConservation

  type BuildId = nat

  const MAX_FINISHED_BUILDS: nat := 100

  datatype BuildError = Reported(daemon: DaemonId) | Disconnected(daemon: DaemonId)

  datatype Outcome = Built | BuildFailed(errors: seq<BuildError>) | BuildTimedOut

  datatype BuildAnswer = BuildTriggered | BuildFinished(outcome: Outcome) | UnknownBuild

  datatype BuildReply = BuildReply(caller: Caller, answer: BuildAnswer)

  datatype Build = Build(pending: set<DaemonId>, errors: seq<BuildError>, waiters: seq<Caller>, startedAt: Millis)

  /** Everything about one build id: the daemons it was started with, the running entry,
      the outcomes it was given and the replies sent. */
  datatype BuildSlot = BuildSlot(
    members: set<DaemonId>,
    running: Option<Build>,
    outcomes: seq<Outcome>,
    replies: seq<BuildReply>)

  const NO_BUILD := BuildSlot({}, None, [], [])

  datatype BuildState = BuildState(slots: map<BuildId, BuildSlot>, finished: IndexMap<BuildId, Outcome>)

  datatype BuildEvent =
    | Begin(id: BuildId, daemons: set<DaemonId>, caller: Caller, now: Millis)
    | Result(id: BuildId, daemon: DaemonId, ok: bool)
    | Lost(lost: seq<DaemonId>, order: seq<BuildId>)
    | Tick(now: Millis, timeout: Millis, order: seq<BuildId>)
    | Wait(id: BuildId, caller: Caller)

  // ----- one build ---------------------------------------------------------

  function OutcomeOf(errors: seq<BuildError>): Outcome {
    if errors == [] then Built else BuildFailed(errors)
  }

  function Answers(callers: seq<Caller>, answer: BuildAnswer): seq<BuildReply> {
    seq(|callers|, i requires 0 <= i < |callers| => BuildReply(callers[i], answer))
  }

  function Finalize(slot: BuildSlot, b: Build, outcome: Outcome): BuildSlot {
    slot.(running := None, outcomes := slot.outcomes + [outcome],
          replies := slot.replies + Answers(b.waiters, BuildFinished(outcome)))
  }

  function BeginSlot(slot: BuildSlot, daemons: set<DaemonId>, caller: Caller, now: Millis): BuildSlot {
    BuildSlot(daemons, Some(Build(daemons, [], [], now)), slot.outcomes, slot.replies + [BuildReply(caller, BuildTriggered)])
  }

  function Noted(b: Build, d: DaemonId, ok: bool): Build {
    b.(pending := b.pending - {d}, errors := if ok then b.errors else b.errors + [Reported(d)])
  }

  function ResultSlot(slot: BuildSlot, d: DaemonId, ok: bool): BuildSlot {
    if slot.running.None? then slot
    else
      var b := Noted(slot.running.value, d, ok);
      if b.pending == {} then Finalize(slot, b, OutcomeOf(b.errors)) else slot.(running := Some(b))
  }

  /** Each lost daemon that was still awaited becomes an error. */
  function WithoutLost(b: Build, lost: seq<DaemonId>): Build
    decreases |lost|
  {
    if lost == [] then b
    else if lost[0] in b.pending then
      WithoutLost(b.(pending := b.pending - {lost[0]}, errors := b.errors + [Disconnected(lost[0])]), lost[1..])
    else WithoutLost(b, lost[1..])
  }

  predicate Emptied(b: Build, lost: seq<DaemonId>) {
    b.pending != {} && WithoutLost(b, lost).pending == {}
  }

  function LostSlot(slot: BuildSlot, lost: seq<DaemonId>): BuildSlot {
    if slot.running.None? then slot
    else
      var b := WithoutLost(slot.running.value, lost);
      if Emptied(slot.running.value, lost) then Finalize(slot, b, OutcomeOf(b.errors)) else slot.(running := Some(b))
  }

  predicate Overdue(b: Build, now: Millis, timeout: Millis) {
    Elapsed(now, b.startedAt) > timeout
  }

  function TimeoutSlot(slot: BuildSlot, now: Millis, timeout: Millis): BuildSlot {
    if slot.running.Some? && Overdue(slot.running.value, now, timeout)
    then Finalize(slot, slot.running.value, BuildTimedOut)
    else slot
  }

  function WaitSlot(slot: BuildSlot, caller: Caller, cached: Option<Outcome>): BuildSlot {
    if slot.running.Some? then
      slot.(running := Some(slot.running.value.(waiters := slot.running.value.waiters + [caller])))
    else
      slot.(replies := slot.replies +
        [BuildReply(caller, if cached.Some? then BuildFinished(cached.value) else UnknownBuild)])
  }

  // ----- the table ---------------------------------------------------------

  function SlotAt(s: BuildState, id: BuildId): BuildSlot {
    if id in s.slots then s.slots[id] else NO_BUILD
  }

  function BuildSlotStep(id: BuildId, slot: BuildSlot, e: BuildEvent, cached: Option<Outcome>): BuildSlot {
    match e
    case Begin(i, daemons, caller, now) => if i == id then BeginSlot(slot, daemons, caller, now) else slot
    case Result(i, d, ok) => if i == id then ResultSlot(slot, d, ok) else slot
    case Lost(lost, _) => LostSlot(slot, lost)
    case Tick(now, timeout, _) => TimeoutSlot(slot, now, timeout)
    case Wait(i, caller) => if i == id then WaitSlot(slot, caller, cached) else slot
  }

  /** The outcome a build gets in a step, if it gets one. */
  function NewOutcome(slot: BuildSlot, slot': BuildSlot): Option<Outcome> {
    if slot.running.Some? && slot'.running.None? && slot'.outcomes != []
    then Some(slot'.outcomes[|slot'.outcomes| - 1]) else None
  }

  function Remember(finished: IndexMap<BuildId, Outcome>, id: BuildId, outcome: Outcome): IndexMap<BuildId, Outcome> {
    finished.Put(id, outcome).DropOldest(MAX_FINISHED_BUILDS)
  }

  /** Builds finalized in one step are remembered in the order they are visited. */
  function RememberAll(s: BuildState, finished: IndexMap<BuildId, Outcome>, order: seq<BuildId>, e: BuildEvent)
    : IndexMap<BuildId, Outcome>
    decreases |order|
  {
    if order == [] then finished
    else
      var slot := SlotAt(s, order[0]);
      var outcome := NewOutcome(slot, BuildSlotStep(order[0], slot, e, None));
      RememberAll(s, if outcome.Some? then Remember(finished, order[0], outcome.value) else finished, order[1..], e)
  }

  /** The builds of `order` that lose their last awaited daemon. */
  function EmptiedIn(order: seq<BuildId>, builds: map<BuildId, Build>, lost: seq<DaemonId>): seq<BuildId> {
    if order == [] then []
    else (if order[0] in builds && Emptied(builds[order[0]], lost) then [order[0]] else [])
         + EmptiedIn(order[1..], builds, lost)
  }

  /** The builds of `order` that have been running for too long. */
  function OverdueIn(order: seq<BuildId>, builds: map<BuildId, Build>, now: Millis, timeout: Millis): seq<BuildId> {
    if order == [] then []
    else (if order[0] in builds && Overdue(builds[order[0]], now, timeout) then [order[0]] else [])
         + OverdueIn(order[1..], builds, now, timeout)
  }

  function RunningBuilds(s: BuildState): map<BuildId, Build> {
    map id | id in s.slots && s.slots[id].running.Some? :: s.slots[id].running.value
  }

  /** The builds an event may finalize, in the order they are visited. */
  function VisitOrder(s: BuildState, e: BuildEvent): seq<BuildId> {
    match e
    case Result(id, _, _) => [id]
    case Lost(lost, order) => EmptiedIn(order, RunningBuilds(s), lost)
    case Tick(now, timeout, order) => OverdueIn(order, RunningBuilds(s), now, timeout)
    case _ => []
  }

  function Touches(e: BuildEvent): set<BuildId> {
    if e.Begin? || e.Result? || e.Wait? then {e.id} else {}
  }

  function BuildStep(s: BuildState, e: BuildEvent): BuildState {
    BuildState(map id | id in s.slots.Keys + Touches(e) ::
                 BuildSlotStep(id, SlotAt(s, id), e, Lookup(s.finished.items, id)),
               RememberAll(s, s.finished, VisitOrder(s, e), e))
  }

  lemma BuildStepIsPointwise(s: BuildState, e: BuildEvent, id: BuildId)
    ensures SlotAt(BuildStep(s, e), id) == BuildSlotStep(id, SlotAt(s, id), e, Lookup(s.finished.items, id))
  {
  }

  ghost predicate BuildEnabled(s: BuildState, e: BuildEvent) {
    match e
    case Begin(id, _, _, _) => id !in s.slots
    case Lost(_, order) => Distinct(order) && forall id :: id in order <==> id in RunningBuilds(s)
    case Tick(_, _, order) => Distinct(order) && forall id :: id in order <==> id in RunningBuilds(s)
    case _ => true
  }

  ghost predicate BuildSteps(states: seq<BuildState>, events: seq<BuildEvent>, i: nat)
    requires i < |events| && i + 1 < |states|
  {
    BuildEnabled(states[i], events[i]) && states[i + 1] == BuildStep(states[i], events[i])
  }

  ghost predicate IsBuildRun(states: seq<BuildState>, events: seq<BuildEvent>) {
    && |states| == |events| + 1 && states[0] == BuildState(map[], IndexMap([], map[]))
    && forall i :: 0 <= i < |events| ==> BuildSteps(states, events, i)
  }

  // ----- what one step keeps -----------------------------------------------

  /** A build is running or has exactly one outcome; while it runs it awaits someone,
      unless it was started with no daemon at all, and only the daemons it was given to. */
  ghost predicate SlotOk(slot: BuildSlot) {
    && |slot.outcomes| <= 1
    && (slot.running.Some? ==>
          && slot.outcomes == []
          && slot.running.value.pending <= slot.members
          && (slot.running.value.pending == {} <==> slot.members == {}))
  }

  lemma {:induction false} WithoutLostIs(b: Build, lost: seq<DaemonId>)
    ensures WithoutLost(b, lost).pending == b.pending - (set i | 0 <= i < |lost| :: lost[i])
    ensures WithoutLost(b, lost).waiters == b.waiters && WithoutLost(b, lost).startedAt == b.startedAt
    ensures |b.errors| <= |WithoutLost(b, lost).errors|
    ensures WithoutLost(b, lost).errors == b.errors <==> WithoutLost(b, lost) == b
    ensures WithoutLost(b, lost).errors == [] ==> WithoutLost(b, lost) == b
    decreases |lost|
  {
    if lost != [] {
      var b1 := if lost[0] in b.pending
                then b.(pending := b.pending - {lost[0]}, errors := b.errors + [Disconnected(lost[0])]) else b;
      WithoutLostIs(b1, lost[1..]);
      assert (set i | 0 <= i < |lost| :: lost[i]) == {lost[0]} + set i | 0 <= i < |lost[1..]| :: lost[1..][i];
    } else {
      assert b.pending - {} == b.pending;
    }
  }

  lemma SlotStaysOk(id: BuildId, slot: BuildSlot, e: BuildEvent, cached: Option<Outcome>)
    requires SlotOk(slot) && (e.Begin? && e.id == id ==> slot == NO_BUILD)
    ensures SlotOk(BuildSlotStep(id, slot, e, cached))
  {
    if e.Lost? && slot.running.Some? {
      WithoutLostIs(slot.running.value, e.lost);
    }
  }

  // ----- invariant over runs -----------------------------------------------

  /** Every build is running or final, and the cache only holds final outcomes, so
      running and finished builds are disjoint. */
  ghost predicate BuildInv(s: BuildState) {
    && s.finished.Valid()
    && (forall id :: id in s.slots ==> SlotOk(s.slots[id]))
    && (forall id :: id in s.finished.items ==>
          SlotAt(s, id).running.None? && SlotAt(s, id).outcomes == [s.finished.items[id]])
  }

  function OutcomeIn(s: BuildState, e: BuildEvent, id: BuildId): Option<Outcome> {
    NewOutcome(SlotAt(s, id), BuildSlotStep(id, SlotAt(s, id), e, None))
  }

  /** An entry is kept, or is the outcome the build just got. */
  ghost predicate CacheOf(s: BuildState, e: BuildEvent, cache: IndexMap<BuildId, Outcome>) {
    && cache.Valid()
    && forall id :: id in cache.items ==>
         if OutcomeIn(s, e, id).Some? then cache.items[id] == OutcomeIn(s, e, id).value
         else id in s.finished.items && cache.items[id] == s.finished.items[id]
  }

  lemma RememberKeeps(s: BuildState, e: BuildEvent, cache: IndexMap<BuildId, Outcome>, id: BuildId)
    requires CacheOf(s, e, cache) && OutcomeIn(s, e, id).Some?
    ensures CacheOf(s, e, Remember(cache, id, OutcomeIn(s, e, id).value))
  {
    var put := cache.Put(id, OutcomeIn(s, e, id).value);
    assert put.Valid();
    put.DropOldestKeeps(MAX_FINISHED_BUILDS);
  }

  lemma {:induction false} RememberAllKeeps(s: BuildState, e: BuildEvent, cache: IndexMap<BuildId, Outcome>,
                                            order: seq<BuildId>)
    requires CacheOf(s, e, cache)
    ensures CacheOf(s, e, RememberAll(s, cache, order, e))
    decreases |order|
  {
    if order != [] {
      if OutcomeIn(s, e, order[0]).Some? {
        RememberKeeps(s, e, cache, order[0]);
        RememberAllKeeps(s, e, Remember(cache, order[0], OutcomeIn(s, e, order[0]).value), order[1..]);
      } else {
        RememberAllKeeps(s, e, cache, order[1..]);
      }
    }
  }

  lemma FinalSlotStep(id: BuildId, slot: BuildSlot, e: BuildEvent, cached: Option<Outcome>)
    requires SlotOk(slot) && !(e.Begin? && e.id == id)
    ensures slot.running.None? ==>
              BuildSlotStep(id, slot, e, cached).running.None? && BuildSlotStep(id, slot, e, cached).outcomes == slot.outcomes
    ensures NewOutcome(slot, BuildSlotStep(id, slot, e, cached)) == NewOutcome(slot, BuildSlotStep(id, slot, e, None))
    ensures NewOutcome(slot, BuildSlotStep(id, slot, e, cached)).Some? ==>
              && BuildSlotStep(id, slot, e, cached).running.None?
              && BuildSlotStep(id, slot, e, cached).outcomes == [NewOutcome(slot, BuildSlotStep(id, slot, e, cached)).value]
  {
  }

  lemma BuildInvStep(s: BuildState, e: BuildEvent)
    requires BuildInv(s) && BuildEnabled(s, e)
    ensures BuildInv(BuildStep(s, e))
  {
    var s' := BuildStep(s, e);
    forall id | id in s'.slots ensures SlotOk(s'.slots[id]) {
      SlotStaysOk(id, SlotAt(s, id), e, Lookup(s.finished.items, id));
    }
    assert CacheOf(s, e, s.finished);
    RememberAllKeeps(s, e, s.finished, VisitOrder(s, e));
    forall id | id in s'.finished.items
      ensures SlotAt(s', id).running.None? && SlotAt(s', id).outcomes == [s'.finished.items[id]]
    {
      BuildStepIsPointwise(s, e, id);
      FinalSlotStep(id, SlotAt(s, id), e, Lookup(s.finished.items, id));
    }
  }

  /** In every reachable state: running and finished builds are disjoint, every build was
      finalized at most once, and every running build that was given to some daemon still
      awaits one. */
  lemma {:induction false} BuildInvRun(states: seq<BuildState>, events: seq<BuildEvent>, n: nat)
    requires IsBuildRun(states, events) && n <= |events|
    ensures BuildInv(states[n])
  {
    if n > 0 {
      assert BuildSteps(states, events, n - 1);
      BuildInvRun(states, events, n - 1);
      BuildInvStep(states[n - 1], events[n - 1]);
    }
  }

  /** An outcome is final: whatever arrives later, results included, changes nothing. */
  lemma {:induction false} OutcomeIsFinal(states: seq<BuildState>, events: seq<BuildEvent>, id: BuildId, n: nat, m: nat)
    requires IsBuildRun(states, events) && n <= m <= |events| && id in states[n].slots
    requires SlotAt(states[n], id).running.None?
    ensures id in states[m].slots && SlotAt(states[m], id).running.None?
    ensures SlotAt(states[m], id).outcomes == SlotAt(states[n], id).outcomes
    decreases m
  {
    if n < m {
      OutcomeIsFinal(states, events, id, n, m - 1);
      assert BuildSteps(states, events, m - 1);
      BuildInvRun(states, events, m - 1);
      BuildStepIsPointwise(states[m - 1], events[m - 1], id);
    }
  }

  // ----- success means everybody succeeded ---------------------------------

  /** `d` reported success for build `id` at step `k`, and had not been lost since the
      build began at step `b`. */
  ghost predicate Succeeded(events: seq<BuildEvent>, id: BuildId, d: DaemonId, b: nat, k: nat) {
    && b < k < |events| && events[b].Begin? && events[b].id == id
    && events[k] == Result(id, d, true)
    && forall j :: b < j < k ==> !(events[j].Lost? && d in events[j].lost)
  }

  /** One step of a running, error-free build. */
  lemma CleanStep(id: BuildId, slot: BuildSlot, e: BuildEvent, cached: Option<Outcome>, d: DaemonId)
    requires SlotOk(slot) && (e.Begin? && e.id == id ==> slot == NO_BUILD)
    requires var slot' := BuildSlotStep(id, slot, e, cached);
             slot'.running.Some? && slot'.running.value.errors == [] && d in slot'.members
    ensures var slot' := BuildSlotStep(id, slot, e, cached);
            || (e.Begin? && e.id == id && d in slot'.running.value.pending)
            || (&& slot.running.Some? && slot.running.value.errors == [] && d in slot.members
                && (d in slot'.running.value.pending ==>
                      d in slot.running.value.pending && !(e.Lost? && d in e.lost))
                && (d !in slot'.running.value.pending && d in slot.running.value.pending ==> e == Result(id, d, true)))
  {
    if e.Lost? && slot.running.Some? {
      WithoutLostIs(slot.running.value, e.lost);
    }
  }

  /** While `d` is awaited it was not lost since the build began. */
  lemma {:induction false} AwaitedSince(states: seq<BuildState>, events: seq<BuildEvent>, id: BuildId, d: DaemonId, n: nat)
    returns (b: nat)
    requires IsBuildRun(states, events) && n <= |events|
    requires SlotAt(states[n], id).running.Some? && SlotAt(states[n], id).running.value.errors == []
    requires d in SlotAt(states[n], id).members && d in SlotAt(states[n], id).running.value.pending
    ensures b < n && events[b].Begin? && events[b].id == id
    ensures forall j :: b < j < n ==> !(events[j].Lost? && d in events[j].lost)
    decreases n
  {
    var e := events[n - 1];
    assert BuildSteps(states, events, n - 1);
    BuildInvRun(states, events, n - 1);
    BuildStepIsPointwise(states[n - 1], e, id);
    CleanStep(id, SlotAt(states[n - 1], id), e, Lookup(states[n - 1].finished.items, id), d);
    if e.Begin? && e.id == id {
      b := n - 1;
    } else {
      b := AwaitedSince(states, events, id, d, n - 1);
    }
  }

  /** In a running, error-free build, whoever is no longer awaited reported success. */
  lemma {:induction false} ReportedSince(states: seq<BuildState>, events: seq<BuildEvent>, id: BuildId, d: DaemonId,
                                         n: nat)
    returns (b: nat, k: nat)
    requires IsBuildRun(states, events) && n <= |events|
    requires SlotAt(states[n], id).running.Some? && SlotAt(states[n], id).running.value.errors == []
    requires d in SlotAt(states[n], id).members && d !in SlotAt(states[n], id).running.value.pending
    ensures k < n && Succeeded(events, id, d, b, k)
    decreases n
  {
    var e := events[n - 1];
    assert BuildSteps(states, events, n - 1);
    BuildInvRun(states, events, n - 1);
    BuildStepIsPointwise(states[n - 1], e, id);
    CleanStep(id, SlotAt(states[n - 1], id), e, Lookup(states[n - 1].finished.items, id), d);
    if d in SlotAt(states[n - 1], id).running.value.pending {
      b := AwaitedSince(states, events, id, d, n - 1);
      k := n - 1;
    } else {
      b, k := ReportedSince(states, events, id, d, n - 1);
    }
  }

  /** The step that makes a build succeed is the last missing report. */
  lemma SuccessStep(id: BuildId, slot: BuildSlot, e: BuildEvent, cached: Option<Outcome>)
    requires SlotOk(slot) && (e.Begin? && e.id == id ==> slot == NO_BUILD)
    requires slot.outcomes == [] && BuildSlotStep(id, slot, e, cached).outcomes == [Built]
    ensures slot.running.Some? && slot.running.value.errors == [] && BuildSlotStep(id, slot, e, cached).members == slot.members
    ensures e.Result? && e.id == id && e.ok && slot.running.value.pending <= {e.daemon}
  {
    assert BuildSlotStep(id, slot, e, cached).outcomes[0] == Built;
    if e.Lost? && slot.running.Some? {
      WithoutLostIs(slot.running.value, e.lost);
    }
  }

  /** A build succeeds only if every daemon it was given to reported success, and did so
      before being lost. */
  lemma {:induction false} SuccessNeedsEveryone(states: seq<BuildState>, events: seq<BuildEvent>, id: BuildId,
                                                d: DaemonId, n: nat)
    returns (b: nat, k: nat)
    requires IsBuildRun(states, events) && n <= |events|
    requires SlotAt(states[n], id).outcomes == [Built] && d in SlotAt(states[n], id).members
    ensures k < n && Succeeded(events, id, d, b, k)
    decreases n
  {
    var e := events[n - 1];
    assert BuildSteps(states, events, n - 1);
    BuildInvRun(states, events, n - 1);
    BuildStepIsPointwise(states[n - 1], e, id);
    var slot := SlotAt(states[n - 1], id);
    if slot.outcomes == [] {
      SuccessStep(id, slot, e, Lookup(states[n - 1].finished.items, id));
      if d in slot.running.value.pending {
        b := AwaitedSince(states, events, id, d, n - 1);
        k := n - 1;
      } else {
        b, k := ReportedSince(states, events, id, d, n - 1);
      }
    } else {
      b, k := SuccessNeedsEveryone(states, events, id, d, n - 1);
    }
  }

  // ----- every caller is answered once -------------------------------------

  function RepliesTo(replies: seq<BuildReply>, c: Caller): nat {
    if replies == [] then 0 else (if replies[0].caller == c then 1 else 0) + RepliesTo(replies[1..], c)
  }

  lemma {:induction false} RepliesConcat(a: seq<BuildReply>, b: seq<BuildReply>, c: Caller)
    ensures RepliesTo(a + b, c) == RepliesTo(a, c) + RepliesTo(b, c)
  {
    if a == [] {
      assert a + b == b;
    } else {
      assert (a + b)[1..] == a[1..] + b;
      RepliesConcat(a[1..], b, c);
    }
  }

  lemma {:induction false} AnswersAreReplies(callers: seq<Caller>, answer: BuildAnswer, c: Caller)
    ensures RepliesTo(Answers(callers, answer), c) == Times(callers, c)
  {
    if callers != [] {
      assert Answers(callers, answer)[1..] == Answers(callers[1..], answer);
      AnswersAreReplies(callers[1..], answer, c);
    }
  }

  /** How often `c` is parked at a build plus how often it was answered. */
  function BuildAccount(slot: BuildSlot, c: Caller): nat {
    (if slot.running.Some? then Times(slot.running.value.waiters, c) else 0) + RepliesTo(slot.replies, c)
  }

  function Asked(id: BuildId, e: BuildEvent, c: Caller): nat {
    if (e.Begin? || e.Wait?) && e.id == id then Times([e.caller], c) else 0
  }

  lemma FinalizeAccount(slot: BuildSlot, b: Build, outcome: Outcome, c: Caller)
    requires slot.running.Some? && b.waiters == slot.running.value.waiters
    ensures BuildAccount(Finalize(slot, b, outcome), c) == BuildAccount(slot, c)
  {
    RepliesConcat(slot.replies, Answers(b.waiters, BuildFinished(outcome)), c);
    AnswersAreReplies(b.waiters, BuildFinished(outcome), c);
  }

  lemma BuildSlotConserves(id: BuildId, slot: BuildSlot, e: BuildEvent, cached: Option<Outcome>, c: Caller)
    requires e.Begin? && e.id == id ==> slot == NO_BUILD
    ensures BuildAccount(BuildSlotStep(id, slot, e, cached), c) == BuildAccount(slot, c) + Asked(id, e, c)
  {
    match e
    case Begin(_, _, caller, _) =>
      RepliesConcat(slot.replies, [BuildReply(caller, BuildTriggered)], c);
      assert RepliesTo([BuildReply(caller, BuildTriggered)], c) == Times([caller], c);
    case Result(_, d, ok) =>
      if slot.running.Some? {
        var b := Noted(slot.running.value, d, ok);
        FinalizeAccount(slot, b, OutcomeOf(b.errors), c);
      }
    case Lost(lost, _) =>
      if slot.running.Some? {
        WithoutLostIs(slot.running.value, lost);
        var b := WithoutLost(slot.running.value, lost);
        FinalizeAccount(slot, b, OutcomeOf(b.errors), c);
      }
    case Tick(_, _, _) =>
      if slot.running.Some? {
        FinalizeAccount(slot, slot.running.value, BuildTimedOut, c);
      }
    case Wait(_, caller) =>
      var answer := if cached.Some? then BuildFinished(cached.value) else UnknownBuild;
      RepliesConcat(slot.replies, [BuildReply(caller, answer)], c);
      assert RepliesTo([BuildReply(caller, answer)], c) == Times([caller], c);
      if slot.running.Some? {
        TimesConcat(slot.running.value.waiters, [caller], c);
      }
  }

  function AskedInRun(events: seq<BuildEvent>, id: BuildId, c: Caller, n: nat): nat
    requires n <= |events|
  {
    if n == 0 then 0 else AskedInRun(events, id, c, n - 1) + Asked(id, events[n - 1], c)
  }

  /** In every run, every caller of every build is parked or was answered, once for each
      time it asked. */
  lemma {:induction false} BuildRepliesAreConserved(states: seq<BuildState>, events: seq<BuildEvent>, id: BuildId,
                                                    c: Caller, n: nat)
    requires IsBuildRun(states, events) && n <= |events|
    ensures BuildAccount(SlotAt(states[n], id), c) == AskedInRun(events, id, c, n)
  {
    if n > 0 {
      assert BuildSteps(states, events, n - 1);
      BuildRepliesAreConserved(states, events, id, c, n - 1);
      BuildStepIsPointwise(states[n - 1], events[n - 1], id);
      BuildSlotConserves(id, SlotAt(states[n - 1], id), events[n - 1], Lookup(states[n - 1].finished.items, id), c);
    }
  }

  // ----- what callers are told ---------------------------------------------

  /** Every reply about a finished build tells its outcome. */
  ghost predicate RepliesAreTrue(slot: BuildSlot) {
    forall j :: 0 <= j < |slot.replies| && slot.replies[j].answer.BuildFinished? ==>
      slot.outcomes == [slot.replies[j].answer.outcome]
  }

  lemma ReplyStep(id: BuildId, slot: BuildSlot, e: BuildEvent, cached: Option<Outcome>)
    requires SlotOk(slot) && RepliesAreTrue(slot) && (e.Begin? && e.id == id ==> slot == NO_BUILD)
    requires cached.Some? ==> slot.running.None? && slot.outcomes == [cached.value]
    ensures RepliesAreTrue(BuildSlotStep(id, slot, e, cached))
  {
    if slot.running.Some? {
      assert forall j :: 0 <= j < |slot.replies| ==> !slot.replies[j].answer.BuildFinished?;
    }
  }

  /** In every run, whoever is told that a build finished is told its one outcome. */
  lemma {:induction false} RepliesTellTheOutcome(states: seq<BuildState>, events: seq<BuildEvent>, id: BuildId, n: nat)
    requires IsBuildRun(states, events) && n <= |events|
    ensures RepliesAreTrue(SlotAt(states[n], id))
  {
    if n > 0 {
      var s, e := states[n - 1], events[n - 1];
      assert BuildSteps(states, events, n - 1);
      RepliesTellTheOutcome(states, events, id, n - 1);
      BuildInvRun(states, events, n - 1);
      BuildStepIsPointwise(s, e, id);
      ReplyStep(id, SlotAt(s, id), e, Lookup(s.finished.items, id));
    }
  }

  /** Whoever waits for a build when it ends is told its outcome in that very step. */
  lemma WaiterIsTold(states: seq<BuildState>, events: seq<BuildEvent>, id: BuildId, n: nat, c: Caller) returns (j: nat)
    requires IsBuildRun(states, events) && n < |events|
    requires SlotAt(states[n], id).running.Some? && SlotAt(states[n + 1], id).running.None?
    requires c in SlotAt(states[n], id).running.value.waiters
    ensures |SlotAt(states[n], id).replies| <= j < |SlotAt(states[n + 1], id).replies|
    ensures SlotAt(states[n + 1], id).replies[j].caller == c
    ensures SlotAt(states[n + 1], id).replies[j].answer.BuildFinished?
    ensures SlotAt(states[n + 1], id).outcomes == [SlotAt(states[n + 1], id).replies[j].answer.outcome]
  {
    var slot, slot', e := SlotAt(states[n], id), SlotAt(states[n + 1], id), events[n];
    assert BuildSteps(states, events, n);
    BuildStepIsPointwise(states[n], e, id);
    RepliesTellTheOutcome(states, events, id, n + 1);
    j := EndingReply(id, slot, e, Lookup(states[n].finished.items, id), c);
  }

  lemma EndingReply(id: BuildId, slot: BuildSlot, e: BuildEvent, cached: Option<Outcome>, c: Caller) returns (j: nat)
    requires slot.running.Some? && c in slot.running.value.waiters && !(e.Begin? && e.id == id)
    requires BuildSlotStep(id, slot, e, cached).running.None?
    ensures var slot' := BuildSlotStep(id, slot, e, cached);
            && |slot.replies| <= j < |slot'.replies|
            && slot'.replies[j].caller == c && slot'.replies[j].answer.BuildFinished?
  {
    var waiters := slot.running.value.waiters;
    var i :| 0 <= i < |waiters| && waiters[i] == c;
    if e.Lost? {
      WithoutLostIs(slot.running.value, e.lost);
    }
    j := |slot.replies| + i;
  }

  /** A caller that asks for a build waits while it runs, is told the cached outcome once it
      is over, and is refused only if nothing is cached for it. */
  lemma WaitIsAnswered(states: seq<BuildState>, events: seq<BuildEvent>, n: nat)
    requires IsBuildRun(states, events) && n < |events| && events[n].Wait?
    ensures var slot, slot' := SlotAt(states[n], events[n].id), SlotAt(states[n + 1], events[n].id);
            if slot.running.Some? then
              && slot'.replies == slot.replies && slot'.running.Some?
              && slot'.running.value.waiters == slot.running.value.waiters + [events[n].caller]
            else if events[n].id in states[n].finished.items then
              && |slot.outcomes| == 1
              && slot'.replies == slot.replies + [BuildReply(events[n].caller, BuildFinished(slot.outcomes[0]))]
            else
              slot'.replies == slot.replies + [BuildReply(events[n].caller, UnknownBuild)]
  {
    assert BuildSteps(states, events, n);
    BuildInvRun(states, events, n);
    BuildStepIsPointwise(states[n], events[n], events[n].id);
  }

  /** The outcome of a build that a result completes is in the cache right after. */
  lemma ResultIsCached(states: seq<BuildState>, events: seq<BuildEvent>, n: nat)
    requires IsBuildRun(states, events) && n < |events| && events[n].Result?
    requires SlotAt(states[n], events[n].id).running.Some? && SlotAt(states[n + 1], events[n].id).running.None?
    ensures events[n].id in states[n + 1].finished.items
    ensures SlotAt(states[n + 1], events[n].id).outcomes == [states[n + 1].finished.items[events[n].id]]
  {
    var s, e, id := states[n], events[n], events[n].id;
    assert BuildSteps(states, events, n);
    BuildInvRun(states, events, n);
    BuildInvRun(states, events, n + 1);
    BuildStepIsPointwise(s, e, id);
    FinalSlotStep(id, SlotAt(s, id), e, Lookup(s.finished.items, id));
    var outcome := NewOutcome(SlotAt(s, id), BuildSlotStep(id, SlotAt(s, id), e, None));
    assert outcome.Some?;
    RemembersOne(s, s.finished, id, e);
    NewestStays(s.finished, id, outcome.value);
  }

  lemma RemembersOne(s: BuildState, cache: IndexMap<BuildId, Outcome>, id: BuildId, e: BuildEvent)
    requires OutcomeIn(s, e, id).Some?
    ensures RememberAll(s, cache, [id], e) == Remember(cache, id, OutcomeIn(s, e, id).value)
  {
    var cache' := Remember(cache, id, OutcomeIn(s, e, id).value);
    assert [id][1..] == [];
    assert RememberAll(s, cache', [], e) == cache';
  }

  lemma NewestStays(cache: IndexMap<BuildId, Outcome>, id: BuildId, outcome: Outcome)
    requires cache.Valid() && id !in cache.items
    ensures id in Remember(cache, id, outcome).items
  {
    var put := cache.Put(id, outcome);
    if |put.keys| > MAX_FINISHED_BUILDS {
      var n := |put.keys| - MAX_FINISHED_BUILDS;
      assert id !in cache.keys && put.keys[..n] == cache.keys[..n];
    }
  }

  // ----- what an outcome says ----------------------------------------------

  /** `e` is a cause for the error `x` of build `id`. */
  predicate Causes(e: BuildEvent, id: BuildId, x: BuildError) {
    match x
    case Reported(d) => e == Result(id, d, false)
    case Disconnected(d) => e.Lost? && d in e.lost
  }

  /** Every error of the build, running or failed, happened since it began. */
  ghost predicate ErrorsHappened(slot: BuildSlot, events: seq<BuildEvent>, id: BuildId, n: nat)
    requires n <= |events|
  {
    && (slot.running.Some? ==> forall x :: x in slot.running.value.errors ==> Happened(events, id, n, x))
    && (forall o :: o in slot.outcomes && o.BuildFailed? ==>
          o.errors != [] && forall x :: x in o.errors ==> Happened(events, id, n, x))
  }

  ghost predicate Happened(events: seq<BuildEvent>, id: BuildId, n: nat, x: BuildError)
    requires n <= |events|
  {
    exists k :: 0 <= k < n && Causes(events[k], id, x)
  }

  lemma {:induction false} LostErrors(b: Build, lost: seq<DaemonId>, x: BuildError)
    requires x in WithoutLost(b, lost).errors
    ensures x in b.errors || (x.Disconnected? && x.daemon in lost)
    decreases |lost|
  {
    if lost != [] {
      var b1 := if lost[0] in b.pending
                then b.(pending := b.pending - {lost[0]}, errors := b.errors + [Disconnected(lost[0])]) else b;
      LostErrors(b1, lost[1..], x);
    }
  }

  lemma ErrorStep(id: BuildId, slot: BuildSlot, e: BuildEvent, cached: Option<Outcome>, x: BuildError)
    requires e.Begin? && e.id == id ==> slot == NO_BUILD
    requires var slot' := BuildSlotStep(id, slot, e, cached);
             || (slot'.running.Some? && x in slot'.running.value.errors)
             || (exists o :: o in slot'.outcomes && o !in slot.outcomes && o.BuildFailed? && x in o.errors)
    ensures (slot.running.Some? && x in slot.running.value.errors) || Causes(e, id, x)
  {
    if e.Lost? && slot.running.Some? {
      var b := WithoutLost(slot.running.value, e.lost);
      if x in b.errors {
        LostErrors(slot.running.value, e.lost, x);
      }
    }
  }

  /** A failed build names at least one error, and every error it names is a failure its
      daemon reported or a daemon that was lost. */
  lemma {:induction false} ErrorsAreReal(states: seq<BuildState>, events: seq<BuildEvent>, id: BuildId, n: nat)
    requires IsBuildRun(states, events) && n <= |events|
    ensures ErrorsHappened(SlotAt(states[n], id), events, id, n)
  {
    if n > 0 {
      var s, e := states[n - 1], events[n - 1];
      var slot, cached := SlotAt(s, id), Lookup(s.finished.items, id);
      var slot' := BuildSlotStep(id, slot, e, cached);
      assert BuildSteps(states, events, n - 1);
      ErrorsAreReal(states, events, id, n - 1);
      BuildStepIsPointwise(s, e, id);
      forall x | slot'.running.Some? && x in slot'.running.value.errors
        ensures Happened(events, id, n, x)
      {
        ErrorStep(id, slot, e, cached, x);
        StillHappened(events, id, n, x, slot);
      }
      forall o | o in slot'.outcomes && o.BuildFailed?
        ensures o.errors != [] && forall x :: x in o.errors ==> Happened(events, id, n, x)
      {
        OutcomeErrors(events, id, n, slot, cached, o);
      }
    }
  }

  lemma StillHappened(events: seq<BuildEvent>, id: BuildId, n: nat, x: BuildError, slot: BuildSlot)
    requires 0 < n <= |events| && ErrorsHappened(slot, events, id, n - 1)
    requires (slot.running.Some? && x in slot.running.value.errors) || Causes(events[n - 1], id, x)
    ensures Happened(events, id, n, x)
  {
    if !Causes(events[n - 1], id, x) {
      var k :| 0 <= k < n - 1 && Causes(events[k], id, x);
    }
  }

  lemma OutcomeErrors(events: seq<BuildEvent>, id: BuildId, n: nat, slot: BuildSlot, cached: Option<Outcome>, o: Outcome)
    requires 0 < n <= |events| && ErrorsHappened(slot, events, id, n - 1)
    requires events[n - 1].Begin? && events[n - 1].id == id ==> slot == NO_BUILD
    requires o in BuildSlotStep(id, slot, events[n - 1], cached).outcomes && o.BuildFailed?
    ensures o.errors != [] && forall x :: x in o.errors ==> Happened(events, id, n, x)
  {
    var e := events[n - 1];
    if o in slot.outcomes {
      forall x | x in o.errors
        ensures Happened(events, id, n, x)
      {
        var k :| 0 <= k < n - 1 && Causes(events[k], id, x);
      }
    } else {
      forall x | x in o.errors
        ensures Happened(events, id, n, x)
      {
        ErrorStep(id, slot, e, cached, x);
        StillHappened(events, id, n, x, slot);
      }
    }
  }

  // ----- exactly when a build succeeds -------------------------------------

  /** The daemons that reported success for `id` between `b` and `n`. */
  ghost function Succeeders(events: seq<BuildEvent>, id: BuildId, b: nat, n: nat): set<DaemonId>
    requires b <= n <= |events|
    decreases n - b
  {
    if n <= b + 1 then {}
    else Succeeders(events, id, b, n - 1)
         + if events[n - 1].Result? && events[n - 1].id == id && events[n - 1].ok then {events[n - 1].daemon} else {}
  }

  /** `e` spoils build `id`, which began at `since` and still awaits `awaited`: a failure
      report, the loss of an awaited daemon, or a timeout. */
  predicate Spoils(e: BuildEvent, id: BuildId, awaited: set<DaemonId>, since: Millis) {
    || (e.Result? && e.id == id && !e.ok)
    || (e.Lost? && exists d :: d in awaited && d in e.lost)
    || (e.Tick? && e.now > since + e.timeout)
  }

  /** Since it began, `id` awaits exactly the daemons that have not succeeded. */
  ghost predicate OnTrack(slot: BuildSlot, daemons: set<DaemonId>, done: set<DaemonId>, since: Millis) {
    && slot.running.Some? && slot.running.value.errors == [] && slot.running.value.startedAt == since
    && slot.running.value.pending == daemons - done && slot.outcomes == []
  }

  lemma {:induction false} LostOthers(b: Build, lost: seq<DaemonId>)
    requires forall d :: d in b.pending ==> d !in lost
    ensures WithoutLost(b, lost) == b
    decreases |lost|
  {
    if lost != [] {
      assert lost[0] !in b.pending;
      LostOthers(b, lost[1..]);
    }
  }

  lemma OnTrackStep(id: BuildId, slot: BuildSlot, e: BuildEvent, cached: Option<Outcome>, daemons: set<DaemonId>,
                    done: set<DaemonId>, since: Millis)
    requires OnTrack(slot, daemons, done, since) && !(e.Begin? && e.id == id)
    requires !Spoils(e, id, daemons - done, since) && !(daemons <= done)
    ensures var slot' := BuildSlotStep(id, slot, e, cached);
            var done' := done + if e.Result? && e.id == id && e.ok then {e.daemon} else {};
            if daemons <= done' then slot'.running.None? && slot'.outcomes == [Built]
            else OnTrack(slot', daemons, done', since)
  {
    var b := slot.running.value;
    match e
    case Result(i, d, ok) =>
      assert (daemons - done) - {d} == daemons - (done + {d});
      assert daemons - (done + {d}) == {} <==> daemons <= done + {d};
      assert done + {} == done;
    case Lost(lost, _) =>
      LostOthers(b, lost);
      assert done + {} == done;
    case _ =>
      assert done + {} == done;
  }

  /** Nothing spoils build `id` between its beginning at `b` and the last success. */
  ghost predicate Unspoiled(events: seq<BuildEvent>, id: BuildId, b: nat, n: nat)
    requires b < n <= |events| && events[b].Begin?
  {
    forall j :: b < j < n && !(events[b].daemons <= Succeeders(events, id, b, j)) ==>
      !Spoils(events[j], id, events[b].daemons - Succeeders(events, id, b, j), events[b].now)
  }

  /** Built, or still on track. */
  ghost predicate BuiltOrOnTrack(slot: BuildSlot, daemons: set<DaemonId>, done: set<DaemonId>, since: Millis) {
    if daemons <= done then slot.running.None? && slot.outcomes == [Built] else OnTrack(slot, daemons, done, since)
  }

  lemma BeginsOnTrack(s: BuildState, e: BuildEvent, id: BuildId)
    requires BuildEnabled(s, e) && e.Begin? && e.id == id && e.daemons != {}
    ensures BuiltOrOnTrack(SlotAt(BuildStep(s, e), id), e.daemons, {}, e.now)
  {
    BuildStepIsPointwise(s, e, id);
    assert SlotAt(s, id) == NO_BUILD;
    assert e.daemons - {} == e.daemons;
  }

  lemma StaysOnTrack(s: BuildState, e: BuildEvent, id: BuildId, daemons: set<DaemonId>, done: set<DaemonId>,
                     since: Millis)
    requires BuildEnabled(s, e) && id in s.slots && BuiltOrOnTrack(SlotAt(s, id), daemons, done, since)
    requires !(daemons <= done) ==> !Spoils(e, id, daemons - done, since)
    requires daemons <= done ==> SlotOk(SlotAt(s, id))
    ensures BuiltOrOnTrack(SlotAt(BuildStep(s, e), id), daemons,
                           done + if e.Result? && e.id == id && e.ok then {e.daemon} else {}, since)
  {
    BuildStepIsPointwise(s, e, id);
    if daemons <= done {
      FinalSlotStep(id, SlotAt(s, id), e, Lookup(s.finished.items, id));
    } else {
      OnTrackStep(id, SlotAt(s, id), e, Lookup(s.finished.items, id), daemons, done, since);
    }
  }

  lemma OnTrackInRun(states: seq<BuildState>, events: seq<BuildEvent>, i: nat, id: BuildId, daemons: set<DaemonId>,
                     done: set<DaemonId>, since: Millis)
    requires IsBuildRun(states, events) && i < |events| && id in states[i].slots
    requires BuiltOrOnTrack(SlotAt(states[i], id), daemons, done, since)
    requires !(daemons <= done) ==> !Spoils(events[i], id, daemons - done, since)
    ensures var done' := done + if events[i].Result? && events[i].id == id && events[i].ok then {events[i].daemon} else {};
            BuiltOrOnTrack(SlotAt(states[i + 1], id), daemons, done', since)
  {
    assert BuildSteps(states, events, i);
    BuildInvRun(states, events, i);
    StaysOnTrack(states[i], events[i], id, daemons, done, since);
  }

  lemma UnspoiledBefore(events: seq<BuildEvent>, id: BuildId, b: nat, n: nat)
    requires b + 1 < n <= |events| && events[b].Begin? && Unspoiled(events, id, b, n)
    ensures Unspoiled(events, id, b, n - 1)
    ensures var daemons, done := events[b].daemons, Succeeders(events, id, b, n - 1);
            !(daemons <= done) ==> !Spoils(events[n - 1], id, daemons - done, events[b].now)
  {
  }

  lemma ProgressStep(states: seq<BuildState>, events: seq<BuildEvent>, id: BuildId, b: nat, n: nat)
    requires IsBuildRun(states, events) && b + 1 < n <= |events|
    requires events[b].Begin? && events[b].id == id && Unspoiled(events, id, b, n)
    requires BuiltOrOnTrack(SlotAt(states[n - 1], id), events[b].daemons, Succeeders(events, id, b, n - 1), events[b].now)
    ensures BuiltOrOnTrack(SlotAt(states[n], id), events[b].daemons, Succeeders(events, id, b, n), events[b].now)
  {
    KnownSince(states, events, id, b, n - 1);
    UnspoiledBefore(events, id, b, n);
    OnTrackInRun(states, events, n - 1, id, events[b].daemons, Succeeders(events, id, b, n - 1), events[b].now);
  }

  /** While nothing spoils it, a build awaits exactly who has not succeeded; it is built at
      the last success. */
  lemma {:induction false} SuccessProgress(states: seq<BuildState>, events: seq<BuildEvent>, id: BuildId, b: nat, n: nat)
    requires IsBuildRun(states, events) && b < n <= |events|
    requires events[b].Begin? && events[b].id == id && events[b].daemons != {} && Unspoiled(events, id, b, n)
    ensures BuiltOrOnTrack(SlotAt(states[n], id), events[b].daemons, Succeeders(events, id, b, n), events[b].now)
    decreases n
  {
    if n == b + 1 {
      assert BuildSteps(states, events, b);
      BeginsOnTrack(states[b], events[b], id);
    } else {
      UnspoiledBefore(events, id, b, n);
      SuccessProgress(states, events, id, b, n - 1);
      ProgressStep(states, events, id, b, n);
    }
  }

  lemma {:induction false} KnownSince(states: seq<BuildState>, events: seq<BuildEvent>, id: BuildId, b: nat, n: nat)
    requires IsBuildRun(states, events) && b < n <= |events| && events[b].Begin? && events[b].id == id
    ensures id in states[n].slots
    decreases n
  {
    assert BuildSteps(states, events, n - 1);
    if n > b + 1 {
      KnownSince(states, events, id, b, n - 1);
    }
  }

  /** The converse of `SuccessNeedsEveryone`: if every daemon a build was given to reports
      success, and until the last of them does there is no failure report, no loss of a
      daemon still awaited and no timeout, then the build succeeds. */
  lemma EveryoneSucceedsIsBuilt(states: seq<BuildState>, events: seq<BuildEvent>, id: BuildId, b: nat, n: nat)
    requires IsBuildRun(states, events) && b < n <= |events|
    requires events[b].Begin? && events[b].id == id && events[b].daemons != {}
    requires events[b].daemons <= Succeeders(events, id, b, n) && Unspoiled(events, id, b, n)
    ensures SlotAt(states[n], id).running.None? && SlotAt(states[n], id).outcomes == [Built]
  {
    SuccessProgress(states, events, id, b, n);
  }

  /** A build keeps the time it began at. */
  lemma {:induction false} StartedWhen(states: seq<BuildState>, events: seq<BuildEvent>, id: BuildId, n: nat)
    returns (b: nat)
    requires IsBuildRun(states, events) && n <= |events| && SlotAt(states[n], id).running.Some?
    ensures b < n && events[b].Begin? && events[b].id == id
    ensures SlotAt(states[n], id).running.value.startedAt == events[b].now
    ensures SlotAt(states[n], id).members == events[b].daemons
    decreases n
  {
    var s, e := states[n - 1], events[n - 1];
    assert BuildSteps(states, events, n - 1);
    BuildStepIsPointwise(s, e, id);
    if e.Begin? && e.id == id {
      b := n - 1;
    } else {
      if e.Lost? && SlotAt(s, id).running.Some? {
        WithoutLostIs(SlotAt(s, id).running.value, e.lost);
      }
      b := StartedWhen(states, events, id, n - 1);
    }
  }

  /** The errors of a build so far, or those it failed with. */
  function ErrorsOf(slot: BuildSlot): seq<BuildError> {
    if slot.running.Some? then slot.running.value.errors
    else if |slot.outcomes| == 1 && slot.outcomes[0].BuildFailed? then slot.outcomes[0].errors
    else []
  }

  lemma {:induction false} LostAppends(b: Build, lost: seq<DaemonId>)
    ensures b.errors <= WithoutLost(b, lost).errors
    decreases |lost|
  {
    if lost != [] {
      if lost[0] in b.pending {
        LostAppends(b.(pending := b.pending - {lost[0]}, errors := b.errors + [Disconnected(lost[0])]), lost[1..]);
      } else {
        LostAppends(b, lost[1..]);
      }
    }
  }

  /** A running build collects errors in the order in which they come. */
  lemma ErrorsAppend(id: BuildId, slot: BuildSlot, e: BuildEvent, cached: Option<Outcome>)
    requires SlotOk(slot) && slot.running.Some? && !(e.Begin? && e.id == id)
    ensures var slot' := BuildSlotStep(id, slot, e, cached);
            && (slot'.running.Some? || slot'.outcomes[0].BuildFailed? ==> ErrorsOf(slot) <= ErrorsOf(slot'))
            && (e.Result? && e.id == id && !e.ok ==> ErrorsOf(slot') == ErrorsOf(slot) + [Reported(e.daemon)])
  {
    if e.Lost? {
      LostAppends(slot.running.value, e.lost);
    }
  }

  lemma {:induction false} StaysKnown(states: seq<BuildState>, events: seq<BuildEvent>, id: BuildId, i: nat, n: nat)
    requires IsBuildRun(states, events) && i <= n <= |events| && id in states[i].slots
    ensures id in states[n].slots
    decreases n
  {
    if i < n {
      assert BuildSteps(states, events, n - 1);
      StaysKnown(states, events, id, i, n - 1);
    }
  }

  /** Over runs: what a running build has collected stays in front, to the end. */
  lemma {:induction false} ErrorsKeepTheirOrder(states: seq<BuildState>, events: seq<BuildEvent>, id: BuildId, i: nat, n: nat)
    requires IsBuildRun(states, events) && i <= n <= |events| && SlotAt(states[i], id).running.Some?
    requires SlotAt(states[n], id).running.Some? || exists es :: SlotAt(states[n], id).outcomes == [BuildFailed(es)]
    ensures ErrorsOf(SlotAt(states[i], id)) <= ErrorsOf(SlotAt(states[n], id))
    decreases n
  {
    if i < n {
      var s, e := states[n - 1], events[n - 1];
      assert BuildSteps(states, events, n - 1);
      BuildInvRun(states, events, n - 1);
      StaysKnown(states, events, id, i, n - 1);
      BuildStepIsPointwise(s, e, id);
      if SlotAt(s, id).running.Some? {
        ErrorsKeepTheirOrder(states, events, id, i, n - 1);
        ErrorsAppend(id, SlotAt(s, id), e, Lookup(s.finished.items, id));
      } else {
        OutcomeIsFinal(states, events, id, n - 1, n);
        ErrorsKeepTheirOrder(states, events, id, i, n - 1);
      }
    }
  }

  lemma {:induction false} RememberAllBounded(s: BuildState, finished: IndexMap<BuildId, Outcome>, order: seq<BuildId>,
                                              e: BuildEvent)
    requires |finished.keys| <= MAX_FINISHED_BUILDS
    ensures |RememberAll(s, finished, order, e).keys| <= MAX_FINISHED_BUILDS
    decreases |order|
  {
    if order != [] {
      var outcome := OutcomeIn(s, e, order[0]);
      if outcome.Some? {
        finished.Put(order[0], outcome.value).DropOldestKeeps(MAX_FINISHED_BUILDS);
        RememberAllBounded(s, Remember(finished, order[0], outcome.value), order[1..], e);
      } else {
        RememberAllBounded(s, finished, order[1..], e);
      }
    }
  }

  /** At most 100 finished builds are cached. */
  lemma {:induction false} CacheStaysBounded(states: seq<BuildState>, events: seq<BuildEvent>, n: nat)
    requires IsBuildRun(states, events) && n <= |events|
    ensures |states[n].finished.keys| <= 100
  {
    if n > 0 {
      assert BuildSteps(states, events, n - 1);
      CacheStaysBounded(states, events, n - 1);
      RememberAllBounded(states[n - 1], states[n - 1].finished, VisitOrder(states[n - 1], events[n - 1]), events[n - 1]);
    }
  }

  /** A tick gives up on a running build exactly if it began longer ago than the timeout,
      and leaves it untouched otherwise. */
  lemma TimesOutIff(states: seq<BuildState>, events: seq<BuildEvent>, id: BuildId, n: nat) returns (b: nat)
    requires IsBuildRun(states, events) && n < |events| && events[n].Tick? && SlotAt(states[n], id).running.Some?
    ensures b < n && events[b].Begin? && events[b].id == id
    ensures events[n].now > events[b].now + events[n].timeout ==> SlotAt(states[n + 1], id).outcomes == [BuildTimedOut]
    ensures events[n].now <= events[b].now + events[n].timeout ==> SlotAt(states[n + 1], id) == SlotAt(states[n], id)
  {
    b := StartedWhen(states, events, id, n);
    assert BuildSteps(states, events, n);
    BuildInvRun(states, events, n);
    BuildStepIsPointwise(states[n], events[n], id);
  }

  // ----- the table, updated in place ---------------------------------------

  /** Removes lost daemons from one build, one after the other. */
  method PruneLost(b: Build, lost: seq<DaemonId>) returns (b': Build, pruned: bool)
    ensures b' == WithoutLost(b, lost)
    ensures pruned ==> b.pending != {}
    ensures !pruned ==> b' == b
  {
    b', pruned := b, false;
    var i := 0;
    assert lost[0..] == lost;
    while i < |lost|
      invariant 0 <= i <= |lost|
      invariant WithoutLost(b', lost[i..]) == WithoutLost(b, lost)
      invariant pruned ==> b.pending != {}
      invariant !pruned ==> b' == b
    {
      assert lost[i..][1..] == lost[i + 1..];
      if lost[i] in b'.pending {
        b' := b'.(pending := b'.pending - {lost[i]}, errors := b'.errors + [Disconnected(lost[i])]);
        pruned := true;
      }
      i := i + 1;
    }
  }

  class BuildTable {
    var running: map<BuildId, Build>
    var finished: IndexMap<BuildId, Outcome>
    var replies: map<BuildId, seq<BuildReply>>
    ghost var members: map<BuildId, set<DaemonId>>
    ghost var outcomes: map<BuildId, seq<Outcome>>
    ghost var known: set<BuildId>

    ghost function SlotOf(id: BuildId): BuildSlot
      reads this`running, this`replies, this`members, this`outcomes
    {
      BuildSlot(if id in members then members[id] else {}, Lookup(running, id),
                if id in outcomes then outcomes[id] else [], if id in replies then replies[id] else [])
    }

    ghost predicate Valid()
      reads this
    {
      forall id :: id !in known ==> SlotOf(id) == NO_BUILD
    }

    ghost function View(): BuildState
      reads this
    {
      BuildState(map id | id in known :: SlotOf(id), finished)
    }

    twostate predicate Only(id: BuildId)
      reads this`running, this`replies, this`members, this`outcomes
    {
      forall i :: i != id ==> SlotOf(i) == old(SlotOf(i))
    }

    lemma Snapshot() returns (s: BuildState)
      requires Valid()
      ensures s == View() && forall id :: SlotAt(s, id) == SlotOf(id)
      ensures RunningBuilds(s) == running
    {
      s := View();
      forall id
        ensures id in running <==> id in RunningBuilds(s)
      {
        assert id !in known ==> SlotOf(id) == NO_BUILD;
      }
    }

    lemma TakesStep(s: BuildState, e: BuildEvent)
      requires known == s.slots.Keys + Touches(e) && finished == RememberAll(s, s.finished, VisitOrder(s, e), e)
      requires forall id :: SlotOf(id) == BuildSlotStep(id, SlotAt(s, id), e, Lookup(s.finished.items, id))
      ensures Valid() && View() == BuildStep(s, e)
    {
      assert View().slots == BuildStep(s, e).slots;
    }

    constructor ()
      ensures Valid() && View() == BuildState(map[], IndexMap([], map[]))
    {
      running, finished, replies := map[], IndexMap([], map[]), map[];
      members, outcomes, known := map[], map[], {};
    }

    method Send(id: BuildId, caller: Caller, answer: BuildAnswer)
      modifies this`replies
      ensures SlotOf(id) == old(SlotOf(id)).(replies := old(SlotOf(id)).replies + [BuildReply(caller, answer)]) && Only(id)
    {
      replies := replies[id := (if id in replies then replies[id] else []) + [BuildReply(caller, answer)]];
    }

    method AnswerAll(id: BuildId, callers: seq<Caller>, answer: BuildAnswer)
      modifies this`replies
      ensures SlotOf(id) == old(SlotOf(id)).(replies := old(SlotOf(id)).replies + Answers(callers, answer)) && Only(id)
    {
      var i := 0;
      assert old(SlotOf(id)).replies + [] == old(SlotOf(id)).replies;
      while i < |callers|
        invariant 0 <= i <= |callers|
        invariant SlotOf(id) == old(SlotOf(id)).(replies := old(SlotOf(id)).replies + Answers(callers, answer)[..i])
        invariant Only(id)
      {
        Send(id, callers[i], answer);
        assert Answers(callers, answer)[..i + 1] == Answers(callers, answer)[..i] + [BuildReply(callers[i], answer)];
        i := i + 1;
      }
      assert Answers(callers, answer)[..|callers|] == Answers(callers, answer);
    }

    /** Resolves the waiters of a build and caches its outcome. */
    method FinalizeBuild(id: BuildId, outcome: Outcome)
      requires id in running
      modifies this`running, this`finished, this`replies, this`outcomes
      ensures SlotOf(id) == Finalize(old(SlotOf(id)), old(running[id]), outcome) && Only(id)
      ensures running == old(running) - {id} && finished == Remember(old(finished), id, outcome)
    {
      ResolveWaiters(id, outcome);
      finished := finished.Put(id, outcome);
      finished := EvictOldest(finished, MAX_FINISHED_BUILDS);
    }

    method ResolveWaiters(id: BuildId, outcome: Outcome)
      requires id in running
      modifies this`running, this`replies, this`outcomes
      ensures SlotOf(id) == Finalize(old(SlotOf(id)), old(running[id]), outcome) && Only(id)
      ensures running == old(running) - {id}
    {
      var b := running[id];
      AnswerAll(id, b.waiters, BuildFinished(outcome));
      running := running - {id};
      outcomes := outcomes[id := (if id in outcomes then outcomes[id] else []) + [outcome]];
    }

    method HandleBuild(id: BuildId, daemons: set<DaemonId>, caller: Caller, now: Millis)
      requires Valid() && id !in known
      modifies this
      ensures Valid() && View() == BuildStep(old(View()), Begin(id, daemons, caller, now))
    {
      ghost var s := Snapshot();
      running := running[id := Build(daemons, [], [], now)];
      members := members[id := daemons];
      Send(id, caller, BuildTriggered);
      known := known + {id};
      TakesStep(s, Begin(id, daemons, caller, now));
    }

    method HandleWait(id: BuildId, caller: Caller)
      requires Valid()
      modifies this
      ensures Valid() && View() == BuildStep(old(View()), Wait(id, caller))
    {
      ghost var s := Snapshot();
      OnWait(id, caller);
      known := known + {id};
      TakesStep(s, Wait(id, caller));
    }

    method OnWait(id: BuildId, caller: Caller)
      modifies this`running, this`replies
      ensures SlotOf(id) == WaitSlot(old(SlotOf(id)), caller, Lookup(finished.items, id)) && Only(id)
    {
      if id in running {
        running := running[id := running[id].(waiters := running[id].waiters + [caller])];
      } else if id in finished.items {
        Send(id, caller, BuildFinished(finished.items[id]));
      } else {
        Send(id, caller, UnknownBuild);
      }
    }

    method OnResult(id: BuildId, d: DaemonId, ok: bool)
      modifies this`running, this`finished, this`replies, this`outcomes
      ensures SlotOf(id) == ResultSlot(old(SlotOf(id)), d, ok) && Only(id)
      ensures finished == if id in old(running) && Noted(old(running)[id], d, ok).pending == {}
                          then Remember(old(finished), id, OutcomeOf(Noted(old(running)[id], d, ok).errors))
                          else old(finished)
    {
      if id in running {
        running := running[id := Noted(running[id], d, ok)];
        if running[id].pending == {} {
          FinalizeBuild(id, if running[id].errors == [] then Built else BuildFailed(running[id].errors));
        }
      }
    }

    method HandleResult(id: BuildId, d: DaemonId, ok: bool)
      requires Valid()
      modifies this
      ensures Valid() && View() == BuildStep(old(View()), Result(id, d, ok))
    {
      ghost var s := Snapshot();
      OnResult(id, d, ok);
      known := known + {id};
      ResultRemembers(s, id, d, ok);
      TakesStep(s, Result(id, d, ok));
    }

    /** Prunes lost daemons from one running build; `gone` if that was all it waited for. */
    method PruneBuild(id: BuildId, lost: seq<DaemonId>) returns (gone: bool)
      requires id in running
      modifies this`running
      ensures running == old(running)[id := WithoutLost(old(running)[id], lost)]
      ensures gone == Emptied(old(running)[id], lost)
    {
      var b, pruned := PruneLost(running[id], lost);
      EmptiedIff(running[id], lost, pruned);
      running := running[id := b];
      gone := pruned && b.pending == {};
    }

    /** Prunes lost daemons from every running build and collects those left without any. */
    method PruneBuilds(lost: seq<DaemonId>, order: seq<BuildId>) returns (emptied: seq<BuildId>)
      requires Distinct(order) && forall id :: id in order <==> id in running
      modifies this`running
      ensures running == AllPruned(old(running), IdsOf(order), lost)
      ensures emptied == EmptiedIn(order, old(running), lost)
    {
      ghost var before := running;
      ghost var done: set<BuildId> := {};
      emptied := [];
      var i := 0;
      assert order[0..] == order;
      assert running == AllPruned(before, done, lost);
      while i < |order|
        invariant 0 <= i <= |order|
        invariant done == (set k | 0 <= k < i :: order[k]) && running == AllPruned(before, done, lost)
        invariant Collecting(emptied, order[i..], before, lost, EmptiedIn(order, before, lost))
      {
        var id := order[i];
        assert id !in done;
        CollectNext(emptied, order, i, before, lost, EmptiedIn(order, before, lost));
        PrunedNext(before, done, lost, id);
        var gone := PruneBuild(id, lost);
        if gone {
          emptied := emptied + [id];
        }
        done := done + {id};
        i := i + 1;
      }
      assert done == IdsOf(order);
      assert Open(0);
    }

    method FinalizeNext(ids: seq<BuildId>, i: nat, outcome: Outcome, ghost outs: map<BuildId, Outcome>,
                        ghost start: IndexMap<BuildId, Outcome>)
      requires i < |ids| && ids[i] in running && ids[i] in outs && outs[ids[i]] == outcome
      requires Remembered(start, ids[..i], outs, finished)
      modifies this`running, this`finished, this`replies, this`outcomes
      ensures SlotOf(ids[i]) == Finalize(old(SlotOf(ids[i])), old(running)[ids[i]], outcome) && Only(ids[i])
      ensures running == old(running) - {ids[i]}
      ensures Remembered(start, ids[..i + 1], outs, finished)
    {
      RememberedNext(start, ids, i, outs, finished);
      FinalizeBuild(ids[i], outcome);
    }

    /** Finalizes builds that lost their last awaited daemon. */
    method FinalizeEmptied(ids: seq<BuildId>)
      requires Distinct(ids) && forall id :: id in ids ==> id in running
      modifies this`running, this`finished, this`replies, this`outcomes
      ensures forall id :: id !in ids ==> SlotOf(id) == old(SlotOf(id))
      ensures forall id :: id in ids ==>
                SlotOf(id) == Finalize(old(SlotOf(id)), old(running)[id], OutcomeOf(old(running)[id].errors))
      ensures Remembered(old(finished), ids, ErrorOutcomes(old(running)), finished)
    {
      ghost var builds, outs := running, ErrorOutcomes(running);
      ghost var done: set<BuildId> := {};
      assert ids[..0] == [] && ids[..|ids|] == ids;
      var i := 0;
      while i < |ids|
        invariant 0 <= i <= |ids| && done == (set k | 0 <= k < i :: ids[k])
        invariant running == builds - done
        invariant forall id :: id !in done ==> SlotOf(id) == old(SlotOf(id))
        invariant forall id :: id in done ==>
                    SlotOf(id) == Finalize(old(SlotOf(id)), builds[id], OutcomeOf(builds[id].errors))
        invariant Remembered(old(finished), ids[..i], outs, finished)
      {
        var id := ids[i];
        FinalizeNext(ids, i, if running[id].errors == [] then Built else BuildFailed(running[id].errors), outs,
                     old(finished));
        done := done + {id};
        i := i + 1;
      }
    }

    method OnLost(lost: seq<DaemonId>, order: seq<BuildId>)
      requires Distinct(order) && forall id :: id in order <==> id in running
      modifies this`running, this`finished, this`replies, this`outcomes
      ensures forall id :: SlotOf(id) == LostSlot(old(SlotOf(id)), lost)
      ensures Remembered(old(finished), EmptiedIn(order, old(running), lost),
                         ErrorOutcomes(AllPruned(old(running), IdsOf(order), lost)), finished)
    {
      var emptied := PruneBuilds(lost, order);
      EmptiedInIs(order, old(running), lost);
      FinalizeEmptied(emptied);
    }

    /** Daemons were lost in the middle of builds. */
    method HandleLost(lost: seq<DaemonId>, order: seq<BuildId>)
      requires Valid() && Distinct(order) && forall id :: id in order <==> id in running
      modifies this
      ensures Valid() && View() == BuildStep(old(View()), Lost(lost, order))
    {
      ghost var s := Snapshot();
      OnLost(lost, order);
      LostRemembers(s, lost, order, finished);
      TakesStep(s, Lost(lost, order));
    }

    method OnTick(now: Millis, timeout: Millis, order: seq<BuildId>)
      requires Distinct(order) && forall id :: id in order <==> id in running
      modifies this`running, this`finished, this`replies, this`outcomes
      ensures forall id :: SlotOf(id) == TimeoutSlot(old(SlotOf(id)), now, timeout)
      ensures Remembered(old(finished), OverdueIn(order, old(running), now, timeout), TimeoutOutcomes(old(running)),
                         finished)
    {
      var stuck := CollectOverdue(now, timeout, order);
      OverdueInIs(order, running, now, timeout);
      Expire(stuck);
    }

    method HandleTick(now: Millis, timeout: Millis, order: seq<BuildId>)
      requires Valid() && Distinct(order) && forall id :: id in order <==> id in running
      modifies this
      ensures Valid() && View() == BuildStep(old(View()), Tick(now, timeout, order))
    {
      ghost var s := Snapshot();
      OnTick(now, timeout, order);
      TickRemembers(s, now, timeout, order, finished);
      TakesStep(s, Tick(now, timeout, order));
    }

    method CollectOverdue(now: Millis, timeout: Millis, order: seq<BuildId>) returns (stuck: seq<BuildId>)
      ensures stuck == OverdueIn(order, running, now, timeout)
    {
      stuck := [];
      var i := 0;
      while i < |order|
        invariant 0 <= i <= |order|
        invariant stuck + OverdueIn(order[i..], running, now, timeout) == OverdueIn(order, running, now, timeout)
      {
        assert order[i..][1..] == order[i + 1..];
        if order[i] in running && Elapsed(now, running[order[i]].startedAt) > timeout {
          stuck := stuck + [order[i]];
        }
        i := i + 1;
      }
    }

    /** The build watchdog gives up on the given builds. */
    method Expire(ids: seq<BuildId>)
      requires Distinct(ids) && forall id :: id in ids ==> id in running
      modifies this`running, this`finished, this`replies, this`outcomes
      ensures forall id :: id !in ids ==> SlotOf(id) == old(SlotOf(id))
      ensures forall id :: id in ids ==> SlotOf(id) == Finalize(old(SlotOf(id)), old(running)[id], BuildTimedOut)
      ensures Remembered(old(finished), ids, TimeoutOutcomes(old(running)), finished)
    {
      ghost var builds, outs := running, TimeoutOutcomes(running);
      ghost var done: set<BuildId> := {};
      assert ids[..0] == [] && ids[..|ids|] == ids;
      var i := 0;
      while i < |ids|
        invariant 0 <= i <= |ids| && done == (set k | 0 <= k < i :: ids[k])
        invariant running == builds - done
        invariant forall id :: id !in done ==> SlotOf(id) == old(SlotOf(id))
        invariant forall id :: id in done ==> SlotOf(id) == Finalize(old(SlotOf(id)), builds[id], BuildTimedOut)
        invariant Remembered(old(finished), ids[..i], outs, finished)
      {
        var id := ids[i];
        FinalizeNext(ids, i, BuildTimedOut, outs, old(finished));
        done := done + {id};
        i := i + 1;
      }
    }
  }

  function IdsOf(ids: seq<BuildId>): set<BuildId> {
    set id | id in ids
  }

  function AllPruned(builds: map<BuildId, Build>, ids: set<BuildId>, lost: seq<DaemonId>): map<BuildId, Build> {
    map id | id in builds :: if id in ids then WithoutLost(builds[id], lost) else builds[id]
  }

  lemma PrunedNext(builds: map<BuildId, Build>, done: set<BuildId>, lost: seq<DaemonId>, id: BuildId)
    requires id in builds && id !in done
    ensures AllPruned(builds, done, lost)[id] == builds[id]
    ensures AllPruned(builds, done, lost)[id := WithoutLost(builds[id], lost)] == AllPruned(builds, done + {id}, lost)
  {
  }

  function ErrorOutcomes(builds: map<BuildId, Build>): map<BuildId, Outcome> {
    map id | id in builds :: OutcomeOf(builds[id].errors)
  }

  function TimeoutOutcomes(builds: map<BuildId, Build>): map<BuildId, Outcome> {
    map id | id in builds :: BuildTimedOut
  }

  /** The cache after the given builds were remembered one after the other. */
  function RememberEach(finished: IndexMap<BuildId, Outcome>, ids: seq<BuildId>, outs: map<BuildId, Outcome>)
    : IndexMap<BuildId, Outcome>
    decreases |ids|
  {
    if ids == [] then finished
    else if ids[0] !in outs then RememberEach(finished, ids[1..], outs)
    else RememberEach(Remember(finished, ids[0], outs[ids[0]]), ids[1..], outs)
  }

  lemma {:induction false} RememberLast(finished: IndexMap<BuildId, Outcome>, ids: seq<BuildId>,
                                        outs: map<BuildId, Outcome>)
    requires ids != [] && ids[|ids| - 1] in outs
    ensures RememberEach(finished, ids, outs)
         == Remember(RememberEach(finished, ids[..|ids| - 1], outs), ids[|ids| - 1], outs[ids[|ids| - 1]])
    decreases |ids|
  {
    if |ids| > 1 {
      var next := if ids[0] in outs then Remember(finished, ids[0], outs[ids[0]]) else finished;
      RememberLast(next, ids[1..], outs);
      assert ids[1..][..|ids| - 2] == ids[..|ids| - 1][1..];
    } else {
      assert ids[1..] == [] && ids[..0] == [];
    }
  }

  /** What was collected so far plus what the rest of the list contributes is `all`. */
  ghost predicate Collecting(found: seq<BuildId>, rest: seq<BuildId>, builds: map<BuildId, Build>, lost: seq<DaemonId>,
                             all: seq<BuildId>)
  {
    forall z {:trigger Open(z)} :: Open(z) && z == 0 ==> found + EmptiedIn(rest, builds, lost) == all
  }

  lemma CollectNext(found: seq<BuildId>, order: seq<BuildId>, i: nat, builds: map<BuildId, Build>, lost: seq<DaemonId>,
                    all: seq<BuildId>)
    requires i < |order| && order[i] in builds && Collecting(found, order[i..], builds, lost, all)
    ensures Collecting(if Emptied(builds[order[i]], lost) then found + [order[i]] else found, order[i + 1..], builds, lost,
                       all)
  {
    assert Open(0);
    assert order[i..][1..] == order[i + 1..];
  }

  /** Remembering `ids` takes the cache from `start` to `now`. */
  ghost predicate Remembered(start: IndexMap<BuildId, Outcome>, ids: seq<BuildId>, outs: map<BuildId, Outcome>,
                             now: IndexMap<BuildId, Outcome>)
  {
    forall z {:trigger Open(z)} :: Open(z) && z == 0 ==> now == RememberEach(start, ids, outs)
  }

  lemma RememberedNext(start: IndexMap<BuildId, Outcome>, ids: seq<BuildId>, i: nat, outs: map<BuildId, Outcome>,
                       now: IndexMap<BuildId, Outcome>)
    requires i < |ids| && ids[i] in outs && Remembered(start, ids[..i], outs, now)
    ensures Remembered(start, ids[..i + 1], outs, Remember(now, ids[i], outs[ids[i]]))
  {
    assert Open(0);
    assert ids[..i + 1][..i] == ids[..i];
    RememberLast(start, ids[..i + 1], outs);
  }

  lemma {:induction false} RememberAllIs(s: BuildState, finished: IndexMap<BuildId, Outcome>, ids: seq<BuildId>,
                                         e: BuildEvent, outs: map<BuildId, Outcome>)
    requires forall id :: id in ids ==> id in outs && OutcomeIn(s, e, id) == Some(outs[id])
    ensures RememberAll(s, finished, ids, e) == RememberEach(finished, ids, outs)
    decreases |ids|
  {
    if ids != [] {
      assert OutcomeIn(s, e, ids[0]) == Some(outs[ids[0]]);
      RememberAllIs(s, Remember(finished, ids[0], outs[ids[0]]), ids[1..], e, outs);
    }
  }

  lemma {:induction false} EmptiedInIs(order: seq<BuildId>, builds: map<BuildId, Build>, lost: seq<DaemonId>)
    requires Distinct(order)
    ensures Distinct(EmptiedIn(order, builds, lost))
    ensures forall id :: id in EmptiedIn(order, builds, lost) <==>
              id in order && id in builds && Emptied(builds[id], lost)
  {
    if order != [] {
      assert order[0] !in order[1..];
      EmptiedInIs(order[1..], builds, lost);
    }
  }

  lemma {:induction false} OverdueInIs(order: seq<BuildId>, builds: map<BuildId, Build>, now: Millis, timeout: Millis)
    requires Distinct(order)
    ensures Distinct(OverdueIn(order, builds, now, timeout))
    ensures forall id :: id in OverdueIn(order, builds, now, timeout) <==>
              id in order && id in builds && Overdue(builds[id], now, timeout)
  {
    if order != [] {
      assert order[0] !in order[1..];
      OverdueInIs(order[1..], builds, now, timeout);
    }
  }

  lemma LostRemembers(s: BuildState, lost: seq<DaemonId>, order: seq<BuildId>, now: IndexMap<BuildId, Outcome>)
    requires Distinct(order) && forall id :: id in order <==> id in RunningBuilds(s)
    requires Remembered(s.finished, EmptiedIn(order, RunningBuilds(s), lost),
                        ErrorOutcomes(AllPruned(RunningBuilds(s), IdsOf(order), lost)), now)
    ensures now == RememberAll(s, s.finished, VisitOrder(s, Lost(lost, order)), Lost(lost, order))
  {
    assert Open(0);
    EmptiedInIs(order, RunningBuilds(s), lost);
    RememberAllIs(s, s.finished, EmptiedIn(order, RunningBuilds(s), lost), Lost(lost, order),
                  ErrorOutcomes(AllPruned(RunningBuilds(s), IdsOf(order), lost)));
  }

  lemma TickRemembers(s: BuildState, at: Millis, timeout: Millis, order: seq<BuildId>, now: IndexMap<BuildId, Outcome>)
    requires Distinct(order) && forall id :: id in order <==> id in RunningBuilds(s)
    requires Remembered(s.finished, OverdueIn(order, RunningBuilds(s), at, timeout), TimeoutOutcomes(RunningBuilds(s)), now)
    ensures now == RememberAll(s, s.finished, VisitOrder(s, Tick(at, timeout, order)), Tick(at, timeout, order))
  {
    assert Open(0);
    OverdueInIs(order, RunningBuilds(s), at, timeout);
    RememberAllIs(s, s.finished, OverdueIn(order, RunningBuilds(s), at, timeout), Tick(at, timeout, order),
                  TimeoutOutcomes(RunningBuilds(s)));
  }

  lemma EmptiedIff(b: Build, lost: seq<DaemonId>, pruned: bool)
    requires pruned ==> b.pending != {}
    requires !pruned ==> WithoutLost(b, lost) == b
    ensures Emptied(b, lost) <==> pruned && WithoutLost(b, lost).pending == {}
  {
  }

  lemma ResultRemembers(s: BuildState, id: BuildId, d: DaemonId, ok: bool)
    ensures RememberAll(s, s.finished, [id], Result(id, d, ok))
         == if SlotAt(s, id).running.Some? && Noted(SlotAt(s, id).running.value, d, ok).pending == {}
            then Remember(s.finished, id, OutcomeOf(Noted(SlotAt(s, id).running.value, d, ok).errors)) else s.finished
  {
    assert [id][1..] == [];
  }
}
