/** Runtime parameters: the coordinator's store, the replication log of a running
    dataflow, and the copies its daemons hold. */
module Replication {
  import opened Common
  import opened CoordinatorTypes

  const MAX_STATE_LOG_ENTRIES: nat := 10_000
  const FALLBACK_REPLAY_BACKOFF: Millis := 5_000

  datatype Param = Param(node: NodeId, key: string)
  type Params = map<Param, string>

  datatype Op = Set(param: Param, value: string) | Delete(param: Param)

  datatype Entry = Entry(seqno: nat, op: Op)

  function Apply(ps: Params, op: Op): Params {
    match op
    case Set(p, v) => ps[p := v]
    case Delete(p) => ps - {p}
  }

  function ApplyAll(ps: Params, ops: seq<Op>): Params
    decreases |ops|
  {
    if ops == [] then ps else ApplyAll(Apply(ps, ops[0]), ops[1..])
  }

  predicate TouchedBy(ops: seq<Op>, p: Param) {
    exists i :: 0 <= i < |ops| && ops[i].param == p
  }

  // ----- applying operations -----------------------------------------------

  /** The last operation on a parameter decides it; without one it keeps its value. */
  lemma {:induction false} ApplyAllAt(ps: Params, qs: Params, ops: seq<Op>, p: Param)
    requires TouchedBy(ops, p) || Lookup(ps, p) == Lookup(qs, p)
    ensures Lookup(ApplyAll(ps, ops), p) == Lookup(ApplyAll(qs, ops), p)
    decreases |ops|
  {
    if ops != [] {
      if TouchedBy(ops, p) && ops[0].param != p {
        var i :| 0 <= i < |ops| && ops[i].param == p;
        assert ops[1..][i - 1] == ops[i];
      }
      ApplyAllAt(Apply(ps, ops[0]), Apply(qs, ops[0]), ops[1..], p);
    }
  }

  lemma {:induction false} ApplyAllUntouched(ps: Params, ops: seq<Op>, p: Param)
    requires !TouchedBy(ops, p)
    ensures Lookup(ApplyAll(ps, ops), p) == Lookup(ps, p)
    decreases |ops|
  {
    if ops != [] {
      assert ops[0].param != p;
      assert forall i :: 0 <= i < |ops[1..]| ==> ops[1..][i] == ops[i + 1];
      ApplyAllUntouched(Apply(ps, ops[0]), ops[1..], p);
    }
  }

  lemma {:induction false} ApplyAllConcat(ps: Params, a: seq<Op>, b: seq<Op>)
    ensures ApplyAll(ps, a + b) == ApplyAll(ApplyAll(ps, a), b)
    decreases |a|
  {
    if a == [] {
      assert a + b == b;
    } else {
      assert (a + b)[1..] == a[1..] + b;
      ApplyAllConcat(Apply(ps, a[0]), a[1..], b);
    }
  }

  // ----- the log -----------------------------------------------------------

  datatype Log = Log(entries: seq<Entry>, sequence: nat, acks: map<DaemonId, nat>, daemons: set<DaemonId>) {

    function AckOf(d: DaemonId): nat {
      if d in acks then acks[d] else 0
    }

    /** Number of operations that are no longer in the log. */
    function Dropped(): int {
      sequence - |entries|
    }

    /** The log holds the latest operations, numbered without gaps, and nobody
        acknowledged more than there is. */
    ghost predicate Valid() {
      && |entries| <= sequence && |entries| <= MAX_STATE_LOG_ENTRIES
      && (forall i :: 0 <= i < |entries| ==> entries[i].seqno == Dropped() + 1 + i)
      && (forall d :: d in acks ==> acks[d] <= sequence)
    }

    function Append(op: Op): Log {
      var grown := entries + [Entry(sequence + 1, op)];
      this.(sequence := sequence + 1,
            entries := if |grown| > MAX_STATE_LOG_ENTRIES then grown[|grown| - MAX_STATE_LOG_ENTRIES..] else grown)
    }

    /** The smallest acknowledgement among the live daemons, 0 if there is none. */
    ghost function MinAck(): nat {
      if daemons == {} then 0 else LeastAck(this, daemons)
    }

    ghost function Prune(): Log {
      this.(entries := After(entries, MinAck()))
    }

    /** The entries after `lastAck`, or None if some of them are gone. */
    function Delta(lastAck: nat): Option<seq<Entry>> {
      if entries == [] then if lastAck < sequence then None else Some([])
      else if lastAck + 1 < entries[0].seqno then None
      else Some(After(entries, lastAck))
    }

    /** An acknowledgement is clamped between the current one and the head of the log. */
    function Clamped(d: DaemonId, n: nat): nat {
      var bounded := if n < sequence then n else sequence;
      if bounded < AckOf(d) then AckOf(d) else bounded
    }

    ghost function Ack(d: DaemonId, n: nat): Log {
      if d !in daemons then this else this.(acks := acks[d := Clamped(d, n)]).Prune()
    }
  }

  ghost function LeastAck(l: Log, ds: set<DaemonId>): (m: nat)
    requires ds != {}
    ensures forall d :: d in ds ==> m <= l.AckOf(d)
    ensures exists d :: d in ds && l.AckOf(d) == m
    decreases |ds|
  {
    var d :| d in ds;
    if ds == {d} then l.AckOf(d)
    else
      var rest := ds - {d};
      assert rest != {} by {
        assert ds == rest + {d};
      }
      var m := LeastAck(l, rest);
      var r := if l.AckOf(d) < m then l.AckOf(d) else m;
      assert forall x :: x in ds ==> x == d || x in rest;
      r
  }

  /** The entries numbered above `n`. */
  function After(entries: seq<Entry>, n: nat): seq<Entry> {
    if entries == [] then []
    else (if entries[0].seqno > n then [entries[0]] else []) + After(entries[1..], n)
  }

  /** On consecutively numbered entries, `After` cuts off a prefix. */
  lemma {:induction false} AfterIsSuffix(entries: seq<Entry>, first: nat, n: nat)
    requires forall i :: 0 <= i < |entries| ==> entries[i].seqno == first + i
    ensures After(entries, n) ==
              if n < first then entries else if n - first < |entries| then entries[n - first + 1..] else []
  {
    if entries != [] {
      AfterIsSuffix(entries[1..], first + 1, n);
      assert entries == [entries[0]] + entries[1..];
    }
  }

  /** A delta is exactly what came after the acknowledgement, and it is missing exactly
      when the log lost some of that. */
  lemma DeltaIs(l: Log, lastAck: nat)
    requires l.Valid() && lastAck <= l.sequence
    ensures l.Delta(lastAck).None? <==> lastAck < l.Dropped()
    ensures l.Delta(lastAck).Some? ==> l.Delta(lastAck).value == l.entries[lastAck - l.Dropped()..]
  {
    if l.entries != [] {
      AfterIsSuffix(l.entries, l.Dropped() + 1, lastAck);
    }
  }

  lemma PruneIs(l: Log)
    requires l.Valid()
    ensures l.Prune().Valid()
    ensures l.Prune().entries == if l.MinAck() <= l.Dropped() then l.entries else l.entries[l.MinAck() - l.Dropped()..]
  {
    AfterIsSuffix(l.entries, l.Dropped() + 1, l.MinAck());
    assert l.MinAck() <= l.sequence;
  }

  /** Pruning takes nothing away from a live daemon: what it can still be sent stays. */
  lemma PruneKeepsNeeded(l: Log, d: DaemonId)
    requires l.Valid() && d in l.daemons
    ensures l.Delta(l.AckOf(d)).Some? ==> l.Prune().Delta(l.AckOf(d)) == l.Delta(l.AckOf(d))
  {
    PruneIs(l);
    DeltaIs(l, l.AckOf(d));
    DeltaIs(l.Prune(), l.AckOf(d));
    assert l.MinAck() <= l.AckOf(d);
  }

  lemma AppendIs(l: Log, op: Op)
    requires l.Valid()
    ensures l.Append(op).Valid()
    ensures l.Append(op).entries ==
              (if |l.entries| == MAX_STATE_LOG_ENTRIES then l.entries[1..] else l.entries) + [Entry(l.sequence + 1, op)]
  {
  }

  /** Appending costs a daemon its delta only when the log is full. */
  lemma AppendForcesFallbackIff(l: Log, op: Op, a: nat)
    requires l.Valid() && a <= l.sequence && l.Delta(a).Some?
    ensures l.Append(op).Delta(a).None? <==> |l.entries| == MAX_STATE_LOG_ENTRIES && a == l.Dropped()
  {
    AppendIs(l, op);
    DeltaIs(l, a);
    DeltaIs(l.Append(op), a);
  }

  /** An acknowledgement never moves anybody back or beyond the head, and at most cuts
      off the front of the log. */
  lemma AckIs(l: Log, d: DaemonId, n: nat)
    requires l.Valid()
    ensures l.Ack(d, n).Valid() && l.Dropped() <= l.Ack(d, n).Dropped()
    ensures l.Ack(d, n).entries == l.entries[l.Ack(d, n).Dropped() - l.Dropped()..]
    ensures l.Ack(d, n).AckOf(d) == if d in l.daemons then l.Clamped(d, n) else l.AckOf(d)
  {
    if d in l.daemons {
      PruneIs(l.(acks := l.acks[d := l.Clamped(d, n)]));
    }
  }

  // ----- the coordinator, its store, and the daemons' copies ---------------

  /** `history` is every operation since the entry was created and `base` the parameters
      at that time; the code keeps only the log and the store. */
  datatype World = World(
    log: Log,
    base: Params,
    history: seq<Op>,
    store: Params,
    homes: map<NodeId, DaemonId>,
    copies: map<DaemonId, Params>,
    inFlight: multiset<Sending>)

  /** A stored value that a background replay collected for a daemon and did not send yet. */
  datatype Sending = Sending(daemon: DaemonId, param: Param, value: string)

  /** `limit` bounds how many entries the nodes' channels take in one catch-up. `Collect`
      and `Send` are the two halves of the replay that a barrier release starts. */
  datatype Change =
    | Mutate(op: Op, stored: bool, delivered: bool)
    | CatchUp(daemon: DaemonId, reachable: set<NodeId>, limit: nat, acked: bool)
    | Collect(daemon: DaemonId, unreadable: set<NodeId>)
    | Send(item: Sending, accepted: bool)
    | Replay(daemon: DaemonId, unreadable: set<NodeId>, refused: set<Param>)
    | Leave(daemon: DaemonId)
    | Join(daemon: DaemonId)

  predicate HomeOf(w: World, p: Param, d: DaemonId) {
    p.node in w.homes && w.homes[p.node] == d
  }

  function CopyOf(w: World, d: DaemonId): Params {
    if d in w.copies then w.copies[d] else map[]
  }

  function Ops(entries: seq<Entry>): seq<Op> {
    seq(|entries|, i requires 0 <= i < |entries| => entries[i].op)
  }

  /** How many entries a daemon applies before it meets one for a node it cannot reach. */
  function Deliverable(entries: seq<Entry>, reachable: set<NodeId>): (n: nat)
    ensures n <= |entries|
    ensures forall i :: 0 <= i < n ==> entries[i].op.param.node in reachable
    ensures n < |entries| ==> entries[n].op.param.node !in reachable
  {
    if entries == [] || entries[0].op.param.node !in reachable then 0
    else 1 + Deliverable(entries[1..], reachable)
  }

  /** The nodes of `reachable` that run on `d`. */
  function LocalNodes(w: World, d: DaemonId, reachable: set<NodeId>): set<NodeId> {
    set n | n in reachable && n in w.homes && w.homes[n] == d
  }

  function Mutated(w: World, op: Op, delivered: bool): World
    requires op.param.node in w.homes
  {
    var home := w.homes[op.param.node];
    w.(log := w.log.Append(op), store := Apply(w.store, op), history := w.history + [op],
       copies := if delivered then w.copies[home := Apply(CopyOf(w, home), op)] else w.copies)
  }

  /** What a status report of a live, lagging daemon is answered with. */
  function Owed(w: World, d: DaemonId): Option<seq<Entry>> {
    if d in w.log.daemons && w.log.AckOf(d) < w.log.sequence then w.log.Delta(w.log.AckOf(d)) else Some([])
  }

  /** How many of the owed entries a catch-up delivers. */
  function Delivered(w: World, d: DaemonId, reachable: set<NodeId>, limit: nat): nat
    requires Owed(w, d).Some?
  {
    var n := Deliverable(Owed(w, d).value, LocalNodes(w, d, reachable));
    if limit < n then limit else n
  }

  ghost function CaughtUp(w: World, d: DaemonId, reachable: set<NodeId>, limit: nat, acked: bool): World {
    var entries := Owed(w, d);
    if entries.None? then w
    else
      var n := Delivered(w, d, reachable, limit);
      if n == 0 then w
      else w.(copies := w.copies[d := ApplyAll(CopyOf(w, d), Ops(entries.value[..n]))],
              log := if acked then w.log.Ack(d, entries.value[n - 1].seqno) else w.log)
  }

  /** The stored parameters that a full replay sends to `d`. */
  function ReplayItems(w: World, d: DaemonId, unreadable: set<NodeId>): set<Param> {
    set p | p in w.store && HomeOf(w, p, d) && p.node !in unreadable
  }

  function Replayed(w: World, d: DaemonId, unreadable: set<NodeId>, refused: set<Param>): World {
    if Owed(w, d).Some? then w
    else
      var items := ReplayItems(w, d, unreadable);
      w.(copies := w.copies[d := CopyOf(w, d) + map p | p in items - refused :: w.store[p]],
         log := if items !! refused then w.log.(acks := w.log.acks[d := w.log.sequence]) else w.log)
  }

  function Collected(w: World, d: DaemonId, unreadable: set<NodeId>): World {
    w.(inFlight := w.inFlight + multiset(set p | p in ReplayItems(w, d, unreadable) :: Sending(d, p, w.store[p])))
  }

  function Sent(w: World, item: Sending, accepted: bool): World {
    if item !in w.inFlight then w
    else w.(inFlight := w.inFlight - multiset{item},
            copies := if accepted then w.copies[item.daemon := CopyOf(w, item.daemon)[item.param := item.value]]
                      else w.copies)
  }

  ghost function Changed(w: World, c: Change): World {
    match c
    case Mutate(op, stored, delivered) => if op.param.node in w.homes && stored then Mutated(w, op, delivered) else w
    case CatchUp(d, reachable, limit, acked) => CaughtUp(w, d, reachable, limit, acked)
    case Collect(d, unreadable) => Collected(w, d, unreadable)
    case Send(item, accepted) => Sent(w, item, accepted)
    case Replay(d, unreadable, refused) => Replayed(w, d, unreadable, refused)
    case Leave(d) => w.(log := w.log.(daemons := w.log.daemons - {d}))
    case Join(d) => w.(log := w.log.(daemons := w.log.daemons + {d}))
  }

  // ----- what every change keeps -------------------------------------------

  /** The log is the tail of the history and the store its result. */
  ghost predicate WorldInv(w: World) {
    && w.log.Valid()
    && |w.history| == w.log.sequence
    && Ops(w.log.entries) == w.history[w.log.Dropped()..]
    && w.store == ApplyAll(w.base, w.history)
  }

  lemma MutatedKeeps(w: World, op: Op, delivered: bool)
    requires WorldInv(w) && op.param.node in w.homes
    ensures WorldInv(Mutated(w, op, delivered))
  {
    var w' := Mutated(w, op, delivered);
    AppendIs(w.log, op);
    ApplyAllConcat(w.base, w.history, [op]);
    assert [op][1..] == [];
    var kept := if |w.log.entries| == MAX_STATE_LOG_ENTRIES then w.log.entries[1..] else w.log.entries;
    assert Ops(w'.log.entries) == Ops(kept) + [op];
    assert Ops(kept) == w.history[w'.log.Dropped()..] by {
      forall i | 0 <= i < |kept|
        ensures Ops(kept)[i] == w.history[w'.log.Dropped()..][i]
      {
        var k := i + |w.log.entries| - |kept|;
        assert kept[i] == w.log.entries[k];
        assert Ops(w.log.entries)[k] == w.history[w.log.Dropped()..][k];
      }
    }
  }

  lemma OwedIs(w: World, d: DaemonId)
    requires WorldInv(w) && Owed(w, d).Some? && Owed(w, d).value != []
    ensures Ops(Owed(w, d).value) == w.history[w.log.AckOf(d)..]
    ensures forall i :: 0 <= i < |Owed(w, d).value| ==> Owed(w, d).value[i].seqno == w.log.AckOf(d) + 1 + i
  {
    var a := w.log.AckOf(d);
    DeltaIs(w.log, a);
    var es := Owed(w, d).value;
    forall i | 0 <= i < |es|
      ensures Ops(es)[i] == w.history[a..][i] && es[i].seqno == a + 1 + i
    {
      var k := a - w.log.Dropped() + i;
      assert es[i] == w.log.entries[k];
      assert Ops(w.log.entries)[k] == w.history[w.log.Dropped()..][k];
    }
  }

  lemma AckKeeps(w: World, d: DaemonId, n: nat)
    requires WorldInv(w)
    ensures WorldInv(w.(log := w.log.Ack(d, n)))
  {
    AckIs(w.log, d, n);
    var l := w.log.Ack(d, n);
    forall i | 0 <= i < |l.entries|
      ensures Ops(l.entries)[i] == w.history[l.Dropped()..][i]
    {
      var k := l.Dropped() - w.log.Dropped() + i;
      assert l.entries[i] == w.log.entries[k];
      assert Ops(l.entries)[i] == l.entries[i].op && Ops(w.log.entries)[k] == w.log.entries[k].op;
      assert Ops(w.log.entries)[k] == w.history[w.log.Dropped()..][k] == w.history[l.Dropped() + i];
    }
  }

  lemma WorldInvStep(w: World, c: Change)
    requires WorldInv(w)
    ensures WorldInv(Changed(w, c))
  {
    match c
    case Mutate(op, stored, delivered) =>
      if op.param.node in w.homes && stored {
        MutatedKeeps(w, op, delivered);
      }
    case CatchUp(d, reachable, limit, acked) => CaughtUpKeeps(w, d, reachable, limit, acked);
    case _ =>
  }

  lemma CaughtUpKeeps(w: World, d: DaemonId, reachable: set<NodeId>, limit: nat, acked: bool)
    requires WorldInv(w)
    ensures WorldInv(CaughtUp(w, d, reachable, limit, acked))
  {
    if Owed(w, d).Some? {
      var n := Delivered(w, d, reachable, limit);
      if n > 0 {
        AckKeeps(w, d, Owed(w, d).value[n - 1].seqno);
      }
    }
  }

  /** Ack discipline: no change moves an acknowledgement back, and none exceeds the head. */
  lemma AcksOnlyGrow(w: World, c: Change, d: DaemonId)
    requires WorldInv(w)
    ensures w.log.AckOf(d) <= Changed(w, c).log.AckOf(d) <= Changed(w, c).log.sequence
    ensures w.log.sequence <= Changed(w, c).log.sequence
  {
    match c
    case CatchUp(x, reachable, limit, acked) =>
      if Owed(w, x).Some? {
        var n := Delivered(w, x, reachable, limit);
        if n > 0 {
          AckIs(w.log, x, Owed(w, x).value[n - 1].seqno);
        }
      }
    case _ =>
  }

  // ----- convergence -------------------------------------------------------

  /** The copy of `d` agrees with the store on every parameter of its nodes that was not
      touched since its acknowledgement. */
  ghost predicate Behind(w: World, d: DaemonId)
    requires w.log.AckOf(d) <= |w.history|
  {
    forall p :: HomeOf(w, p, d) && !TouchedBy(w.history[w.log.AckOf(d)..], p) ==>
      Lookup(CopyOf(w, d), p) == Lookup(w.store, p)
  }

  /** The copy of `d` agrees with the store on all parameters of its nodes. */
  ghost predicate Synced(w: World, d: DaemonId) {
    forall p :: HomeOf(w, p, d) ==> Lookup(CopyOf(w, d), p) == Lookup(w.store, p)
  }

  /** `sub` is a selection of `ops`. */
  ghost predicate SelectedFrom(sub: seq<Op>, ops: seq<Op>) {
    forall i :: 0 <= i < |sub| ==> sub[i] in ops
  }

  /** A daemon that applied every operation up to its acknowledgement, plus any selection
      of the later ones, is behind in this sense. */
  lemma SelectionIsBehind(w: World, d: DaemonId, sub: seq<Op>)
    requires WorldInv(w) && SelectedFrom(sub, w.history[w.log.AckOf(d)..])
    requires CopyOf(w, d) == ApplyAll(w.base, w.history[..w.log.AckOf(d)] + sub)
    ensures Behind(w, d)
  {
    var a := w.log.AckOf(d);
    ApplyAllConcat(w.base, w.history[..a], sub);
    ApplyAllConcat(w.base, w.history[..a], w.history[a..]);
    assert w.history == w.history[..a] + w.history[a..];
    forall p | HomeOf(w, p, d) && !TouchedBy(w.history[a..], p)
      ensures Lookup(CopyOf(w, d), p) == Lookup(w.store, p)
    {
      ApplyAllUntouched(ApplyAll(w.base, w.history[..a]), sub, p);
      ApplyAllUntouched(ApplyAll(w.base, w.history[..a]), w.history[a..], p);
    }
  }

  /** Applying the next `n` operations after the acknowledgement `a` decides every
      parameter they touch, unless a still later operation does. */
  lemma TailDecides(w: World, copy: Params, a: nat, n: nat, p: Param)
    requires WorldInv(w) && a + n <= |w.history| && !TouchedBy(w.history[a + n..], p)
    requires TouchedBy(w.history[a..a + n], p) || Lookup(copy, p) == Lookup(w.store, p)
    ensures Lookup(ApplyAll(copy, w.history[a..a + n]), p) == Lookup(w.store, p)
  {
    var before, mid, after := w.history[..a], w.history[a..a + n], w.history[a + n..];
    assert w.history == before + mid + after;
    ApplyAllConcat(w.base, before + mid, after);
    ApplyAllConcat(w.base, before, mid);
    ApplyAllUntouched(ApplyAll(ApplyAll(w.base, before), mid), after, p);
    if TouchedBy(mid, p) {
      ApplyAllAt(copy, ApplyAll(w.base, before), mid, p);
    } else {
      ApplyAllUntouched(copy, mid, p);
    }
  }

  lemma TouchedSplit(ops: seq<Op>, a: nat, n: nat, p: Param)
    requires a + n <= |ops| && TouchedBy(ops[a..], p)
    ensures TouchedBy(ops[a..a + n], p) || TouchedBy(ops[a + n..], p)
  {
    var i :| 0 <= i < |ops[a..]| && ops[a..][i].param == p;
    if i < n {
      assert ops[a..a + n][i] == ops[a..][i];
    } else {
      assert ops[a + n..][i - n] == ops[a..][i];
    }
  }

  lemma UntouchedTail(ops: seq<Op>, a: nat, b: nat, p: Param)
    requires a <= b <= |ops| && !TouchedBy(ops[a..], p)
    ensures !TouchedBy(ops[b..], p)
  {
    assert forall i :: 0 <= i < |ops[b..]| ==> ops[b..][i] == ops[a..][b - a + i];
  }

  /** Catch-up convergence: delivering everything that is owed makes the copy agree with
      the store, and delivering it again changes nothing. */
  lemma CatchUpConverges(w: World, d: DaemonId)
    requires WorldInv(w) && Behind(w, d)
    ensures var once := ApplyAll(CopyOf(w, d), w.history[w.log.AckOf(d)..]);
            && Synced(w.(copies := w.copies[d := once]), d)
            && ApplyAll(once, w.history[w.log.AckOf(d)..]) == once
  {
    var a, n := w.log.AckOf(d), |w.history| - w.log.AckOf(d);
    var tail := w.history[a..];
    var once := ApplyAll(CopyOf(w, d), tail);
    assert w.history[a..a + n] == tail && w.history[a + n..] == [];
    forall p | HomeOf(w, p, d)
      ensures Lookup(once, p) == Lookup(w.store, p)
    {
      TailDecides(w, CopyOf(w, d), a, n, p);
    }
    AgainChangesNothing(CopyOf(w, d), tail);
  }

  lemma AgainChangesNothing(ps: Params, ops: seq<Op>)
    ensures ApplyAll(ApplyAll(ps, ops), ops) == ApplyAll(ps, ops)
  {
    var once := ApplyAll(ps, ops);
    var twice := ApplyAll(once, ops);
    forall p: Param
      ensures Lookup(twice, p) == Lookup(once, p)
    {
      if TouchedBy(ops, p) {
        ApplyAllAt(once, ps, ops, p);
      } else {
        ApplyAllUntouched(once, ops, p);
      }
    }
    assert forall p: Param :: p in twice <==> p in once by {
      forall p: Param
        ensures p in twice <==> p in once
      {
        assert Lookup(twice, p) == Lookup(once, p);
      }
    }
    forall p | p in once
      ensures twice[p] == once[p]
    {
      assert Lookup(twice, p) == Lookup(once, p);
    }
  }

  // ----- nobody falls behind more than the log knows -----------------------

  lemma MutateKeepsBehind(w: World, op: Op, delivered: bool, d: DaemonId)
    requires WorldInv(w) && op.param.node in w.homes && Behind(w, d)
    ensures Mutated(w, op, delivered).log.AckOf(d) <= |Mutated(w, op, delivered).history|
    ensures Behind(Mutated(w, op, delivered), d)
  {
    var w' := Mutated(w, op, delivered);
    var a := w.log.AckOf(d);
    var tail' := w'.history[a..];
    forall p | HomeOf(w', p, d) && !TouchedBy(tail', p)
      ensures Lookup(CopyOf(w', d), p) == Lookup(w'.store, p)
    {
      assert tail'[|tail'| - 1] == op;
      assert tail'[..|tail'| - 1] == w.history[a..];
      assert !TouchedBy(w.history[a..], p) by {
        assert forall i :: 0 <= i < |w.history[a..]| ==> tail'[i] == w.history[a..][i];
      }
    }
  }

  lemma CatchUpKeepsBehind(w: World, x: DaemonId, reachable: set<NodeId>, limit: nat, acked: bool, d: DaemonId)
    requires WorldInv(w) && Behind(w, d)
    ensures CaughtUp(w, x, reachable, limit, acked).log.AckOf(d) <= |w.history|
    ensures Behind(CaughtUp(w, x, reachable, limit, acked), d)
  {
    var w' := CaughtUp(w, x, reachable, limit, acked);
    if Owed(w, x).Some? && Delivered(w, x, reachable, limit) > 0 {
      var n := Delivered(w, x, reachable, limit);
      OwedIs(w, x);
      AckIs(w.log, x, Owed(w, x).value[n - 1].seqno);
      if x == d {
        PrefixKeepsBehind(w, w', d, n);
      }
    }
  }

  /** One daemon applied the first `n` operations it is owed, acknowledged or not. */
  lemma PrefixKeepsBehind(w: World, w': World, d: DaemonId, n: nat)
    requires WorldInv(w) && Behind(w, d) && Owed(w, d).Some? && 0 < n <= |Owed(w, d).value|
    requires w'.copies == w.copies[d := ApplyAll(CopyOf(w, d), Ops(Owed(w, d).value[..n]))]
    requires w'.history == w.history && w'.store == w.store && w'.homes == w.homes
    requires w'.log.AckOf(d) == w.log.AckOf(d) || w'.log.AckOf(d) == w.log.AckOf(d) + n
    requires w'.log.AckOf(d) <= |w.history|
    ensures Behind(w', d)
  {
    var a := w.log.AckOf(d);
    OwedIs(w, d);
    assert Ops(Owed(w, d).value[..n]) == w.history[a..a + n] by {
      assert Ops(Owed(w, d).value)[..n] == Ops(Owed(w, d).value[..n]);
      assert w.history[a..][..n] == w.history[a..a + n];
    }
    forall p | HomeOf(w', p, d) && !TouchedBy(w.history[w'.log.AckOf(d)..], p)
      ensures Lookup(CopyOf(w', d), p) == Lookup(w.store, p)
    {
      UntouchedTail(w.history, w'.log.AckOf(d), a + n, p);
      if TouchedBy(w.history[a..], p) {
        TouchedSplit(w.history, a, n, p);
      }
      TailDecides(w, CopyOf(w, d), a, n, p);
    }
  }

  /** What a full replay leaves wrong: a parameter the store does not hold any more, or
      could not be read, on which the copy differs. Replays never delete. */
  ghost predicate ReplayMisses(w: World, d: DaemonId, unreadable: set<NodeId>) {
    exists p :: HomeOf(w, p, d) && (p !in w.store || p.node in unreadable)
                && Lookup(CopyOf(w, d), p) != Lookup(w.store, p)
  }

  /** After a complete replay the daemon counts as caught up, and agrees with the store on
      every parameter that was read from it. It really is caught up exactly when nothing
      was missed. */
  lemma ReplaySyncsIff(w: World, d: DaemonId, unreadable: set<NodeId>, refused: set<Param>)
    requires WorldInv(w) && Owed(w, d).None?
    requires ReplayItems(w, d, unreadable) !! refused
    ensures var w' := Replayed(w, d, unreadable, refused);
            && w'.log.AckOf(d) == w.log.sequence
            && (forall p :: p in ReplayItems(w, d, unreadable) ==> Lookup(CopyOf(w', d), p) == Lookup(w.store, p))
            && (Synced(w', d) <==> !ReplayMisses(w, d, unreadable))
  {
    var w' := Replayed(w, d, unreadable, refused);
    var items := ReplayItems(w, d, unreadable);
    assert items - refused == items;
    forall p | HomeOf(w, p, d)
      ensures Lookup(CopyOf(w', d), p) == if p in items then Lookup(w.store, p) else Lookup(CopyOf(w, d), p)
    {
    }
    if ReplayMisses(w, d, unreadable) {
      var p :| HomeOf(w, p, d) && (p !in w.store || p.node in unreadable)
               && Lookup(CopyOf(w, d), p) != Lookup(w.store, p);
      assert HomeOf(w', p, d) && Lookup(CopyOf(w', d), p) != Lookup(w'.store, p);
    }
  }

  // ----- runs --------------------------------------------------------------

  ghost predicate WorldSteps(worlds: seq<World>, changes: seq<Change>, i: nat)
    requires i < |changes| && i + 1 < |worlds|
  {
    worlds[i + 1] == Changed(worlds[i], changes[i])
  }

  ghost predicate IsWorldRun(worlds: seq<World>, changes: seq<Change>) {
    && |worlds| == |changes| + 1 && WorldInv(worlds[0])
    && forall i :: 0 <= i < |changes| ==> WorldSteps(worlds, changes, i)
  }

  lemma {:induction false} WorldInvRun(worlds: seq<World>, changes: seq<Change>, n: nat)
    requires IsWorldRun(worlds, changes) && n <= |changes|
    ensures WorldInv(worlds[n])
  {
    if n > 0 {
      assert WorldSteps(worlds, changes, n - 1);
      WorldInvRun(worlds, changes, n - 1);
      WorldInvStep(worlds[n - 1], changes[n - 1]);
    }
  }

  /** In every run acknowledgements never decrease and never exceed the log. */
  lemma {:induction false} AcksGrowInRun(worlds: seq<World>, changes: seq<Change>, d: DaemonId, n: nat, m: nat)
    requires IsWorldRun(worlds, changes) && n <= m <= |changes|
    ensures worlds[n].log.AckOf(d) <= worlds[m].log.AckOf(d) <= worlds[m].log.sequence
    decreases m
  {
    WorldInvRun(worlds, changes, m);
    if n < m {
      AcksGrowInRun(worlds, changes, d, n, m - 1);
      assert WorldSteps(worlds, changes, m - 1);
      WorldInvRun(worlds, changes, m - 1);
      AcksOnlyGrow(worlds[m - 1], changes[m - 1], d);
    }
  }

  /** A replay for `d` that moves its acknowledgement although something was missed. */
  ghost predicate BadReplay(w: World, c: Change, d: DaemonId) {
    && c.Replay? && c.daemon == d && Owed(w, d).None?
    && ReplayItems(w, d, c.unreadable) !! c.refused && ReplayMisses(w, d, c.unreadable)
  }

  /** A background replay sends a value that the store no longer has, for a parameter whose
      last change `d` has acknowledged. */
  ghost predicate StaleSend(w: World, c: Change, d: DaemonId)
    requires w.log.AckOf(d) <= |w.history|
  {
    && c.Send? && c.accepted && c.item in w.inFlight && c.item.daemon == d && HomeOf(w, c.item.param, d)
    && !TouchedBy(w.history[w.log.AckOf(d)..], c.item.param) && Lookup(w.store, c.item.param) != Some(c.item.value)
  }

  /** The copy stays as close to the store as the log can tell, unless a replay that missed
      something moves the acknowledgement, or a stale value is sent: then, and only then,
      it is lost. */
  lemma BehindStepIff(w: World, c: Change, d: DaemonId)
    requires WorldInv(w) && Behind(w, d)
    ensures Changed(w, c).log.AckOf(d) <= |Changed(w, c).history|
    ensures Behind(Changed(w, c), d) <==> !BadReplay(w, c, d) && !StaleSend(w, c, d)
  {
    WorldInvStep(w, c);
    match c
    case Mutate(op, stored, delivered) =>
      if op.param.node in w.homes && stored {
        MutateKeepsBehind(w, op, delivered, d);
      }
    case CatchUp(x, reachable, limit, acked) => CatchUpKeepsBehind(w, x, reachable, limit, acked, d);
    case Collect(x, unreadable) => assert Changed(w, c).history[w.log.AckOf(d)..] == w.history[w.log.AckOf(d)..];
    case Send(item, accepted) => SendBehindIff(w, item, accepted, d);
    case Replay(x, unreadable, refused) => ReplayBehindIff(w, x, unreadable, refused, d);
    case Leave(x) => assert Changed(w, c).history[w.log.AckOf(d)..] == w.history[w.log.AckOf(d)..];
    case Join(x) => assert Changed(w, c).history[w.log.AckOf(d)..] == w.history[w.log.AckOf(d)..];
  }

  lemma SendBehindIff(w: World, item: Sending, accepted: bool, d: DaemonId)
    requires WorldInv(w) && Behind(w, d)
    ensures Behind(Sent(w, item, accepted), d) <==> !StaleSend(w, Send(item, accepted), d)
  {
    var w' := Sent(w, item, accepted);
    if StaleSend(w, Send(item, accepted), d) {
      assert HomeOf(w', item.param, d) && !TouchedBy(w'.history[w'.log.AckOf(d)..], item.param);
      assert Lookup(CopyOf(w', d), item.param) == Some(item.value);
    }
  }

  lemma ReplayBehindIff(w: World, x: DaemonId, unreadable: set<NodeId>, refused: set<Param>, d: DaemonId)
    requires WorldInv(w) && Behind(w, d)
    ensures Replayed(w, x, unreadable, refused).log.AckOf(d) <= |w.history|
    ensures Behind(Replayed(w, x, unreadable, refused), d) <==> !BadReplay(w, Replay(x, unreadable, refused), d)
  {
    var w' := Replayed(w, x, unreadable, refused);
    var a, a' := w.log.AckOf(d), w'.log.AckOf(d);
    if x == d && Owed(w, d).None? {
      if ReplayItems(w, d, unreadable) !! refused {
        ReplaySyncsIff(w, d, unreadable, refused);
        assert w.history[a'..] == [];
        assert Behind(w', d) <==> Synced(w', d);
      } else {
        assert a' == a;
      }
    }
  }

  /** In every run without such a change, a daemon whose owed entries are all delivered
      ends up with the store's parameters. */
  lemma {:induction false} BehindRun(worlds: seq<World>, changes: seq<Change>, d: DaemonId, n: nat)
    requires IsWorldRun(worlds, changes) && n <= |changes| && Behind(worlds[0], d)
    requires forall i :: 0 <= i < n ==> worlds[i].log.AckOf(d) <= |worlds[i].history|
                                        && !BadReplay(worlds[i], changes[i], d) && !StaleSend(worlds[i], changes[i], d)
    ensures worlds[n].log.AckOf(d) <= |worlds[n].history| && Behind(worlds[n], d)
  {
    if n > 0 {
      BehindRun(worlds, changes, d, n - 1);
      assert WorldSteps(worlds, changes, n - 1);
      WorldInvRun(worlds, changes, n - 1);
      BehindStepIff(worlds[n - 1], changes[n - 1], d);
    }
  }

  // ----- exactly when a replay can be trusted ------------------------------

  /** The world with another copy at `d`. */
  function WithCopy(w: World, d: DaemonId, copy: Params): World {
    w.(copies := w.copies[d := copy])
  }

  /** Every parameter of `d` that changed since its acknowledgement is still in the store
      and can be read. This speaks only of what the coordinator has seen and stored. */
  ghost predicate ReplayCovers(w: World, d: DaemonId, unreadable: set<NodeId>)
    requires w.log.AckOf(d) <= |w.history|
  {
    forall p :: HomeOf(w, p, d) && TouchedBy(w.history[w.log.AckOf(d)..], p) ==> p in w.store && p.node !in unreadable
  }

  lemma CoveredIsNotMissed(w: World, d: DaemonId, unreadable: set<NodeId>)
    requires WorldInv(w) && Behind(w, d) && ReplayCovers(w, d, unreadable)
    ensures !ReplayMisses(w, d, unreadable)
  {
  }

  /** A copy that is behind no more than it may be, and that a replay does not repair. */
  lemma UncoveredIsMissed(w: World, d: DaemonId, unreadable: set<NodeId>) returns (copy: Params)
    requires WorldInv(w) && !ReplayCovers(w, d, unreadable)
    ensures Behind(WithCopy(w, d, copy), d) && ReplayMisses(WithCopy(w, d, copy), d, unreadable)
  {
    var p :| HomeOf(w, p, d) && TouchedBy(w.history[w.log.AckOf(d)..], p) && (p !in w.store || p.node in unreadable);
    copy := if p in w.store then w.store - {p} else w.store[p := ""];
    var w' := WithCopy(w, d, copy);
    assert HomeOf(w', p, d) && Lookup(CopyOf(w', d), p) != Lookup(w'.store, p);
  }

  /** A complete replay brings the daemon up to date, whatever it had applied of the
      operations it still owes, exactly when every parameter touched by those is still
      stored and readable: no deletion and no unreadable node among them. */
  lemma ReplayAlwaysSyncsIff(w: World, d: DaemonId, unreadable: set<NodeId>, refused: set<Param>)
    requires WorldInv(w) && Owed(w, d).None? && ReplayItems(w, d, unreadable) !! refused
    ensures (forall copy :: Behind(WithCopy(w, d, copy), d) ==>
               Synced(Replayed(WithCopy(w, d, copy), d, unreadable, refused), d))
            <==> ReplayCovers(w, d, unreadable)
  {
    if ReplayCovers(w, d, unreadable) {
      forall copy | Behind(WithCopy(w, d, copy), d)
        ensures Synced(Replayed(WithCopy(w, d, copy), d, unreadable, refused), d)
      {
        var w' := WithCopy(w, d, copy);
        assert ReplayCovers(w', d, unreadable);
        CoveredIsNotMissed(w', d, unreadable);
        ReplaySyncsIff(w', d, unreadable, refused);
      }
    } else {
      var copy := UncoveredIsMissed(w, d, unreadable);
      ReplaySyncsIff(WithCopy(w, d, copy), d, unreadable, refused);
    }
  }

  /** Neither a replay that moves the acknowledgement of `d` past something it cannot
      repair, nor the sending of a stale value. */
  ghost predicate SafeChange(w: World, c: Change, d: DaemonId)
    requires w.log.AckOf(d) <= |w.history|
  {
    && !StaleSend(w, c, d)
    && (c.Replay? && c.daemon == d && Owed(w, d).None? && ReplayItems(w, d, c.unreadable) !! c.refused ==>
          ReplayCovers(w, d, c.unreadable))
  }

  /** Whatever `d` has applied of what it owes, it is behind no more than that after `c`. */
  ghost predicate KeepsBehind(w: World, c: Change, d: DaemonId)
    requires w.log.AckOf(d) <= |w.history|
  {
    forall copy :: Behind(WithCopy(w, d, copy), d) ==>
      var w' := Changed(WithCopy(w, d, copy), c); w'.log.AckOf(d) <= |w'.history| && Behind(w', d)
  }

  /** A change keeps every copy as close to the store as the log can tell exactly when it
      is safe, which the coordinator can see before it makes the change. */
  lemma ChangeKeepsBehindIff(w: World, c: Change, d: DaemonId)
    requires WorldInv(w)
    ensures KeepsBehind(w, c, d) <==> SafeChange(w, c, d)
  {
    if SafeChange(w, c, d) {
      forall copy | Behind(WithCopy(w, d, copy), d)
        ensures var w' := Changed(WithCopy(w, d, copy), c); w'.log.AckOf(d) <= |w'.history| && Behind(w', d)
      {
        SafeKeepsBehind(WithCopy(w, d, copy), c, d);
      }
    } else {
      var copy := UnsafeLosesACopy(w, c, d);
    }
  }

  lemma UnsafeLosesACopy(w: World, c: Change, d: DaemonId) returns (copy: Params)
    requires WorldInv(w) && !SafeChange(w, c, d)
    ensures Behind(WithCopy(w, d, copy), d)
    ensures var w' := Changed(WithCopy(w, d, copy), c); w'.log.AckOf(d) <= |w'.history| && !Behind(w', d)
  {
    if StaleSend(w, c, d) {
      copy := w.store;
      assert StaleSend(WithCopy(w, d, copy), c, d);
    } else {
      copy := UncoveredIsMissed(w, d, c.unreadable);
      assert BadReplay(WithCopy(w, d, copy), c, d);
    }
    BehindStepIff(WithCopy(w, d, copy), c, d);
  }

  lemma SafeKeepsBehind(w: World, c: Change, d: DaemonId)
    requires WorldInv(w) && Behind(w, d) && SafeChange(w, c, d)
    ensures var w' := Changed(w, c); w'.log.AckOf(d) <= |w'.history| && Behind(w', d)
  {
    SafeIsNotBad(w, c, d);
    BehindStepIff(w, c, d);
  }

  lemma SafeIsNotBad(w: World, c: Change, d: DaemonId)
    requires WorldInv(w) && Behind(w, d) && SafeChange(w, c, d)
    ensures !BadReplay(w, c, d)
  {
    if BadReplay(w, c, d) {
      CoveredIsNotMissed(w, d, c.unreadable);
    }
  }

  /** In every run of safe changes, a daemon whose acknowledgement reached the head has the
      store's parameters. */
  lemma {:induction false} SafeRunConverges(worlds: seq<World>, changes: seq<Change>, d: DaemonId, n: nat)
    requires IsWorldRun(worlds, changes) && n <= |changes| && Behind(worlds[0], d)
    requires forall i :: 0 <= i < n ==> worlds[i].log.AckOf(d) <= |worlds[i].history| && SafeChange(worlds[i], changes[i], d)
    ensures worlds[n].log.AckOf(d) <= |worlds[n].history| && Behind(worlds[n], d)
    ensures worlds[n].log.AckOf(d) == worlds[n].log.sequence ==> Synced(worlds[n], d)
  {
    WorldInvRun(worlds, changes, n);
    if n > 0 {
      SafeRunConverges(worlds, changes, d, n - 1);
      assert WorldSteps(worlds, changes, n - 1);
      WorldInvRun(worlds, changes, n - 1);
      SafeKeepsBehind(worlds[n - 1], changes[n - 1], d);
    }
    assert worlds[n].log.AckOf(d) == worlds[n].log.sequence ==> worlds[n].history[worlds[n].log.AckOf(d)..] == [];
  }

  // ----- a deletion that is never made up for ------------------------------

  /** `d` still holds a parameter that the store dropped `since` operations ago. */
  ghost predicate HoldsStale(w: World, d: DaemonId, p: Param, ack: nat, since: nat) {
    && d in w.log.daemons && HomeOf(w, p, d) && w.log.AckOf(d) == ack
    && p in CopyOf(w, d) && p !in w.store && w.log.sequence == ack + since
  }

  lemma DeltaOfNext(l: Log, op: Op)
    requires l.Valid()
    ensures l.Append(op).Delta(l.sequence) == Some([Entry(l.sequence + 1, op)])
  {
    var kept := if |l.entries| == MAX_STATE_LOG_ENTRIES then l.entries[1..] else l.entries;
    AppendIs(l, op);
    DeltaIs(l.Append(op), l.sequence);
    LastOf(kept, Entry(l.sequence + 1, op));
  }

  lemma LastOf(kept: seq<Entry>, e: Entry)
    ensures (kept + [e])[|kept|..] == [e]
  {
  }

  /** A daemon at the head is owed exactly the next operation. */
  lemma NextIsOwed(w: World, d: DaemonId, op: Op, delivered: bool)
    requires WorldInv(w) && d in w.log.daemons && op.param.node in w.homes && w.log.AckOf(d) == w.log.sequence
    ensures Owed(Mutated(w, op, delivered), d) == Some([Entry(w.log.sequence + 1, op)])
  {
    DeltaOfNext(w.log, op);
  }

  lemma OneIsDelivered(w: World, d: DaemonId, p: Param, v: string, w': World)
    requires WorldInv(w) && d in w.log.daemons && HomeOf(w, p, d) && w' == CaughtUp(w, d, {p.node}, 1, true)
    requires Owed(w, d) == Some([Entry(w.log.sequence, Set(p, v))])
    ensures w'.log == w.log.Ack(d, w.log.sequence) && w'.homes == w.homes && p in CopyOf(w', d)
    ensures w'.store == w.store && w'.inFlight == w.inFlight
  {
    var es := [Entry(w.log.sequence, Set(p, v))];
    assert p.node in LocalNodes(w, d, {p.node}) && es[1..] == [];
    assert Deliverable(es, LocalNodes(w, d, {p.node})) == 1 == Delivered(w, d, {p.node}, 1);
    assert es[..1] == es && Ops(es) == [Set(p, v)] && [Set(p, v)][1..] == [];
    assert ApplyAll(CopyOf(w, d), Ops(es)) == Apply(CopyOf(w, d), Set(p, v));
  }

  lemma AckToHead(l: Log, d: DaemonId)
    requires l.Valid() && d in l.daemons
    ensures var l' := l.Ack(d, l.sequence); l'.AckOf(d) == l'.sequence == l.sequence && l'.daemons == l.daemons
  {
    AckIs(l, d, l.sequence);
  }

  /** A parameter is set, delivered and acknowledged. */
  lemma SetIsAcknowledged(w: World, d: DaemonId, p: Param, v: string, delivered: bool, m: World, w': World)
    requires WorldInv(w) && d in w.log.daemons && HomeOf(w, p, d) && w.log.AckOf(d) == w.log.sequence
    requires m == Mutated(w, Set(p, v), delivered) && WorldInv(m) && w' == CaughtUp(m, d, {p.node}, 1, true)
    ensures w'.log.AckOf(d) == w'.log.sequence && d in w'.log.daemons && HomeOf(w', p, d) && p in CopyOf(w', d)
    ensures w'.store == w.store[p := v] && w'.inFlight == w.inFlight
  {
    NextIsOwed(w, d, Set(p, v), delivered);
    OneIsDelivered(m, d, p, v, w');
    AckToHead(m.log, d);
  }

  /** `d` is at the head of the log and holds `p`. */
  ghost predicate HoldsAtHead(w: World, d: DaemonId, p: Param) {
    d in w.log.daemons && HomeOf(w, p, d) && w.log.AckOf(d) == w.log.sequence && p in CopyOf(w, d)
  }

  lemma SetPhase(worlds: seq<World>, changes: seq<Change>, i: nat, d: DaemonId, p: Param, v: string, delivered: bool)
    requires IsWorldRun(worlds, changes) && i + 2 <= |changes|
    requires d in worlds[i].log.daemons && HomeOf(worlds[i], p, d)
    requires worlds[i].log.AckOf(d) == worlds[i].log.sequence
    requires changes[i] == Mutate(Set(p, v), true, delivered) && changes[i + 1] == CatchUp(d, {p.node}, 1, true)
    ensures HoldsAtHead(worlds[i + 2], d, p)
    ensures worlds[i + 2].store == worlds[i].store[p := v] && worlds[i + 2].inFlight == worlds[i].inFlight
  {
    WorldInvRun(worlds, changes, i);
    WorldInvRun(worlds, changes, i + 1);
    assert WorldSteps(worlds, changes, i) && WorldSteps(worlds, changes, i + 1);
    SetIsAcknowledged(worlds[i], d, p, v, delivered, worlds[i + 1], worlds[i + 2]);
  }

  lemma DeletePhase(worlds: seq<World>, changes: seq<Change>, i: nat, d: DaemonId, p: Param)
    requires IsWorldRun(worlds, changes) && i < |changes| && HoldsAtHead(worlds[i], d, p)
    requires changes[i] == Mutate(Delete(p), true, false)
    ensures HoldsStale(worlds[i + 1], d, p, worlds[i].log.sequence, 1)
  {
    assert WorldSteps(worlds, changes, i);
  }

  lemma ReplayPhase(worlds: seq<World>, changes: seq<Change>, i: nat, d: DaemonId, p: Param, ack: nat, since: nat)
    requires IsWorldRun(worlds, changes) && i < |changes| && changes[i] == Replay(d, {}, {})
    requires HoldsStale(worlds[i], d, p, ack, since) && since > MAX_STATE_LOG_ENTRIES
    ensures worlds[i + 1].log.AckOf(d) == worlds[i + 1].log.sequence && !Synced(worlds[i + 1], d)
    ensures p in CopyOf(worlds[i + 1], d) && p !in worlds[i + 1].store
  {
    WorldInvRun(worlds, changes, i);
    assert WorldSteps(worlds, changes, i);
    ReplayLeavesStale(worlds[i], d, p, ack, since);
  }

  lemma {:induction false} StaleStays(worlds: seq<World>, changes: seq<Change>, d: DaemonId, p: Param, ack: nat, lo: nat,
                                      n: nat)
    requires IsWorldRun(worlds, changes) && lo <= n <= |changes| && HoldsStale(worlds[lo], d, p, ack, 1)
    requires forall i :: lo <= i < n ==> WritesOther(worlds[i], changes[i], p)
    ensures HoldsStale(worlds[n], d, p, ack, 1 + n - lo)
    decreases n
  {
    if lo < n {
      StaleStays(worlds, changes, d, p, ack, lo, n - 1);
      assert WorldSteps(worlds, changes, n - 1) && WritesOther(worlds[n - 1], changes[n - 1], p);
    }
  }

  predicate WritesOther(w: World, c: Change, p: Param) {
    c.Mutate? && c.stored && c.op.param.node in w.homes && c.op.param != p
  }

  /** How it comes about: a parameter is set and acknowledged, its deletion is stored but
      not delivered, and enough other writes follow to push the deletion out of the log.
      The fallback then succeeds and moves the daemon to the head, and the daemon keeps the
      deleted parameter for good. */
  lemma MissedDeletionStays(worlds: seq<World>, changes: seq<Change>, d: DaemonId, p: Param, v: string, n: nat)
    requires IsWorldRun(worlds, changes) && n >= 3 + MAX_STATE_LOG_ENTRIES && |changes| == n + 1
    requires d in worlds[0].log.daemons && HomeOf(worlds[0], p, d)
    requires worlds[0].log.AckOf(d) == worlds[0].log.sequence
    requires changes[..3] == [Mutate(Set(p, v), true, true), CatchUp(d, {p.node}, 1, true), Mutate(Delete(p), true, false)]
    requires forall i :: 3 <= i < n ==> WritesOther(worlds[i], changes[i], p)
    requires changes[n..] == [Replay(d, {}, {})]
    ensures worlds[n + 1].log.AckOf(d) == worlds[n + 1].log.sequence && !Synced(worlds[n + 1], d)
    ensures p in CopyOf(worlds[n + 1], d) && p !in worlds[n + 1].store
  {
    assert changes[..3][0] == changes[0] && changes[..3][1] == changes[1] && changes[..3][2] == changes[2];
    assert changes[n..][0] == changes[n];
    SetPhase(worlds, changes, 0, d, p, v, true);
    DeletePhase(worlds, changes, 2, d, p);
    StaleStays(worlds, changes, d, p, worlds[2].log.sequence, 3, n);
    ReplayPhase(worlds, changes, n, d, p, worlds[2].log.sequence, n - 2);
  }

  lemma ReplayLeavesStale(w: World, d: DaemonId, p: Param, ack: nat, since: nat)
    requires WorldInv(w) && HoldsStale(w, d, p, ack, since) && since > MAX_STATE_LOG_ENTRIES
    ensures var w' := Replayed(w, d, {}, {});
            && w'.log.AckOf(d) == w'.log.sequence && !Synced(w', d) && p in CopyOf(w', d) && p !in w'.store
  {
    DeltaIs(w.log, ack);
    assert HomeOf(w, p, d) && Lookup(CopyOf(w, d), p) != Lookup(w.store, p);
    ReplaySyncsIff(w, d, {}, {});
  }

  // ----- a value that arrives late -----------------------------------------

  lemma {:induction false} HistoryGrows(worlds: seq<World>, changes: seq<Change>, i: nat, j: nat)
    requires IsWorldRun(worlds, changes) && i <= j <= |changes|
    ensures worlds[i].history <= worlds[j].history && worlds[i].homes == worlds[j].homes
    decreases j
  {
    if i < j {
      assert WorldSteps(worlds, changes, j - 1);
      HistoryGrows(worlds, changes, i, j - 1);
    }
  }

  /** What was collected at step `i` may be sent at step `j` if nothing acknowledged by then
      touched its parameter in between. */
  lemma UntouchedSendIsSafe(worlds: seq<World>, changes: seq<Change>, i: nat, j: nat, d: DaemonId)
    requires IsWorldRun(worlds, changes) && i <= j < |changes|
    requires changes[j].Send? && changes[j].item.daemon == d
    requires Lookup(worlds[i].store, changes[j].item.param) == Some(changes[j].item.value)
    requires worlds[j].log.AckOf(d) <= |worlds[j].history|
    requires forall k :: |worlds[i].history| <= k < worlds[j].log.AckOf(d) ==>
               worlds[j].history[k].param != changes[j].item.param
    ensures SafeChange(worlds[j], changes[j], d)
  {
    var p, w, w' := changes[j].item.param, worlds[i], worlds[j];
    HistoryGrows(worlds, changes, i, j);
    WorldInvRun(worlds, changes, i);
    WorldInvRun(worlds, changes, j);
    if !TouchedBy(w'.history[w'.log.AckOf(d)..], p) {
      var tail := w'.history[|w.history|..];
      assert !TouchedBy(tail, p) by {
        forall k | 0 <= k < |tail|
          ensures tail[k].param != p
        {
          NotTouchedAt(w'.history, w'.log.AckOf(d), |w.history| + k, p);
        }
      }
      assert w'.history == w.history + tail;
      ApplyAllConcat(w.base, w.history, tail);
      BaseStays(worlds, changes, i, j);
      ApplyAllUntouched(w.store, tail, p);
    }
  }

  lemma NotTouchedAt(ops: seq<Op>, a: nat, k: nat, p: Param)
    requires a <= |ops| && k < |ops| && !TouchedBy(ops[a..], p)
    ensures a <= k ==> ops[k].param != p
  {
    if a <= k {
      assert ops[a..][k - a] == ops[k];
    }
  }

  lemma {:induction false} BaseStays(worlds: seq<World>, changes: seq<Change>, i: nat, j: nat)
    requires IsWorldRun(worlds, changes) && i <= j <= |changes|
    ensures worlds[j].base == worlds[i].base
    decreases j
  {
    if i < j {
      assert WorldSteps(worlds, changes, j - 1);
      BaseStays(worlds, changes, i, j - 1);
    }
  }

  /** How it goes wrong: a released barrier collects a value, the parameter is set anew and
      the daemon acknowledges that, and then the collected value arrives. The daemon counts
      as caught up and holds the old value. */
  lemma LateSendUndoesCatchUp(worlds: seq<World>, changes: seq<Change>, d: DaemonId, p: Param, v: string,
                              delivered: bool)
    requires IsWorldRun(worlds, changes)
    requires d in worlds[0].log.daemons && HomeOf(worlds[0], p, d)
    requires worlds[0].log.AckOf(d) == worlds[0].log.sequence && p in worlds[0].store && worlds[0].store[p] != v
    requires changes == [Collect(d, {}), Mutate(Set(p, v), true, delivered), CatchUp(d, {p.node}, 1, true),
                         Send(Sending(d, p, worlds[0].store[p]), true)]
    ensures worlds[4].log.AckOf(d) == worlds[4].log.sequence && !Synced(worlds[4], d)
    ensures Lookup(CopyOf(worlds[4], d), p) == Some(worlds[0].store[p]) && Lookup(worlds[4].store, p) == Some(v)
  {
    CollectPhase(worlds, changes, 0, d, p);
    SetPhase(worlds, changes, 1, d, p, v, delivered);
    SendPhase(worlds, changes, 3, d, p, v, worlds[0].store[p]);
  }

  lemma CollectPhase(worlds: seq<World>, changes: seq<Change>, i: nat, d: DaemonId, p: Param)
    requires IsWorldRun(worlds, changes) && i < |changes| && changes[i] == Collect(d, {})
    requires HomeOf(worlds[i], p, d) && p in worlds[i].store
    ensures worlds[i + 1] == worlds[i].(inFlight := worlds[i + 1].inFlight)
    ensures Sending(d, p, worlds[i].store[p]) in worlds[i + 1].inFlight
  {
    assert WorldSteps(worlds, changes, i);
    CollectsIt(worlds[i], d, p);
  }

  lemma SendPhase(worlds: seq<World>, changes: seq<Change>, i: nat, d: DaemonId, p: Param, v: string, late: string)
    requires IsWorldRun(worlds, changes) && i < |changes| && changes[i] == Send(Sending(d, p, late), true)
    requires HomeOf(worlds[i], p, d) && Lookup(worlds[i].store, p) == Some(v) && v != late
    requires Sending(d, p, late) in worlds[i].inFlight
    ensures var w, w' := worlds[i], worlds[i + 1];
            && w'.log == w.log && w'.store == w.store && !Synced(w', d) && Lookup(CopyOf(w', d), p) == Some(late)
  {
    assert WorldSteps(worlds, changes, i);
    ArrivesLate(worlds[i], d, p, v, late);
  }

  lemma CollectsIt(w: World, d: DaemonId, p: Param)
    requires HomeOf(w, p, d) && p in w.store
    ensures Sending(d, p, w.store[p]) in Collected(w, d, {}).inFlight
  {
    assert p in ReplayItems(w, d, {});
  }

  lemma ArrivesLate(w: World, d: DaemonId, p: Param, v: string, late: string)
    requires HomeOf(w, p, d) && Lookup(w.store, p) == Some(v) && v != late && Sending(d, p, late) in w.inFlight
    ensures var w' := Sent(w, Sending(d, p, late), true);
            && w'.log == w.log && w'.store == w.store && !Synced(w', d) && Lookup(CopyOf(w', d), p) == Some(late)
  {
    var w' := Sent(w, Sending(d, p, late), true);
    assert HomeOf(w', p, d) && Lookup(CopyOf(w', d), p) != Lookup(w'.store, p);
  }

  // ----- entries rebuilt from the store ------------------------------------

  /** The entry was dropped, `ops` were applied to the store while there was none, and a
      report of `d` running `nodes` rebuilt it: an empty log, nothing to acknowledge, and
      whatever the daemon had. */
  function Rebuilt(w: World, d: DaemonId, nodes: set<NodeId>, ops: seq<Op>): World {
    World(Log([], 0, map[d := 0], {d}), ApplyAll(w.store, ops), [], ApplyAll(w.store, ops), map n | n in nodes :: d,
          w.copies, w.inFlight)
  }

  lemma RebuiltIsValid(w: World, d: DaemonId, nodes: set<NodeId>, ops: seq<Op>)
    ensures WorldInv(Rebuilt(w, d, nodes, ops))
  {
  }

  /** The barrier's parameter replay, with every value taken. */
  function Refreshed(w: World, d: DaemonId, unreadable: set<NodeId>): World {
    w.(copies := w.copies[d := CopyOf(w, d) + map p | p in ReplayItems(w, d, unreadable) :: w.store[p]])
  }

  /** `p` changed after what `d` acknowledged, or while there was no entry. */
  ghost predicate Unseen(w: World, d: DaemonId, after: Params, p: Param)
    requires w.log.AckOf(d) <= |w.history|
  {
    TouchedBy(w.history[w.log.AckOf(d)..], p) || Lookup(w.store, p) != Lookup(after, p)
  }

  /** Every parameter of the reported nodes that `d` had not acknowledged, or that changed
      while there was no entry, is stored and readable. */
  ghost predicate RebuildCovers(w: World, d: DaemonId, nodes: set<NodeId>, ops: seq<Op>, unreadable: set<NodeId>)
    requires w.log.AckOf(d) <= |w.history|
  {
    var after := ApplyAll(w.store, ops);
    forall p: Param :: p.node in nodes && Unseen(w, d, after, p) ==> p in after && p.node !in unreadable
  }

  lemma RefreshedAt(w: World, d: DaemonId, nodes: set<NodeId>, ops: seq<Op>, unreadable: set<NodeId>, p: Param)
    requires p.node in nodes
    ensures var w', after := Refreshed(Rebuilt(w, d, nodes, ops), d, unreadable), ApplyAll(w.store, ops);
            && HomeOf(w', p, d)
            && Lookup(CopyOf(w', d), p)
               == if p in after && p.node !in unreadable then Lookup(after, p) else Lookup(CopyOf(w, d), p)
  {
    var r := Rebuilt(w, d, nodes, ops);
    assert HomeOf(r, p, d);
    assert p in ReplayItems(r, d, unreadable) <==> p in r.store && p.node !in unreadable;
  }

  /** A rebuilt daemon is up to date after the barrier's parameter replay, whatever it had
      applied of what it owed, exactly when nothing it missed was deleted or is unreadable.
      There is nothing left to catch up with, so otherwise it stays that way. */
  lemma RebuiltSyncsIff(w: World, d: DaemonId, nodes: set<NodeId>, ops: seq<Op>, unreadable: set<NodeId>)
    requires WorldInv(w) && forall n :: n in nodes ==> n in w.homes && w.homes[n] == d
    ensures (forall copy :: Behind(WithCopy(w, d, copy), d) ==>
               Synced(Refreshed(Rebuilt(WithCopy(w, d, copy), d, nodes, ops), d, unreadable), d))
            <==> RebuildCovers(w, d, nodes, ops, unreadable)
  {
    if RebuildCovers(w, d, nodes, ops, unreadable) {
      forall copy | Behind(WithCopy(w, d, copy), d)
        ensures Synced(Refreshed(Rebuilt(WithCopy(w, d, copy), d, nodes, ops), d, unreadable), d)
      {
        CoveredRebuildSyncs(WithCopy(w, d, copy), d, nodes, ops, unreadable);
      }
    } else {
      var copy := UncoveredRebuild(w, d, nodes, ops, unreadable);
    }
  }

  lemma CoveredRebuildSyncs(w: World, d: DaemonId, nodes: set<NodeId>, ops: seq<Op>, unreadable: set<NodeId>)
    requires WorldInv(w) && forall n :: n in nodes ==> n in w.homes && w.homes[n] == d
    requires Behind(w, d) && RebuildCovers(w, d, nodes, ops, unreadable)
    ensures Synced(Refreshed(Rebuilt(w, d, nodes, ops), d, unreadable), d)
  {
    var w' := Refreshed(Rebuilt(w, d, nodes, ops), d, unreadable);
    forall p | HomeOf(w', p, d)
      ensures Lookup(CopyOf(w', d), p) == Lookup(w'.store, p)
    {
      RefreshedAt(w, d, nodes, ops, unreadable, p);
      assert HomeOf(w, p, d);
    }
  }

  lemma UncoveredRebuild(w: World, d: DaemonId, nodes: set<NodeId>, ops: seq<Op>, unreadable: set<NodeId>)
    returns (copy: Params)
    requires WorldInv(w) && !RebuildCovers(w, d, nodes, ops, unreadable)
    ensures Behind(WithCopy(w, d, copy), d)
    ensures !Synced(Refreshed(Rebuilt(WithCopy(w, d, copy), d, nodes, ops), d, unreadable), d)
  {
    var after := ApplyAll(w.store, ops);
    var p: Param :| p.node in nodes && Unseen(w, d, after, p) && !(p in after && p.node !in unreadable);
    copy := if Lookup(w.store, p) != Lookup(after, p) then w.store
            else if p in w.store then w.store - {p} else w.store[p := ""];
    var w1 := WithCopy(w, d, copy);
    var w' := Refreshed(Rebuilt(w1, d, nodes, ops), d, unreadable);
    RefreshedAt(w1, d, nodes, ops, unreadable, p);
    assert HomeOf(w', p, d) && Lookup(CopyOf(w', d), p) != Lookup(w'.store, p);
  }

  /** `d` holds a parameter that the store does not, and no log entry or background replay
      speaks of it. */
  ghost predicate Forgotten(w: World, d: DaemonId, p: Param) {
    && p in CopyOf(w, d) && p !in w.store && !TouchedBy(w.history, p)
    && forall item :: item in w.inFlight ==> item.param != p
  }

  lemma ForgottenStep(w: World, c: Change, d: DaemonId, p: Param)
    requires WorldInv(w) && Forgotten(w, d, p) && (c.Mutate? ==> c.op.param != p)
    ensures Forgotten(Changed(w, c), d, p)
  {
    match c
    case Mutate(op, stored, delivered) =>
      if op.param.node in w.homes && stored {
        ForgottenMutate(w, op, delivered, d, p);
      }
    case CatchUp(x, reachable, limit, acked) => ForgottenCatchUp(w, x, reachable, limit, acked, d, p);
    case Collect(x, unreadable) => ForgottenCollect(w, x, unreadable, d, p);
    case Send(item, accepted) => ForgottenSend(w, item, accepted, d, p);
    case _ =>
  }

  lemma ForgottenMutate(w: World, op: Op, delivered: bool, d: DaemonId, p: Param)
    requires Forgotten(w, d, p) && op.param.node in w.homes && op.param != p
    ensures Forgotten(Mutated(w, op, delivered), d, p)
  {
    assert forall i :: 0 <= i < |w.history + [op]| ==> (w.history + [op])[i].param != p;
  }

  lemma ForgottenCollect(w: World, x: DaemonId, unreadable: set<NodeId>, d: DaemonId, p: Param)
    requires Forgotten(w, d, p)
    ensures Forgotten(Collected(w, x, unreadable), d, p)
  {
    forall item | item in Collected(w, x, unreadable).inFlight
      ensures item.param != p
    {
      if item !in w.inFlight {
        assert item in (set q | q in ReplayItems(w, x, unreadable) :: Sending(x, q, w.store[q]));
      }
    }
  }

  lemma ForgottenSend(w: World, item: Sending, accepted: bool, d: DaemonId, p: Param)
    requires Forgotten(w, d, p)
    ensures Forgotten(Sent(w, item, accepted), d, p)
  {
    assert forall x :: x in Sent(w, item, accepted).inFlight ==> x in w.inFlight;
  }

  lemma ForgottenCatchUp(w: World, x: DaemonId, reachable: set<NodeId>, limit: nat, acked: bool, d: DaemonId, p: Param)
    requires WorldInv(w) && Forgotten(w, d, p)
    ensures Forgotten(CaughtUp(w, x, reachable, limit, acked), d, p)
  {
    if Owed(w, x).Some? && Delivered(w, x, reachable, limit) > 0 {
      var n := Delivered(w, x, reachable, limit);
      var ops := Ops(Owed(w, x).value[..n]);
      OwedIs(w, x);
      forall i | 0 <= i < n
        ensures ops[i].param != p
      {
        assert ops[i] == Ops(Owed(w, x).value)[i] == w.history[w.log.AckOf(x)..][i];
      }
      ApplyAllUntouched(CopyOf(w, x), ops, p);
    }
  }

  lemma DeletedOffline(w: World, d: DaemonId, nodes: set<NodeId>, p: Param)
    requires p in CopyOf(w, d) && forall item :: item in w.inFlight ==> item.param != p
    ensures var w' := Rebuilt(w, d, nodes, [Delete(p)]); p in CopyOf(w', d) && p !in w'.store && Forgotten(w', d, p)
  {
    assert [Delete(p)][1..] == [];
    assert ApplyAll(w.store, [Delete(p)]) == w.store - {p};
  }

  /** A parameter that is deleted while its dataflow has no live entry is never taken from a
      daemon that comes back with it: not by the barrier's replay, nor by a catch-up, nor by
      the fallback, in any run, until somebody writes that parameter again. */
  lemma {:induction false} OfflineDeletionStays(w: World, worlds: seq<World>, changes: seq<Change>, d: DaemonId,
                                                nodes: set<NodeId>, p: Param, n: nat)
    requires p in CopyOf(w, d) && forall item :: item in w.inFlight ==> item.param != p
    requires IsWorldRun(worlds, changes) && n <= |changes| && worlds[0] == Rebuilt(w, d, nodes, [Delete(p)])
    requires forall i :: 0 <= i < n && changes[i].Mutate? ==> changes[i].op.param != p
    ensures p in CopyOf(worlds[n], d) && p !in worlds[n].store && Forgotten(worlds[n], d, p)
  {
    if n == 0 {
      DeletedOffline(w, d, nodes, p);
    } else {
      OfflineDeletionStays(w, worlds, changes, d, nodes, p, n - 1);
      assert WorldSteps(worlds, changes, n - 1);
      WorldInvRun(worlds, changes, n - 1);
      ForgottenStep(worlds[n - 1], changes[n - 1], d, p);
    }
  }

  // ----- entries for other daemons' nodes ----------------------------------

  /** An acknowledged catch-up moves the daemon by as many entries as it could deliver. */
  lemma CatchUpMoves(w: World, d: DaemonId, reachable: set<NodeId>, limit: nat)
    requires WorldInv(w) && d in w.log.daemons && Owed(w, d).Some? && w.log.AckOf(d) < w.log.sequence
    ensures |Owed(w, d).value| == w.log.sequence - w.log.AckOf(d)
    ensures CaughtUp(w, d, reachable, limit, true).log.AckOf(d) == w.log.AckOf(d) + Delivered(w, d, reachable, limit)
  {
    var n := Delivered(w, d, reachable, limit);
    DeltaIs(w.log, w.log.AckOf(d));
    OwedIs(w, d);
    if n > 0 {
      AckIs(w.log, d, Owed(w, d).value[n - 1].seqno);
    }
  }

  /** One catch-up brings a lagging daemon to the head of the log exactly when every owed
      entry is for a node it runs and can reach, and the channels take them all. */
  lemma CatchUpReachesHeadIff(w: World, d: DaemonId, reachable: set<NodeId>, limit: nat)
    requires WorldInv(w) && d in w.log.daemons && Owed(w, d).Some? && w.log.AckOf(d) < w.log.sequence
    ensures CaughtUp(w, d, reachable, limit, true).log.AckOf(d) == w.log.sequence <==>
              && w.log.sequence - w.log.AckOf(d) <= limit
              && forall op :: op in w.history[w.log.AckOf(d)..] ==> op.param.node in reachable && HomeOf(w, op.param, d)
  {
    CatchUpMoves(w, d, reachable, limit);
    OwedIs(w, d);
    DeliverableIff(w, d, Owed(w, d).value, reachable);
  }

  lemma DeliverableIff(w: World, d: DaemonId, es: seq<Entry>, reachable: set<NodeId>)
    ensures Deliverable(es, LocalNodes(w, d, reachable)) == |es| <==>
              forall op :: op in Ops(es) ==> op.param.node in reachable && HomeOf(w, op.param, d)
  {
    var n := Deliverable(es, LocalNodes(w, d, reachable));
    if n < |es| {
      assert Ops(es)[n] == es[n].op;
    } else {
      forall op | op in Ops(es)
        ensures op.param.node in reachable && HomeOf(w, op.param, d)
      {
        var i :| 0 <= i < |es| && Ops(es)[i] == op;
        assert es[i].op.param.node in LocalNodes(w, d, reachable);
      }
    }
  }

  /** Operation `k` is for a node that another daemon runs. */
  ghost predicate ForeignAt(w: World, d: DaemonId, k: nat) {
    k < |w.history| && !HomeOf(w, w.history[k].param, d)
  }

  /** A daemon delivers nothing from the first foreign entry on. */
  lemma ForeignStops(w: World, d: DaemonId, reachable: set<NodeId>, k: nat)
    requires WorldInv(w) && ForeignAt(w, d, k) && w.log.AckOf(d) <= k
    requires Owed(w, d).Some? && Owed(w, d).value != []
    ensures Deliverable(Owed(w, d).value, LocalNodes(w, d, reachable)) <= k - w.log.AckOf(d)
  {
    var es, i := Owed(w, d).value, k - w.log.AckOf(d);
    OwedIs(w, d);
    assert |Ops(es)| == |es| && Ops(es)[i] == w.history[w.log.AckOf(d)..][i];
    assert es[i].op.param.node !in LocalNodes(w, d, reachable);
  }

  lemma StalledStep(w: World, c: Change, d: DaemonId, k: nat)
    requires WorldInv(w) && ForeignAt(w, d, k) && w.log.AckOf(d) <= k && !(c.Replay? && c.daemon == d)
    ensures ForeignAt(Changed(w, c), d, k) && Changed(w, c).log.AckOf(d) <= k
  {
    match c
    case CatchUp(x, reachable, limit, acked) =>
      if Owed(w, x).Some? {
        var es := Owed(w, x).value;
        var n := Delivered(w, x, reachable, limit);
        if n > 0 {
          OwedIs(w, x);
          AckIs(w.log, x, es[n - 1].seqno);
          if x == d {
            ForeignStops(w, d, reachable, k);
          }
        }
      }
    case _ =>
  }

  /** Once an entry for another daemon's node lies ahead of its acknowledgement, a daemon
      never gets past it by catching up, in any run: only a full replay helps. */
  lemma {:induction false} ForeignEntryStalls(worlds: seq<World>, changes: seq<Change>, d: DaemonId, k: nat, n: nat,
                                              m: nat)
    requires IsWorldRun(worlds, changes) && n <= m <= |changes|
    requires ForeignAt(worlds[n], d, k) && worlds[n].log.AckOf(d) <= k
    requires forall i :: n <= i < m ==> !(changes[i].Replay? && changes[i].daemon == d)
    ensures ForeignAt(worlds[m], d, k) && worlds[m].log.AckOf(d) <= k
    decreases m
  {
    if n < m {
      ForeignEntryStalls(worlds, changes, d, k, n, m - 1);
      assert WorldSteps(worlds, changes, m - 1);
      WorldInvRun(worlds, changes, m - 1);
      StalledStep(worlds[m - 1], changes[m - 1], d, k);
    }
  }

  /** How it comes about: one stored write for a node of another daemon is enough. From then
      on `d` is never at the head of the log, in any run without a full replay for it. */
  lemma ForeignWriteStalls(worlds: seq<World>, changes: seq<Change>, d: DaemonId, op: Op, delivered: bool, n: nat)
    requires IsWorldRun(worlds, changes) && 0 < n <= |changes|
    requires changes[0] == Mutate(op, true, delivered) && op.param.node in worlds[0].homes
    requires worlds[0].homes[op.param.node] != d
    requires forall i :: 0 < i < n ==> !(changes[i].Replay? && changes[i].daemon == d)
    ensures worlds[n].log.AckOf(d) < worlds[n].log.sequence
  {
    var k := |worlds[0].history|;
    assert WorldSteps(worlds, changes, 0) && worlds[1].history[k] == op;
    ForeignEntryStalls(worlds, changes, d, k, 1, n);
    WorldInvRun(worlds, changes, n);
  }

  // ----- the log, updated in place -----------------------------------------

  class StateLog {
    var entries: seq<Entry>
    var sequence: nat
    var acks: map<DaemonId, nat>
    var daemons: set<DaemonId>
    var lastReplay: map<DaemonId, Millis>

    ghost function View(): Log
      reads this
    {
      Log(entries, sequence, acks, daemons)
    }

    constructor (members: set<DaemonId>)
      ensures View().Valid() && View() == Log([], 0, map[], members) && lastReplay == map[]
    {
      entries, sequence, acks, daemons, lastReplay := [], 0, map[], members, map[];
    }

    method AppendStateLog(op: Op)
      modifies this`entries, this`sequence
      ensures View() == old(View()).Append(op)
    {
      sequence := sequence + 1;
      entries := entries + [Entry(sequence, op)];
      if |entries| > MAX_STATE_LOG_ENTRIES {
        entries := entries[|entries| - MAX_STATE_LOG_ENTRIES..];
      }
    }

    method LeastLiveAck() returns (m: nat)
      ensures m == View().MinAck()
    {
      m := 0;
      var todo, first := daemons, true;
      while todo != {}
        invariant todo <= daemons && (first <==> todo == daemons)
        invariant first ==> m == 0
        invariant !first ==> exists d :: d in daemons - todo && View().AckOf(d) == m
        invariant forall d :: d in daemons - todo ==> m <= View().AckOf(d)
      {
        var d :| d in todo;
        var a := if d in acks then acks[d] else 0;
        if first || a < m {
          m := a;
        }
        assert d in daemons - (todo - {d}) && View().AckOf(d) == a;
        first, todo := false, todo - {d};
      }
    }

    /** Entries that every live daemon acknowledged are dropped. */
    method PruneStateLog()
      modifies this`entries
      ensures View() == old(View()).Prune()
    {
      var m := LeastLiveAck();
      entries := EntriesAfter(entries, m);
    }

    method StateLogDelta(lastAck: nat) returns (r: Option<seq<Entry>>)
      ensures r == View().Delta(lastAck)
    {
      if entries == [] {
        return if lastAck < sequence then None else Some([]);
      }
      if lastAck + 1 < entries[0].seqno {
        return None;
      }
      var kept := EntriesAfter(entries, lastAck);
      return Some(kept);
    }

    method HandleAck(d: DaemonId, n: nat)
      modifies this`entries, this`acks
      ensures View() == old(View()).Ack(d, n)
    {
      if d in daemons {
        var current := if d in acks then acks[d] else 0;
        var bounded := if n < sequence then n else sequence;
        acks := acks[d := if bounded < current then current else bounded];
        PruneStateLog();
      }
    }

    /** The pruned-log fallback: resend every stored parameter of the daemon's nodes. The
        daemon counts as caught up only if each one was confirmed. */
    method ReplayFallback(d: DaemonId, connected: bool, now: Millis, store: Params, homes: map<NodeId, DaemonId>,
                          unreadable: set<NodeId>, refused: set<Param>, ghost w: World)
      returns (ran: bool, confirmed: Params)
      requires w.store == store && w.homes == homes && w.log == View() && Owed(w, d).None?
      modifies this`acks, this`lastReplay
      ensures ran == (connected && !(d in old(lastReplay) && Elapsed(now, old(lastReplay)[d]) < FALLBACK_REPLAY_BACKOFF))
      ensures !ran ==> acks == old(acks) && lastReplay == old(lastReplay)
      ensures ran ==> lastReplay == old(lastReplay)[d := now]
      ensures ran ==>
                Replayed(w, d, unreadable, refused) == w.(log := View(), copies := w.copies[d := CopyOf(w, d) + confirmed])
    {
      confirmed := map[];
      ran := false;
      if d in lastReplay && Elapsed(now, lastReplay[d]) < FALLBACK_REPLAY_BACKOFF {
        return;
      }
      if !connected {
        return;
      }
      ran := true;
      lastReplay := lastReplay[d := now];
      var items := CollectItems(d, store, homes, unreadable);
      assert items == ReplayItems(w, d, unreadable);
      var failed: nat;
      confirmed, failed := SendEach(items, store, refused);
      NoneRefusedIff(items, refused);
      if failed == 0 {
        acks := acks[d := sequence];
      }
    }
  }

  lemma NoneRefusedIff(items: set<Param>, refused: set<Param>)
    ensures items !! refused <==> |items * refused| == 0
  {
    if |items * refused| == 0 {
      assert forall p :: p in items ==> p !in items * refused;
    }
  }

  /** Sends the items one by one and counts the ones that were not confirmed. */
  method SendEach(items: set<Param>, store: Params, refused: set<Param>) returns (confirmed: Params, failed: nat)
    requires items <= store.Keys
    ensures confirmed == map p | p in items - refused :: store[p]
    ensures failed == |items * refused|
  {
    confirmed, failed := map[], 0;
    var todo := items;
    while todo != {}
      invariant todo <= items
      invariant confirmed == map p | p in items - todo - refused :: store[p]
      invariant failed == |(items - todo) * refused|
    {
      var p :| p in todo;
      CountNext(items, todo, refused, p);
      if p in refused {
        failed := failed + 1;
      } else {
        confirmed := confirmed[p := store[p]];
      }
      todo := todo - {p};
    }
    assert items - {} == items;
  }

  lemma CountNext(items: set<Param>, todo: set<Param>, refused: set<Param>, p: Param)
    requires p in todo && todo <= items
    ensures |(items - (todo - {p})) * refused| == |(items - todo) * refused| + if p in refused then 1 else 0
  {
    if p in refused {
      assert (items - (todo - {p})) * refused == (items - todo) * refused + {p};
    } else {
      assert (items - (todo - {p})) * refused == (items - todo) * refused;
    }
  }

  method EntriesAfter(entries: seq<Entry>, n: nat) returns (kept: seq<Entry>)
    ensures kept == After(entries, n)
  {
    kept := [];
    var i := 0;
    while i < |entries|
      invariant 0 <= i <= |entries|
      invariant kept + After(entries[i..], n) == After(entries, n)
    {
      assert entries[i..][1..] == entries[i + 1..];
      if entries[i].seqno > n {
        kept := kept + [entries[i]];
      }
      i := i + 1;
    }
  }

  /** The stored parameters of the daemon's nodes; a node that cannot be read is skipped. */
  method CollectItems(d: DaemonId, store: Params, homes: map<NodeId, DaemonId>, unreadable: set<NodeId>)
    returns (items: set<Param>)
    ensures items == set p | p in store && p.node in homes && homes[p.node] == d && p.node !in unreadable
  {
    items := {};
    var todo := homes.Keys;
    while todo != {}
      invariant todo <= homes.Keys
      invariant items == set p | p in store && p.node in homes.Keys - todo && homes[p.node] == d && p.node !in unreadable
    {
      var node :| node in todo;
      if homes[node] == d && node !in unreadable {
        items := items + set p | p in store && p.node == node;
      }
      todo := todo - {node};
    }
  }

  lemma DeliverableFrom(entries: seq<Entry>, connected: set<NodeId>, i: nat)
    requires i < |entries|
    ensures Deliverable(entries[i..], connected)
         == if entries[i].op.param.node in connected then 1 + Deliverable(entries[i + 1..], connected) else 0
  {
    assert entries[i..][1..] == entries[i + 1..];
  }

  lemma ApplyNext(copy: Params, entries: seq<Entry>, i: nat)
    requires i < |entries|
    ensures ApplyAll(copy, Ops(entries[..i + 1])) == Apply(ApplyAll(copy, Ops(entries[..i])), entries[i].op)
  {
    assert Ops(entries[..i + 1]) == Ops(entries[..i]) + [entries[i].op];
    ApplyAllConcat(copy, Ops(entries[..i]), [entries[i].op]);
    assert [entries[i].op][1..] == [];
  }

  /** The daemon's side of a catch-up: apply in order, stop at the first entry whose node is
      not connected here or whose channel takes no more (the one after `limit` entries), and
      report how far that went. */
  method ApplyCatchUp(copy: Params, entries: seq<Entry>, connected: set<NodeId>, limit: nat)
    returns (copy': Params, through: nat)
    ensures var deliverable := Deliverable(entries, connected);
            var n := if limit < deliverable then limit else deliverable;
            copy' == ApplyAll(copy, Ops(entries[..n])) && through == if n == 0 then 0 else entries[n - 1].seqno
  {
    copy', through := copy, 0;
    var i := 0;
    assert entries[0..] == entries && Ops(entries[..0]) == [];
    while i < |entries|
      invariant 0 <= i <= |entries| && i <= limit
      invariant Deliverable(entries, connected) == i + Deliverable(entries[i..], connected)
      invariant copy' == ApplyAll(copy, Ops(entries[..i]))
      invariant through == if i == 0 then 0 else entries[i - 1].seqno
    {
      DeliverableFrom(entries, connected, i);
      if entries[i].op.param.node !in connected {
        return;
      }
      if i == limit {
        return;
      }
      ApplyNext(copy, entries, i);
      copy' := Apply(copy', entries[i].op);
      through := entries[i].seqno;
      i := i + 1;
    }
  }
}
