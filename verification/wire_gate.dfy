/** The wire-format compatibility gate: an ordered diff of message types that must let
    through exactly the changes that keep old messages decodable. */
module WireGate {
  import opened Common

  datatype Level = BREAK | WARN

  datatype Note =
    | Removed(owner: string, member: string)
    | Added(owner: string, member: string)
    | Reordered(owner: string)
    | Inserted(owner: string)
    | FormChanged(owner: string, variant: string)
    | FieldRemoved(owner: string, variant: string, field: string)
    | FieldAdded(owner: string, variant: string, field: string)
    | TypeRemoved(name: string)
    | ContainerChanged(name: string)
    | KindChanged(name: string)

  datatype Finding = Finding(level: Level, note: Note)

  predicate Breaks(fs: seq<Finding>) {
    exists i :: 0 <= i < |fs| && fs[i].level == BREAK
  }

  lemma BreaksConcat(a: seq<Finding>, b: seq<Finding>)
    ensures Breaks(a + b) <==> Breaks(a) || Breaks(b)
  {
    if Breaks(a) {
      var i :| 0 <= i < |a| && a[i].level == BREAK;
      assert (a + b)[i].level == BREAK;
    }
    if Breaks(b) {
      var i :| 0 <= i < |b| && b[i].level == BREAK;
      assert (a + b)[|a| + i].level == BREAK;
    }
  }

  // ----- ordered member lists ----------------------------------------------

  function Shared(s: seq<string>, t: seq<string>): seq<string> {
    if s == [] then [] else (if s[0] in t then [s[0]] else []) + Shared(s[1..], t)
  }

  function Missing(s: seq<string>, t: seq<string>): seq<string> {
    if s == [] then [] else (if s[0] in t then [] else [s[0]]) + Missing(s[1..], t)
  }

  function Report(level: Level, notes: seq<Note>): seq<Finding> {
    seq(|notes|, i requires 0 <= i < |notes| => Finding(level, notes[i]))
  }

  function RemovedNotes(owner: string, ms: seq<string>): seq<Note> {
    seq(|ms|, i requires 0 <= i < |ms| => Removed(owner, ms[i]))
  }

  function AddedNotes(owner: string, ms: seq<string>): seq<Note> {
    seq(|ms|, i requires 0 <= i < |ms| => Added(owner, ms[i]))
  }

  /** What the ordered comparison reports. */
  function OrderedFindings(owner: string, old_: seq<string>, new_: seq<string>, addedLevel: Level): seq<Finding> {
    var removed, added := Missing(old_, new_), Missing(new_, old_);
    var keptOld, keptNew := Shared(old_, new_), Shared(new_, old_);
    Report(BREAK, RemovedNotes(owner, removed))
    + Report(addedLevel, AddedNotes(owner, added))
    + (if keptOld != keptNew && removed == [] then [Finding(BREAK, Reordered(owner))] else [])
    + (if added != [] && removed == [] && keptOld == keptNew && !(old_ <= new_)
       then [Finding(BREAK, Inserted(owner))] else [])
  }

  /** `new_` is `old_` followed by members that are really new. */
  predicate Extends(old_: seq<string>, new_: seq<string>) {
    old_ <= new_ && forall m :: m in new_[|old_|..] ==> m !in old_
  }

  lemma {:induction false} MissingIs(s: seq<string>, t: seq<string>)
    ensures Missing(s, t) == [] <==> forall m :: m in s ==> m in t
    ensures Missing(s, t) == [] ==> Shared(s, t) == s
  {
    if s != [] {
      MissingIs(s[1..], t);
    }
  }

  lemma {:induction false} SharedConcat(a: seq<string>, b: seq<string>, t: seq<string>)
    ensures Shared(a + b, t) == Shared(a, t) + Shared(b, t)
  {
    if a == [] {
      assert a + b == b;
    } else {
      assert (a + b)[1..] == a[1..] + b;
      SharedConcat(a[1..], b, t);
    }
  }

  lemma {:induction false} SharedNone(s: seq<string>, t: seq<string>)
    ensures Shared(s, t) == [] <==> forall m :: m in s ==> m !in t
  {
    if s != [] {
      SharedNone(s[1..], t);
    }
  }

  /** On a prefix, keeping the order is the same as adding only new members. */
  lemma PrefixKeepsOrderIff(old_: seq<string>, new_: seq<string>)
    requires old_ <= new_
    ensures Missing(old_, new_) == []
    ensures Shared(old_, new_) == Shared(new_, old_) <==> Extends(old_, new_)
  {
    var rest := new_[|old_|..];
    assert new_ == old_ + rest;
    MissingIs(old_, new_);
    MissingIs(old_, old_);
    SharedConcat(old_, rest, old_);
    SharedNone(rest, old_);
    assert Shared(new_, old_) == old_ + Shared(rest, old_);
    if Shared(old_, new_) == Shared(new_, old_) {
      assert |Shared(rest, old_)| == 0;
    }
  }

  lemma ReportBreaks(level: Level, notes: seq<Note>)
    ensures Breaks(Report(level, notes)) <==> level == BREAK && notes != []
  {
    if level == BREAK && notes != [] {
      assert Report(level, notes)[0].level == BREAK;
    }
  }

  /** The ordered comparison is exact: with breaking additions it lets through only an
      unchanged list, otherwise exactly the lists that extend the old one. */
  lemma OrderedIsExact(owner: string, old_: seq<string>, new_: seq<string>, addedLevel: Level)
    ensures Breaks(OrderedFindings(owner, old_, new_, addedLevel)) <==>
              if addedLevel == BREAK then old_ != new_ else !Extends(old_, new_)
  {
    OrderedBreaksWhen(owner, old_, new_, addedLevel);
    MissingIs(old_, new_);
    MissingIs(new_, old_);
    if old_ <= new_ {
      PrefixKeepsOrderIff(old_, new_);
    }
    if old_ == new_ {
      assert Extends(old_, new_);
    }
  }

  lemma OrderedBreaksWhen(owner: string, old_: seq<string>, new_: seq<string>, addedLevel: Level)
    ensures var removed, added := Missing(old_, new_), Missing(new_, old_);
            var same := Shared(old_, new_) == Shared(new_, old_);
            Breaks(OrderedFindings(owner, old_, new_, addedLevel)) <==>
              || removed != [] || (addedLevel == BREAK && added != []) || !same
              || (added != [] && !(old_ <= new_))
  {
    var removed, added := Missing(old_, new_), Missing(new_, old_);
    var same := Shared(old_, new_) == Shared(new_, old_);
    var a := Report(BREAK, RemovedNotes(owner, removed));
    var b := Report(addedLevel, AddedNotes(owner, added));
    var c := if !same && removed == [] then [Finding(BREAK, Reordered(owner))] else [];
    var d := if added != [] && removed == [] && same && !(old_ <= new_) then [Finding(BREAK, Inserted(owner))] else [];
    ReportBreaks(BREAK, RemovedNotes(owner, removed));
    ReportBreaks(addedLevel, AddedNotes(owner, added));
    BreaksConcat(a, b);
    BreaksConcat(a + b, c);
    BreaksConcat(a + b + c, d);
    assert c != [] ==> c[0].level == BREAK;
    assert d != [] ==> d[0].level == BREAK;
  }

  /** With no member named twice, extending is just starting with the old list. */
  lemma ExtendsIsPrefix(old_: seq<string>, new_: seq<string>)
    requires Distinct(new_)
    ensures Extends(old_, new_) <==> old_ <= new_
  {
    if old_ <= new_ {
      forall m | m in new_[|old_|..]
        ensures m !in old_
      {
        var i :| |old_| <= i < |new_| && new_[i] == m;
      }
    }
  }

  // ----- struct variants of JSON enums -------------------------------------

  /** A rendered variant: its name and, for a struct variant, its fields. */
  datatype Variant = Variant(name: string, fields: Option<seq<string>>)

  function Parsed(members: seq<string>, parse: string -> Variant): seq<Variant> {
    seq(|members|, i requires 0 <= i < |members| => parse(members[i]))
  }

  function Names(vs: seq<Variant>): seq<string> {
    seq(|vs|, i requires 0 <= i < |vs| => vs[i].name)
  }

  /** The last variant of a given name, which is the one a dictionary keeps. */
  function LastNamed(vs: seq<Variant>, name: string): Option<Variant> {
    if vs == [] then None
    else if vs[|vs| - 1].name == name then Some(vs[|vs| - 1])
    else LastNamed(vs[..|vs| - 1], name)
  }

  lemma {:induction false} LastNamedIs(vs: seq<Variant>, name: string)
    ensures LastNamed(vs, name).Some? <==> name in Names(vs)
    ensures LastNamed(vs, name).Some? ==> LastNamed(vs, name).value in vs && LastNamed(vs, name).value.name == name
  {
    if vs != [] {
      LastNamedIs(vs[..|vs| - 1], name);
      var n := |vs| - 1;
      assert Names(vs)[n] == vs[n].name;
      assert Names(vs) == Names(vs[..n]) + [vs[n].name];
    }
  }

  function LostNotes(owner: string, variant: string, fields: seq<string>): seq<Note> {
    seq(|fields|, i requires 0 <= i < |fields| => FieldRemoved(owner, variant, fields[i]))
  }

  function GainedNotes(owner: string, variant: string, fields: seq<string>): seq<Note> {
    seq(|fields|, i requires 0 <= i < |fields| => FieldAdded(owner, variant, fields[i]))
  }

  function FieldNotes(owner: string, variant: string, old_: seq<string>, new_: seq<string>): seq<Finding> {
    Report(BREAK, LostNotes(owner, variant, Missing(old_, new_)))
    + Report(WARN, GainedNotes(owner, variant, Missing(new_, old_)))
  }

  /** What the body comparison reports for one old variant. */
  function BodyFindings(owner: string, v: Variant, new_: seq<Variant>): seq<Finding> {
    var w := LastNamed(new_, v.name);
    if w.None? then []
    else if v.fields.None? != w.value.fields.None? then [Finding(BREAK, FormChanged(owner, v.name))]
    else if v.fields.None? then []
    else FieldNotes(owner, v.name, v.fields.value, w.value.fields.value)
  }

  function AllBodyFindings(owner: string, old_: seq<Variant>, new_: seq<Variant>): seq<Finding> {
    if old_ == [] then [] else BodyFindings(owner, old_[0], new_) + AllBodyFindings(owner, old_[1..], new_)
  }

  /** A variant keeps its form and loses no field. */
  predicate BodyKept(v: Variant, w: Variant) {
    && v.fields.None? == w.fields.None?
    && (v.fields.Some? ==> forall f :: f in v.fields.value ==> f in w.fields.value)
  }

  predicate BodiesKept(old_: seq<Variant>, new_: seq<Variant>) {
    forall i :: 0 <= i < |old_| && LastNamed(new_, old_[i].name).Some? ==>
      BodyKept(old_[i], LastNamed(new_, old_[i].name).value)
  }

  lemma BodyIsExact(owner: string, v: Variant, new_: seq<Variant>)
    ensures Breaks(BodyFindings(owner, v, new_)) <==>
              LastNamed(new_, v.name).Some? && !BodyKept(v, LastNamed(new_, v.name).value)
  {
    var w := LastNamed(new_, v.name);
    if w.Some? {
      if v.fields.None? != w.value.fields.None? {
        assert BodyFindings(owner, v, new_)[0].level == BREAK;
      } else if v.fields.Some? {
        FieldsAreExact(owner, v.name, v.fields.value, w.value.fields.value);
      }
    }
  }

  lemma FieldsAreExact(owner: string, variant: string, old_: seq<string>, new_: seq<string>)
    ensures Breaks(FieldNotes(owner, variant, old_, new_)) <==> exists f :: f in old_ && f !in new_
  {
    MissingIs(old_, new_);
    var lost, gained := LostNotes(owner, variant, Missing(old_, new_)), GainedNotes(owner, variant, Missing(new_, old_));
    ReportBreaks(BREAK, lost);
    ReportBreaks(WARN, gained);
    BreaksConcat(Report(BREAK, lost), Report(WARN, gained));
  }

  lemma {:induction false} BodiesAreExact(owner: string, old_: seq<Variant>, new_: seq<Variant>)
    ensures Breaks(AllBodyFindings(owner, old_, new_)) <==> !BodiesKept(old_, new_)
  {
    if old_ != [] {
      BodyIsExact(owner, old_[0], new_);
      BodiesAreExact(owner, old_[1..], new_);
      BreaksConcat(BodyFindings(owner, old_[0], new_), AllBodyFindings(owner, old_[1..], new_));
      assert BodiesKept(old_, new_) <==>
             && (LastNamed(new_, old_[0].name).Some? ==> BodyKept(old_[0], LastNamed(new_, old_[0].name).value))
             && BodiesKept(old_[1..], new_) by {
        assert forall i :: 0 < i < |old_| ==> old_[i] == old_[1..][i - 1];
      }
    }
  }

  // ----- the gate ----------------------------------------------------------

  datatype Kind = Struct | Enum

  datatype WireType = WireType(kind: Kind, members: seq<string>, container: Option<string>)

  const NON_POSTCARD_MODULES: set<string> :=
    {"dynamic_node", "descriptor", "daemon_to_coordinator", "coordinator_to_daemon", "cli_to_coordinator",
     "coordinator_to_cli", "ws_protocol"}

  /** The part of a type's name before the first `::`. */
  function ModuleOf(name: string): string {
    if name == [] || "::" <= name then [] else [name[0]] + ModuleOf(name[1..])
  }

  predicate IsPostcard(name: string) {
    ModuleOf(name) !in NON_POSTCARD_MODULES
  }

  function MemberFindings(name: string, o: WireType, n: WireType, parse: string -> Variant): seq<Finding> {
    if o.kind == Enum && !IsPostcard(name) then
      var vo, vn := Parsed(o.members, parse), Parsed(n.members, parse);
      AllBodyFindings(name, vo, vn) + OrderedFindings(name, Names(vo), Names(vn), WARN)
    else
      OrderedFindings(name, o.members, n.members, if o.kind == Struct && IsPostcard(name) then BREAK else WARN)
  }

  function TypeFindings(name: string, o: WireType, new_: map<string, WireType>, parse: string -> Variant): seq<Finding> {
    if name !in new_ then [Finding(BREAK, TypeRemoved(name))]
    else
      var n := new_[name];
      (if n.container != o.container then [Finding(BREAK, ContainerChanged(name))] else [])
      + if n.kind != o.kind then [Finding(BREAK, KindChanged(name))] else MemberFindings(name, o, n, parse)
  }

  /** The findings between two parses, old types in the given order. */
  function GateFindings(names: seq<string>, old_: map<string, WireType>, new_: map<string, WireType>,
                        parse: string -> Variant): seq<Finding>
    requires forall name :: name in names ==> name in old_
  {
    if names == [] then []
    else TypeFindings(names[0], old_[names[0]], new_, parse) + GateFindings(names[1..], old_, new_, parse)
  }

  /** What every old peer needs of a type: the same kind and framing, and members at the
      positions (or under the names) it knows. */
  predicate MembersKept(name: string, o: WireType, n: WireType, parse: string -> Variant) {
    if o.kind == Struct && IsPostcard(name) then o.members == n.members
    else if o.kind == Struct || IsPostcard(name) then Extends(o.members, n.members)
    else
      var vo, vn := Parsed(o.members, parse), Parsed(n.members, parse);
      Extends(Names(vo), Names(vn)) && BodiesKept(vo, vn)
  }

  predicate TypeKept(name: string, o: WireType, new_: map<string, WireType>, parse: string -> Variant) {
    && name in new_ && new_[name].kind == o.kind && new_[name].container == o.container
    && MembersKept(name, o, new_[name], parse)
  }

  predicate Compatible(old_: map<string, WireType>, new_: map<string, WireType>, parse: string -> Variant) {
    forall name :: name in old_ ==> TypeKept(name, old_[name], new_, parse)
  }

  lemma MembersAreExact(name: string, o: WireType, n: WireType, parse: string -> Variant)
    ensures Breaks(MemberFindings(name, o, n, parse)) <==> !MembersKept(name, o, n, parse)
  {
    if o.kind == Enum && !IsPostcard(name) {
      var vo, vn := Parsed(o.members, parse), Parsed(n.members, parse);
      BreaksConcat(AllBodyFindings(name, vo, vn), OrderedFindings(name, Names(vo), Names(vn), WARN));
      BodiesAreExact(name, vo, vn);
      OrderedIsExact(name, Names(vo), Names(vn), WARN);
    } else {
      OrderedIsExact(name, o.members, n.members, if o.kind == Struct && IsPostcard(name) then BREAK else WARN);
    }
  }

  lemma TypeIsExact(name: string, o: WireType, new_: map<string, WireType>, parse: string -> Variant)
    ensures Breaks(TypeFindings(name, o, new_, parse)) <==> !TypeKept(name, o, new_, parse)
  {
    if name !in new_ {
      assert TypeFindings(name, o, new_, parse)[0].level == BREAK;
    } else {
      var n := new_[name];
      var c := if n.container != o.container then [Finding(BREAK, ContainerChanged(name))] else [];
      var k := if n.kind != o.kind then [Finding(BREAK, KindChanged(name))] else MemberFindings(name, o, n, parse);
      BreaksConcat(c, k);
      assert n.container != o.container ==> c[0].level == BREAK;
      assert n.kind != o.kind ==> k[0].level == BREAK;
      MembersAreExact(name, o, n, parse);
    }
  }

  /** The gate is exact: it reports no break iff every old type is kept. */
  lemma {:induction false} GateIsExact(names: seq<string>, old_: map<string, WireType>, new_: map<string, WireType>,
                                       parse: string -> Variant)
    requires forall name :: name in names ==> name in old_
    ensures Breaks(GateFindings(names, old_, new_, parse)) <==>
              exists name :: name in names && !TypeKept(name, old_[name], new_, parse)
  {
    if names != [] {
      TypeIsExact(names[0], old_[names[0]], new_, parse);
      GateIsExact(names[1..], old_, new_, parse);
      BreaksConcat(TypeFindings(names[0], old_[names[0]], new_, parse), GateFindings(names[1..], old_, new_, parse));
      assert forall name :: name in names <==> name == names[0] || name in names[1..];
    }
  }

  // ----- what passing means ------------------------------------------------

  /** Every old position and variant index still means the same member. */
  lemma PositionsKept(name: string, o: WireType, new_: map<string, WireType>, parse: string -> Variant, i: nat)
    requires TypeKept(name, o, new_, parse) && i < |o.members|
    ensures i < |new_[name].members|
    ensures o.kind == Struct || IsPostcard(name) ==> new_[name].members[i] == o.members[i]
    ensures o.kind == Struct && IsPostcard(name) ==> |new_[name].members| == |o.members|
    ensures parse(new_[name].members[i]).name == parse(o.members[i]).name
  {
    if o.kind == Enum && !IsPostcard(name) {
      var vo, vn := Parsed(o.members, parse), Parsed(new_[name].members, parse);
      assert Names(vo)[i] == Names(vn)[i];
    }
  }

  lemma ExtendsTransitive(a: seq<string>, b: seq<string>, c: seq<string>)
    requires Extends(a, b) && Extends(b, c)
    ensures Extends(a, c)
  {
    assert a <= c;
    forall m | m in c[|a|..]
      ensures m !in a
    {
      var i :| 0 <= i < |c[|a|..]| && c[|a|..][i] == m;
      assert m == c[|a| + i];
      assert forall j :: 0 <= j < |a| ==> a[j] == b[j];
      if |a| + i < |b| {
        assert b[|a|..][i] == m;
        assert m in b[|a|..];
      } else {
        assert c[|b|..][|a| + i - |b|] == m;
        assert m in c[|b|..];
        assert forall x :: x in a ==> x in b;
      }
    }
  }

  lemma BodiesKeptTransitive(a: seq<Variant>, b: seq<Variant>, c: seq<Variant>)
    requires BodiesKept(a, b) && BodiesKept(b, c)
    requires Names(a) <= Names(b) && Names(b) <= Names(c)
    ensures BodiesKept(a, c)
  {
    forall i | 0 <= i < |a| && LastNamed(c, a[i].name).Some?
      ensures BodyKept(a[i], LastNamed(c, a[i].name).value)
    {
      assert Names(a)[i] == Names(b)[i] == a[i].name;
      LastNamedIs(b, a[i].name);
      var v := LastNamed(b, a[i].name).value;
      var j :| 0 <= j < |b| && b[j] == v;
      assert BodyKept(b[j], LastNamed(c, b[j].name).value);
    }
  }

  /** A chain of releases that each pass against the previous one passes end to end. */
  lemma CompatibleTransitive(a: map<string, WireType>, b: map<string, WireType>, c: map<string, WireType>,
                             parse: string -> Variant)
    requires Compatible(a, b, parse) && Compatible(b, c, parse)
    ensures Compatible(a, c, parse)
  {
    forall name | name in a
      ensures TypeKept(name, a[name], c, parse)
    {
      assert TypeKept(name, a[name], b, parse) && TypeKept(name, b[name], c, parse);
      MembersKeptTransitive(name, a[name], b[name], c[name], parse);
    }
  }

  lemma MembersKeptTransitive(name: string, x: WireType, y: WireType, z: WireType, parse: string -> Variant)
    requires x.kind == y.kind == z.kind && MembersKept(name, x, y, parse) && MembersKept(name, y, z, parse)
    ensures MembersKept(name, x, z, parse)
  {
    if x.kind == Enum && !IsPostcard(name) {
      var vx, vy, vz := Parsed(x.members, parse), Parsed(y.members, parse), Parsed(z.members, parse);
      ExtendsTransitive(Names(vx), Names(vy), Names(vz));
      BodiesKeptTransitive(vx, vy, vz);
    } else if !(x.kind == Struct && IsPostcard(name)) {
      ExtendsTransitive(x.members, y.members, z.members);
    }
  }

  /** No later member of the list has the name of the `j`-th. */
  predicate LastOfItsName(vs: seq<Variant>, j: nat)
    requires j < |vs|
  {
    forall k :: j < k < |vs| ==> vs[k].name != vs[j].name
  }

  /** Wherever a variant is named again, the last mention keeps the form and every field
      of the earlier ones. */
  predicate Coherent(vs: seq<Variant>) {
    forall i, j :: 0 <= i < j < |vs| && vs[i].name == vs[j].name && LastOfItsName(vs, j) ==> BodyKept(vs[i], vs[j])
  }

  predicate SelfConsistent(ts: map<string, WireType>, parse: string -> Variant) {
    forall name :: name in ts && ts[name].kind == Enum && !IsPostcard(name) ==> Coherent(Parsed(ts[name].members, parse))
  }

  lemma {:induction false} LastNamedAt(vs: seq<Variant>, j: nat)
    requires j < |vs| && LastOfItsName(vs, j)
    ensures LastNamed(vs, vs[j].name) == Some(vs[j])
  {
    var n := |vs| - 1;
    if j < n {
      assert vs[n].name != vs[j].name;
      LastNamedAt(vs[..n], j);
    }
  }

  lemma {:induction false} LastMention(vs: seq<Variant>, i: nat) returns (j: nat)
    requires i < |vs|
    ensures i <= j < |vs| && vs[j].name == vs[i].name && LastOfItsName(vs, j)
    decreases |vs|
  {
    var n := |vs| - 1;
    if vs[n].name == vs[i].name {
      j := n;
    } else {
      j := LastMention(vs[..n], i);
    }
  }

  /** Comparing a list of bodies with itself passes exactly if the list is coherent. */
  lemma BodiesKeptIff(vs: seq<Variant>)
    ensures BodiesKept(vs, vs) <==> Coherent(vs)
  {
    if BodiesKept(vs, vs) {
      forall i, j | 0 <= i < j < |vs| && vs[i].name == vs[j].name && LastOfItsName(vs, j)
        ensures BodyKept(vs[i], vs[j])
      {
        LastNamedAt(vs, j);
      }
    }
    if Coherent(vs) {
      forall i | 0 <= i < |vs|
        ensures LastNamed(vs, vs[i].name).Some? && BodyKept(vs[i], LastNamed(vs, vs[i].name).value)
      {
        var j := LastMention(vs, i);
        LastNamedAt(vs, j);
      }
    }
  }

  /** An unchanged protocol passes exactly if, in every JSON enum, the last mention of a
      variant covers the earlier ones. */
  lemma CompatibleReflexiveIff(ts: map<string, WireType>, parse: string -> Variant)
    ensures Compatible(ts, ts, parse) <==> SelfConsistent(ts, parse)
  {
    forall name | name in ts
      ensures TypeKept(name, ts[name], ts, parse) <==>
                (ts[name].kind == Enum && !IsPostcard(name) ==> Coherent(Parsed(ts[name].members, parse)))
    {
      BodiesKeptIff(Parsed(ts[name].members, parse));
    }
  }

  /** So a protocol whose variant names are distinct always passes against itself. */
  lemma DistinctIsCompatible(ts: map<string, WireType>, parse: string -> Variant)
    requires forall name :: name in ts && ts[name].kind == Enum && !IsPostcard(name) ==>
               Distinct(Names(Parsed(ts[name].members, parse)))
    ensures Compatible(ts, ts, parse)
  {
    forall name | name in ts && ts[name].kind == Enum && !IsPostcard(name)
      ensures Coherent(Parsed(ts[name].members, parse))
    {
      DistinctIsCoherent(Parsed(ts[name].members, parse));
    }
    CompatibleReflexiveIff(ts, parse);
  }

  lemma DistinctIsCoherent(vs: seq<Variant>)
    requires Distinct(Names(vs))
    ensures Coherent(vs)
  {
    forall i, j | 0 <= i < j < |vs|
      ensures vs[i].name != vs[j].name
    {
      assert Names(vs)[i] != Names(vs)[j];
    }
  }

  /** And every enum that repeats a variant without one of its fields fails against itself. */
  lemma RepeatedVariantFails(name: string, a: string, b: string, container: Option<string>, parse: string -> Variant)
    requires !IsPostcard(name) && parse(a).name == parse(b).name && !BodyKept(parse(a), parse(b))
    ensures var ts := map[name := WireType(Enum, [a, b], container)]; !Compatible(ts, ts, parse)
  {
    var ts := map[name := WireType(Enum, [a, b], container)];
    var vs := Parsed(ts[name].members, parse);
    assert vs[0] == parse(a) && vs[1] == parse(b) && LastOfItsName(vs, 1);
    assert !Coherent(vs);
    CompatibleReflexiveIff(ts, parse);
  }

  lemma {:induction false} ModuleOfPath(m: string, rest: string)
    requires ':' !in m
    ensures ModuleOf(m + "::" + rest) == m
  {
    var name := m + "::" + rest;
    if m == [] {
      assert name == "::" + rest;
    } else {
      assert name[0] == m[0] && name[1..] == m[1..] + "::" + rest;
      ModuleOfPath(m[1..], rest);
    }
  }

  /** The types framed by name are those of seven modules; every other one is positional. */
  lemma PostcardIff(m: string, rest: string)
    requires ':' !in m
    ensures IsPostcard(m + "::" + rest) <==>
              && m != "dynamic_node" && m != "descriptor"
              && m != "daemon_to_coordinator" && m != "coordinator_to_daemon"
              && m != "cli_to_coordinator" && m != "coordinator_to_cli" && m != "ws_protocol"
  {
    ModuleOfPath(m, rest);
  }

  /** A struct that stays a struct passes exactly if its framing is unchanged and its fields
      are: unchanged where they are positional, kept and only followed by new ones in the
      seven modules that frame by name. */
  lemma StructPassesIff(m: string, rest: string, o: WireType, n: WireType, parse: string -> Variant)
    requires ':' !in m && o.kind == Struct && n.kind == Struct
    ensures var name := m + "::" + rest;
            var byName := || m == "dynamic_node" || m == "descriptor" || m == "daemon_to_coordinator"
                          || m == "coordinator_to_daemon" || m == "cli_to_coordinator"
                          || m == "coordinator_to_cli" || m == "ws_protocol";
            !Breaks(TypeFindings(name, o, map[name := n], parse)) <==>
              && n.container == o.container
              && (if byName then Extends(o.members, n.members) else o.members == n.members)
  {
    var name := m + "::" + rest;
    PostcardIff(m, rest);
    TypeIsExact(name, o, map[name := n], parse);
  }

  lemma {:induction false} MissingMembers(s: seq<string>, t: seq<string>, m: string)
    ensures m in Missing(s, t) <==> m in s && m !in t
  {
    if s != [] {
      MissingMembers(s[1..], t, m);
    }
  }

  lemma ReportedIff(level: Level, notes: seq<Note>, note: Note)
    ensures Finding(level, note) in Report(level, notes) <==> note in notes
  {
    if note in notes {
      var i :| 0 <= i < |notes| && notes[i] == note;
      assert Report(level, notes)[i] == Finding(level, note);
    }
  }

  lemma NotedIff(owner: string, ms: seq<string>, m: string)
    ensures Removed(owner, m) in RemovedNotes(owner, ms) <==> m in ms
    ensures Added(owner, m) in AddedNotes(owner, ms) <==> m in ms
  {
    if m in ms {
      var i :| 0 <= i < |ms| && ms[i] == m;
      assert RemovedNotes(owner, ms)[i] == Removed(owner, m) && AddedNotes(owner, ms)[i] == Added(owner, m);
    }
  }

  lemma InEither<T>(a: seq<T>, b: seq<T>, x: T)
    ensures x in a + b <==> x in a || x in b
  {
  }

  /** Every member that is gone, and no other, is reported as a break. */
  lemma RemovalsAreNamed(owner: string, old_: seq<string>, new_: seq<string>, addedLevel: Level, m: string)
    ensures Finding(BREAK, Removed(owner, m)) in OrderedFindings(owner, old_, new_, addedLevel) <==>
              m in old_ && m !in new_
  {
    var removed, added := Missing(old_, new_), Missing(new_, old_);
    var finding := Finding(BREAK, Removed(owner, m));
    MissingMembers(old_, new_, m);
    NotedIff(owner, removed, m);
    ReportedIff(BREAK, RemovedNotes(owner, removed), Removed(owner, m));
    assert finding !in Report(addedLevel, AddedNotes(owner, added));
    InEither(Report(BREAK, RemovedNotes(owner, removed)), Report(addedLevel, AddedNotes(owner, added)), finding);
  }

  /** Every new member, and no other, is reported as added, at the given level. */
  lemma AdditionsAreNamed(owner: string, old_: seq<string>, new_: seq<string>, addedLevel: Level, m: string)
    ensures Finding(addedLevel, Added(owner, m)) in OrderedFindings(owner, old_, new_, addedLevel) <==>
              m in new_ && m !in old_
  {
    var removed, added := Missing(old_, new_), Missing(new_, old_);
    var finding := Finding(addedLevel, Added(owner, m));
    MissingMembers(new_, old_, m);
    NotedIff(owner, added, m);
    ReportedIff(addedLevel, AddedNotes(owner, added), Added(owner, m));
    assert finding !in Report(BREAK, RemovedNotes(owner, removed));
    InEither(Report(BREAK, RemovedNotes(owner, removed)), Report(addedLevel, AddedNotes(owner, added)), finding);
  }

  /** For instance a frame that is listed both with and without a code. */
  lemma ListedTwiceFails(parse: string -> Variant)
    requires parse("Close { code }") == Variant("Close", Some(["code"])) && parse("Close") == Variant("Close", None)
    ensures var ts := map["ws_protocol::Frame" := WireType(Enum, ["Close { code }", "Close"], None)];
            !Compatible(ts, ts, parse)
  {
    ModuleOfPath("ws_protocol", "Frame");
    assert "ws_protocol" + "::" + "Frame" == "ws_protocol::Frame";
    RepeatedVariantFails("ws_protocol::Frame", "Close { code }", "Close", None, parse);
  }

  // ----- the diff as it runs -----------------------------------------------

  lemma SelectStep(s: seq<string>, t: seq<string>, i: nat)
    requires i < |s|
    ensures Shared(s[i..], t) == (if s[i] in t then [s[i]] else []) + Shared(s[i + 1..], t)
    ensures Missing(s[i..], t) == (if s[i] in t then [] else [s[i]]) + Missing(s[i + 1..], t)
  {
    assert s[i..][1..] == s[i + 1..];
  }

  method Select(s: seq<string>, t: seq<string>) returns (shared: seq<string>, missing: seq<string>)
    ensures shared == Shared(s, t) && missing == Missing(s, t)
  {
    shared, missing := [], [];
    var i := 0;
    while i < |s|
      invariant 0 <= i <= |s|
      invariant shared + Shared(s[i..], t) == Shared(s, t) && missing + Missing(s[i..], t) == Missing(s, t)
    {
      SelectStep(s, t, i);
      if s[i] in t {
        shared := shared + [s[i]];
      } else {
        missing := missing + [s[i]];
      }
      i := i + 1;
    }
  }

  method ReportEach(findings: seq<Finding>, level: Level, notes: seq<Note>) returns (r: seq<Finding>)
    ensures r == findings + Report(level, notes)
  {
    r := findings;
    var i := 0;
    while i < |notes|
      invariant 0 <= i <= |notes| && r == findings + Report(level, notes[..i])
    {
      assert Report(level, notes[..i + 1]) == Report(level, notes[..i]) + [Finding(level, notes[i])];
      r := r + [Finding(level, notes[i])];
      i := i + 1;
    }
    assert notes[..|notes|] == notes;
  }

  /** Compares two ordered member lists where position is part of the contract. */
  method CompareOrdered(owner: string, old_: seq<string>, new_: seq<string>, addedLevel: Level)
    returns (findings: seq<Finding>)
    ensures findings == OrderedFindings(owner, old_, new_, addedLevel)
    ensures Breaks(findings) <==> if addedLevel == BREAK then old_ != new_ else !Extends(old_, new_)
  {
    var keptOld, removed := Select(old_, new_);
    var keptNew, added := Select(new_, old_);
    findings := ReportEach([], BREAK, RemovedNotes(owner, removed));
    findings := ReportEach(findings, addedLevel, AddedNotes(owner, added));
    if keptOld != keptNew && removed == [] {
      findings := findings + [Finding(BREAK, Reordered(owner))];
    }
    if added != [] && removed == [] && keptOld == keptNew && !(old_ <= new_) {
      findings := findings + [Finding(BREAK, Inserted(owner))];
    }
    OrderedIsExact(owner, old_, new_, addedLevel);
  }

  /** The dictionary of parsed variants: later ones replace earlier ones of the same name. */
  method VariantsByName(vs: seq<Variant>) returns (byName: map<string, Variant>)
    ensures forall name :: Lookup(byName, name) == LastNamed(vs, name)
  {
    byName := map[];
    var i := 0;
    while i < |vs|
      invariant 0 <= i <= |vs|
      invariant forall name :: Lookup(byName, name) == LastNamed(vs[..i], name)
    {
      assert vs[..i + 1][..i] == vs[..i];
      byName := byName[vs[i].name := vs[i]];
      i := i + 1;
    }
    assert vs[..|vs|] == vs;
  }

  method CompareFields(owner: string, variant: string, old_: seq<string>, new_: seq<string>)
    returns (findings: seq<Finding>)
    ensures findings == FieldNotes(owner, variant, old_, new_)
  {
    var _, lost := Select(old_, new_);
    var _, gained := Select(new_, old_);
    findings := ReportEach([], BREAK, LostNotes(owner, variant, lost));
    findings := ReportEach(findings, WARN, GainedNotes(owner, variant, gained));
  }

  method CompareBody(owner: string, v: Variant, ghost new_: seq<Variant>, byName: map<string, Variant>)
    returns (body: seq<Finding>)
    requires Lookup(byName, v.name) == LastNamed(new_, v.name)
    ensures body == BodyFindings(owner, v, new_)
  {
    body := [];
    if v.name in byName {
      var w := byName[v.name];
      if v.fields.None? != w.fields.None? {
        body := [Finding(BREAK, FormChanged(owner, v.name))];
      } else if v.fields.Some? {
        body := CompareFields(owner, v.name, v.fields.value, w.fields.value);
      }
    }
  }

  lemma BodiesSplit(owner: string, vo: seq<Variant>, i: nat, vn: seq<Variant>, before: seq<Finding>)
    requires i < |vo|
    ensures before + AllBodyFindings(owner, vo[i..], vn)
         == before + BodyFindings(owner, vo[i], vn) + AllBodyFindings(owner, vo[i + 1..], vn)
  {
    assert vo[i..][1..] == vo[i + 1..];
    AppendTwice(before, BodyFindings(owner, vo[i], vn), AllBodyFindings(owner, vo[i + 1..], vn));
  }

  lemma AppendTwice<T>(a: seq<T>, b: seq<T>, c: seq<T>)
    ensures a + (b + c) == a + b + c
  {
  }

  method CompareBodies(owner: string, vo: seq<Variant>, vn: seq<Variant>) returns (findings: seq<Finding>)
    ensures findings == AllBodyFindings(owner, vo, vn)
  {
    var byName := VariantsByName(vn);
    findings := [];
    var i := 0;
    while i < |vo|
      invariant 0 <= i <= |vo|
      invariant findings + AllBodyFindings(owner, vo[i..], vn) == AllBodyFindings(owner, vo, vn)
    {
      BodiesSplit(owner, vo, i, vn, findings);
      var body := CompareBody(owner, vo[i], vn, byName);
      findings := findings + body;
      i := i + 1;
    }
  }

  /** Compares the struct bodies of a JSON enum by field name. */
  method SplitJsonVariantBodies(owner: string, old_: seq<string>, new_: seq<string>, parse: string -> Variant)
    returns (findings: seq<Finding>, oldNames: seq<string>, newNames: seq<string>)
    ensures findings == AllBodyFindings(owner, Parsed(old_, parse), Parsed(new_, parse))
    ensures oldNames == Names(Parsed(old_, parse)) && newNames == Names(Parsed(new_, parse))
    ensures Breaks(findings) <==> !BodiesKept(Parsed(old_, parse), Parsed(new_, parse))
  {
    var vo, vn := Parsed(old_, parse), Parsed(new_, parse);
    findings := CompareBodies(owner, vo, vn);
    oldNames, newNames := Names(vo), Names(vn);
    BodiesAreExact(owner, vo, vn);
  }

  method CompareMembers(name: string, o: WireType, n: WireType, parse: string -> Variant)
    returns (findings: seq<Finding>)
    ensures findings == MemberFindings(name, o, n, parse)
  {
    var oldMembers, newMembers := o.members, n.members;
    findings := [];
    if o.kind == Enum && !IsPostcard(name) {
      findings, oldMembers, newMembers := SplitJsonVariantBodies(name, o.members, n.members, parse);
    }
    var ordered := CompareOrdered(name, oldMembers, newMembers,
                                  if o.kind == Struct && IsPostcard(name) then BREAK else WARN);
    findings := findings + ordered;
  }

  method DiffType(name: string, o: WireType, new_: map<string, WireType>, parse: string -> Variant)
    returns (findings: seq<Finding>)
    ensures findings == TypeFindings(name, o, new_, parse)
    ensures Breaks(findings) <==> !TypeKept(name, o, new_, parse)
  {
    TypeIsExact(name, o, new_, parse);
    if name !in new_ {
      return [Finding(BREAK, TypeRemoved(name))];
    }
    var n := new_[name];
    findings := [];
    if n.container != o.container {
      findings := [Finding(BREAK, ContainerChanged(name))];
    }
    if n.kind != o.kind {
      findings := findings + [Finding(BREAK, KindChanged(name))];
    } else {
      var members := CompareMembers(name, o, n, parse);
      findings := findings + members;
    }
  }

  lemma GateStep(names: seq<string>, i: nat, old_: map<string, WireType>, new_: map<string, WireType>,
                 parse: string -> Variant)
    requires i < |names| && forall name :: name in names ==> name in old_
    ensures GateFindings(names[i..], old_, new_, parse)
         == TypeFindings(names[i], old_[names[i]], new_, parse) + GateFindings(names[i + 1..], old_, new_, parse)
  {
    assert names[i..][1..] == names[i + 1..];
  }

  lemma GateDecides(names: seq<string>, old_: map<string, WireType>, new_: map<string, WireType>, parse: string -> Variant)
    requires forall name :: name in names <==> name in old_
    ensures Breaks(GateFindings(names, old_, new_, parse)) <==> !Compatible(old_, new_, parse)
  {
    GateIsExact(names, old_, new_, parse);
  }

  /** The whole gate. It reports a break iff some old type is not kept. */
  method DiffWireTypes(names: seq<string>, old_: map<string, WireType>, new_: map<string, WireType>,
                       parse: string -> Variant) returns (findings: seq<Finding>)
    requires forall name :: name in names <==> name in old_
    ensures findings == GateFindings(names, old_, new_, parse)
    ensures Breaks(findings) <==> !Compatible(old_, new_, parse)
  {
    findings := [];
    var i := 0;
    while i < |names|
      invariant 0 <= i <= |names|
      invariant findings + GateFindings(names[i..], old_, new_, parse) == GateFindings(names, old_, new_, parse)
    {
      var found := DiffType(names[i], old_[names[i]], new_, parse);
      GateStep(names, i, old_, new_, parse);
      AppendTwice(findings, found, GateFindings(names[i + 1..], old_, new_, parse));
      findings := findings + found;
      i := i + 1;
    }
    GateDecides(names, old_, new_, parse);
  }
}
