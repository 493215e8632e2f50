/** The build-input fingerprint: a canonical text of everything that affects a build,
    its digest, and the session cache that is dropped when the digest changes. */
module BuildFingerprint {
  import opened Common
  import opened Fnv

  // ----- what a resolved node holds ----------------------------------------

  datatype EnvValue = EnvBool(flag: bool) | EnvInteger(int) | EnvFloat(shown: string) | EnvText(text: string)

  datatype GitRev = Branch(name: string) | Tag(name: string) | Rev(name: string)

  datatype Source = Local | Git(repo: string, rev: Option<GitRev>)

  datatype OperatorKind = SharedLibrary | Python | Wasm

  /** `artifact` stands for the library, script or module path and its settings. */
  datatype Operator = Operator(id: string, build: Option<string>, kind: OperatorKind, artifact: string)

  datatype NodeKind =
    | Custom(path: string, build: Option<string>, source: Source)
    | Runtime(operators: seq<Operator>)

  datatype Deploy = Deploy(machine: Option<string>, workingDir: Option<string>)

  /** A `BTreeMap` is listed by key, so environments are sorted lists of entries. */
  datatype Node = Node(id: string, kind: NodeKind, env: Option<seq<(string, EnvValue)>>, deploy: Option<Deploy>)

  // ----- the part that is fingerprinted ------------------------------------

  datatype OpInputs = OpInputs(id: string, build: Option<string>, kind: OperatorKind)

  datatype Inputs = Inputs(
    id: string,
    build: Option<string>,
    source: Option<Source>,
    env: Option<seq<(string, string)>>,
    cwd: Option<string>,
    operators: Option<seq<OpInputs>>)

  function Digits(n: nat): string {
    if n < 10 then ["0123456789"[n]] else Digits(n / 10) + ["0123456789"[n % 10]]
  }

  function Shown(v: EnvValue): string {
    match v
    case EnvBool(b) => if b then "true" else "false"
    case EnvInteger(i) => if i < 0 then "-" + Digits(-i) else Digits(i)
    case EnvFloat(s) => s
    case EnvText(s) => s
  }

  function NodeBuildCommand(kind: NodeKind): Option<string> {
    if kind.Custom? then kind.build else None
  }

  function NodeSource(kind: NodeKind): Option<Source> {
    if kind.Custom? then Some(kind.source) else None
  }

  function WorkingDir(deploy: Option<Deploy>): Option<string> {
    if deploy.Some? then deploy.value.workingDir else None
  }

  // ----- operators are listed by id ----------------------------------------

  /** Lexicographic order. */
  predicate Below(a: string, b: string) {
    a == [] || (b != [] && (a[0] < b[0] || (a[0] == b[0] && Below(a[1..], b[1..]))))
  }

  function Insert(op: Operator, ops: seq<Operator>): seq<Operator> {
    if ops == [] || Below(op.id, ops[0].id) then [op] + ops else [ops[0]] + Insert(op, ops[1..])
  }

  /** Stable sort by id. */
  function SortById(ops: seq<Operator>): seq<Operator> {
    if ops == [] then [] else Insert(ops[0], SortById(ops[1..]))
  }

  function OpInputsOf(ops: seq<Operator>): seq<OpInputs> {
    seq(|ops|, i requires 0 <= i < |ops| => OpInputs(ops[i].id, ops[i].build, ops[i].kind))
  }

  function ShownEntries(env: seq<(string, EnvValue)>): seq<(string, string)> {
    seq(|env|, i requires 0 <= i < |env| => (env[i].0, Shown(env[i].1)))
  }

  function ShownEnv(env: Option<seq<(string, EnvValue)>>): Option<seq<(string, string)>> {
    if env.None? then None else Some(ShownEntries(env.value))
  }

  function InputsOf(n: Node): Inputs {
    Inputs(n.id, NodeBuildCommand(n.kind), NodeSource(n.kind),
           ShownEnv(n.env),
           WorkingDir(n.deploy),
           if n.kind.Runtime? then Some(OpInputsOf(SortById(n.kind.operators))) else None)
  }

  function AllInputs(nodes: seq<Node>): seq<Inputs> {
    seq(|nodes|, i requires 0 <= i < |nodes| => InputsOf(nodes[i]))
  }

  // ----- the canonical text ------------------------------------------------

  const HEADER := "dora-session-build-inputs-v3"

  function OrNone(value: Option<string>): string {
    if value.Some? then value.value else "none"
  }

  function RevText(rev: Option<GitRev>): string {
    match rev
    case None => "head:"
    case Some(Branch(v)) => "branch:" + v
    case Some(Tag(v)) => "tag:" + v
    case Some(Rev(v)) => "rev:" + v
  }

  function SourceLines(source: Option<Source>): seq<string> {
    match source
    case None => ["source:none"]
    case Some(Local) => ["source:local"]
    case Some(Git(repo, rev)) => ["source:git", "repo:" + repo, "rev:" + RevText(rev)]
  }

  function EntryLine(entry: (string, string)): string {
    "  " + entry.0 + "=" + entry.1
  }

  function EntryLines(entries: seq<(string, string)>): seq<string> {
    seq(|entries|, i requires 0 <= i < |entries| => EntryLine(entries[i]))
  }

  function EnvLines(env: Option<seq<(string, string)>>): seq<string> {
    if env.None? then ["env:none"] else ["env:"] + EntryLines(env.value)
  }

  function KindTag(kind: OperatorKind): string {
    match kind
    case SharedLibrary => "shared-library"
    case Python => "python"
    case Wasm => "wasm"
  }

  function OpLines(op: OpInputs): seq<string> {
    ["  op:" + op.id, "    build:" + OrNone(op.build), "    source-kind:" + KindTag(op.kind)]
  }

  function AllOpLines(ops: seq<OpInputs>): seq<string> {
    if ops == [] then [] else OpLines(ops[0]) + AllOpLines(ops[1..])
  }

  function OperatorsLines(ops: Option<seq<OpInputs>>): seq<string> {
    if ops.None? then []
    else if ops.value == [] then ["operators:none"]
    else ["operators:"] + AllOpLines(ops.value)
  }

  function NodeLines(x: Inputs): seq<string> {
    ["node:" + x.id, "build:" + OrNone(x.build)] + SourceLines(x.source) + EnvLines(x.env)
    + ["cwd:" + OrNone(x.cwd)] + OperatorsLines(x.operators)
  }

  function AllLines(xs: seq<Inputs>): seq<string> {
    if xs == [] then [] else NodeLines(xs[0]) + AllLines(xs[1..])
  }

  function Join(lines: seq<string>): string {
    if lines == [] then "" else lines[0] + "\n" + Join(lines[1..])
  }

  function Canonical(xs: seq<Inputs>): string {
    Join([HEADER] + AllLines(xs))
  }

  // ----- unique decoding ---------------------------------------------------

  predicate OneLine(s: string) {
    '\n' !in s
  }

  /** Set to something that is not the word printed for "unset". */
  predicate Plain(value: Option<string>) {
    value.Some? ==> OneLine(value.value) && value.value != "none"
  }

  predicate PlainSource(source: Option<Source>) {
    source.Some? && source.value.Git? ==>
      OneLine(source.value.repo) && (source.value.rev.Some? ==> OneLine(source.value.rev.value.name))
  }

  predicate PlainEntry(entry: (string, string)) {
    OneLine(entry.0) && '=' !in entry.0 && OneLine(entry.1)
  }

  predicate PlainOp(op: OpInputs) {
    OneLine(op.id) && Plain(op.build)
  }

  predicate Admissible(x: Inputs) {
    && OneLine(x.id) && Plain(x.build) && PlainSource(x.source) && Plain(x.cwd)
    && (x.env.Some? ==> forall i :: 0 <= i < |x.env.value| ==> PlainEntry(x.env.value[i]))
    && (x.operators.Some? ==> forall i :: 0 <= i < |x.operators.value| ==> PlainOp(x.operators.value[i]))
  }

  /** A separator that does not occur in the parts before it splits in one way only. */
  lemma SplitAt<T>(c: T, x: seq<T>, r: seq<T>, y: seq<T>, s: seq<T>)
    requires c !in x && c !in y && x + [c] + r == y + [c] + s
    ensures x == y && r == s
  {
    var left, right := x + [c] + r, y + [c] + s;
    assert left[|x|] == c && right[|y|] == c;
    assert left[..|x|] == x && right[..|y|] == y;
    assert left[|x| + 1..] == r && right[|y| + 1..] == s;
  }

  lemma {:induction false} JoinInjective(a: seq<string>, b: seq<string>)
    requires forall i :: 0 <= i < |a| ==> OneLine(a[i])
    requires forall i :: 0 <= i < |b| ==> OneLine(b[i])
    requires Join(a) == Join(b)
    ensures a == b
  {
    if a != [] && b != [] {
      SplitAt('\n', a[0], Join(a[1..]), b[0], Join(b[1..]));
      JoinInjective(a[1..], b[1..]);
    }
  }

  lemma Prefixed(p: string, a: string, b: string)
    ensures p + a == p + b <==> a == b
  {
    if p + a == p + b {
      assert (p + a)[|p|..] == a && (p + b)[|p|..] == b;
    }
  }

  lemma OrNoneInjective(a: Option<string>, b: Option<string>)
    requires Plain(a) && Plain(b) && OrNone(a) == OrNone(b)
    ensures a == b
  {
  }

  lemma Heads(a: string, r: seq<string>, b: string, s: seq<string>)
    requires [a] + r == [b] + s
    ensures a == b && r == s
  {
    assert ([a] + r)[0] == a && ([b] + s)[0] == b;
    assert ([a] + r)[1..] == r && ([b] + s)[1..] == s;
  }

  lemma RevInjective(a: Option<GitRev>, b: Option<GitRev>)
    requires "rev:" + RevText(a) == "rev:" + RevText(b)
    ensures a == b
  {
    Prefixed("rev:", RevText(a), RevText(b));
    assert RevText(a)[0] == RevText(b)[0];
    if a.Some? && b.Some? {
      var p := match a.value case Branch(_) => "branch:" case Tag(_) => "tag:" case Rev(_) => "rev:";
      Prefixed(p, a.value.name, b.value.name);
    }
  }

  lemma SourceUnique(a: Option<Source>, b: Option<Source>, r: seq<string>, s: seq<string>)
    requires SourceLines(a) + r == SourceLines(b) + s
    ensures a == b && r == s
  {
    var left, right := SourceLines(a) + r, SourceLines(b) + s;
    assert left[0] == SourceLines(a)[0] && right[0] == SourceLines(b)[0];
    assert left[|SourceLines(a)|..] == r && right[|SourceLines(b)|..] == s;
    if a.Some? && a.value.Git? {
      assert b.Some? && b.value.Git? by {
        assert SourceLines(a)[0] == "source:git";
      }
      assert left[1] == SourceLines(a)[1] && right[1] == SourceLines(b)[1];
      assert left[2] == SourceLines(a)[2] && right[2] == SourceLines(b)[2];
      Prefixed("repo:", a.value.repo, b.value.repo);
      RevInjective(a.value.rev, b.value.rev);
    }
  }

  predicate Indented(line: string) {
    line != [] && line[0] == ' '
  }

  lemma EntryInjective(a: (string, string), b: (string, string))
    requires PlainEntry(a) && PlainEntry(b) && EntryLine(a) == EntryLine(b)
    ensures a == b
  {
    assert EntryLine(a) == "  " + (a.0 + ['='] + a.1) && EntryLine(b) == "  " + (b.0 + ['='] + b.1);
    Prefixed("  ", a.0 + ['='] + a.1, b.0 + ['='] + b.1);
    SplitAt('=', a.0, a.1, b.0, b.1);
  }

  lemma {:induction false} EntriesUnique(a: seq<(string, string)>, b: seq<(string, string)>, r: seq<string>,
                                         s: seq<string>)
    requires forall i :: 0 <= i < |a| ==> PlainEntry(a[i])
    requires forall i :: 0 <= i < |b| ==> PlainEntry(b[i])
    requires r != [] && s != [] && !Indented(r[0]) && !Indented(s[0])
    requires EntryLines(a) + r == EntryLines(b) + s
    ensures a == b && r == s
  {
    if a != [] && b != [] {
      EntriesSplit(a, r);
      EntriesSplit(b, s);
      Heads(EntryLine(a[0]), EntryLines(a[1..]) + r, EntryLine(b[0]), EntryLines(b[1..]) + s);
      EntryInjective(a[0], b[0]);
      EntriesUnique(a[1..], b[1..], r, s);
    } else {
      FirstEntryLine(a, r);
      FirstEntryLine(b, s);
    }
  }

  lemma EntriesSplit(a: seq<(string, string)>, r: seq<string>)
    requires a != []
    ensures EntryLines(a) + r == [EntryLine(a[0])] + (EntryLines(a[1..]) + r)
  {
    assert EntryLines(a) == [EntryLine(a[0])] + EntryLines(a[1..]);
  }

  lemma FirstEntryLine(a: seq<(string, string)>, r: seq<string>)
    ensures a != [] ==> EntryLines(a) + r != [] && Indented((EntryLines(a) + r)[0])
    ensures a == [] ==> EntryLines(a) + r == r
  {
  }

  lemma EnvUnique(a: Option<seq<(string, string)>>, b: Option<seq<(string, string)>>, r: seq<string>, s: seq<string>)
    requires a.Some? ==> forall i :: 0 <= i < |a.value| ==> PlainEntry(a.value[i])
    requires b.Some? ==> forall i :: 0 <= i < |b.value| ==> PlainEntry(b.value[i])
    requires r != [] && s != [] && !Indented(r[0]) && !Indented(s[0])
    requires EnvLines(a) + r == EnvLines(b) + s
    ensures a == b && r == s
  {
    EnvHead(a, r);
    EnvHead(b, s);
    Heads(EnvLines(a)[0], AfterHead(a, r), EnvLines(b)[0], AfterHead(b, s));
    if a.Some? && b.Some? {
      EntriesUnique(a.value, b.value, r, s);
    }
  }

  function AfterHead(env: Option<seq<(string, string)>>, r: seq<string>): seq<string> {
    if env.None? then r else EntryLines(env.value) + r
  }

  lemma EnvHead(env: Option<seq<(string, string)>>, r: seq<string>)
    ensures EnvLines(env) != [] && EnvLines(env) + r == [EnvLines(env)[0]] + AfterHead(env, r)
    ensures |EnvLines(env)[0]| == if env.None? then 8 else 4
  {
  }

  lemma OpInjective(a: OpInputs, b: OpInputs, r: seq<string>, s: seq<string>)
    requires PlainOp(a) && PlainOp(b) && OpLines(a) + r == OpLines(b) + s
    ensures a == b && r == s
  {
    var left, right := OpLines(a) + r, OpLines(b) + s;
    assert forall k :: 0 <= k < 3 ==> left[k] == OpLines(a)[k] && right[k] == OpLines(b)[k];
    assert left[3..] == r && right[3..] == s;
    assert OpLines(a)[0] == OpLines(b)[0] && OpLines(a)[1] == OpLines(b)[1] && OpLines(a)[2] == OpLines(b)[2];
    Prefixed("  op:", a.id, b.id);
    Prefixed("    build:", OrNone(a.build), OrNone(b.build));
    OrNoneInjective(a.build, b.build);
    Prefixed("    source-kind:", KindTag(a.kind), KindTag(b.kind));
    assert KindTag(a.kind)[0] == KindTag(b.kind)[0];
  }

  lemma {:induction false} OpsUnique(a: seq<OpInputs>, b: seq<OpInputs>, r: seq<string>, s: seq<string>)
    requires forall i :: 0 <= i < |a| ==> PlainOp(a[i])
    requires forall i :: 0 <= i < |b| ==> PlainOp(b[i])
    requires (r == [] || !Indented(r[0])) && (s == [] || !Indented(s[0]))
    requires AllOpLines(a) + r == AllOpLines(b) + s
    ensures a == b && r == s
  {
    if a != [] && b != [] {
      OpsSplit(a, r);
      OpsSplit(b, s);
      OpInjective(a[0], b[0], AllOpLines(a[1..]) + r, AllOpLines(b[1..]) + s);
      OpsUnique(a[1..], b[1..], r, s);
    } else {
      FirstOpLine(a, r);
      FirstOpLine(b, s);
    }
  }

  lemma OpsSplit(ops: seq<OpInputs>, r: seq<string>)
    requires ops != []
    ensures AllOpLines(ops) + r == OpLines(ops[0]) + (AllOpLines(ops[1..]) + r)
  {
  }

  lemma FirstOpLine(ops: seq<OpInputs>, r: seq<string>)
    ensures ops != [] ==> AllOpLines(ops) + r != [] && Indented((AllOpLines(ops) + r)[0])
    ensures ops == [] ==> AllOpLines(ops) + r == r
  {
    if ops != [] {
      assert (AllOpLines(ops) + r)[0] == "  op:" + ops[0].id;
    }
  }

  /** The next node's first line, or the end of the text. */
  predicate EndsNode(r: seq<string>) {
    r == [] || "node:" <= r[0]
  }

  lemma OperatorsUnique(a: Option<seq<OpInputs>>, b: Option<seq<OpInputs>>, r: seq<string>, s: seq<string>)
    requires a.Some? ==> forall i :: 0 <= i < |a.value| ==> PlainOp(a.value[i])
    requires b.Some? ==> forall i :: 0 <= i < |b.value| ==> PlainOp(b.value[i])
    requires EndsNode(r) && EndsNode(s) && OperatorsLines(a) + r == OperatorsLines(b) + s
    ensures a == b && r == s
  {
    OperatorsHead(a, r);
    OperatorsHead(b, s);
    if a.Some? && b.Some? {
      var headA, headB := OperatorsLines(a)[0], OperatorsLines(b)[0];
      var restA, restB := AllOpLines(a.value) + r, AllOpLines(b.value) + s;
      Heads(headA, restA, headB, restB);
      OpsUnique(a.value, b.value, r, s);
    }
  }

  lemma OperatorsHead(ops: Option<seq<OpInputs>>, r: seq<string>)
    requires EndsNode(r)
    ensures ops.None? ==> OperatorsLines(ops) + r == r
    ensures ops.Some? ==>
              && OperatorsLines(ops) != [] && OperatorsLines(ops)[0] != [] && OperatorsLines(ops)[0][0] == 'o'
              && OperatorsLines(ops) + r == [OperatorsLines(ops)[0]] + (AllOpLines(ops.value) + r)
    ensures r != [] ==> r[0] != [] && r[0][0] == 'n' && !Indented(r[0])
  {
    if ops.Some? {
      var head := if ops.value == [] then "operators:none" else "operators:";
      assert OperatorsLines(ops) == [head] + AllOpLines(ops.value);
      Associate([head], AllOpLines(ops.value), r);
    }
  }

  /** Everything from the source line on, followed by `r`. */
  function NodeTail(x: Inputs, r: seq<string>): seq<string> {
    SourceLines(x.source) + (EnvLines(x.env) + (["cwd:" + OrNone(x.cwd)] + (OperatorsLines(x.operators) + r)))
  }

  lemma NodeSplits(x: Inputs, r: seq<string>)
    ensures NodeLines(x) + r == ["node:" + x.id] + (["build:" + OrNone(x.build)] + NodeTail(x, r))
  {
    var head, src, env := ["node:" + x.id, "build:" + OrNone(x.build)], SourceLines(x.source), EnvLines(x.env);
    var cwd, ops := ["cwd:" + OrNone(x.cwd)], OperatorsLines(x.operators);
    Reassociate(head, src, env, cwd, ops, r);
    assert head == ["node:" + x.id] + ["build:" + OrNone(x.build)];
  }

  lemma Reassociate<T>(a: seq<T>, b: seq<T>, c: seq<T>, d: seq<T>, e: seq<T>, f: seq<T>)
    ensures a + b + c + d + e + f == a + (b + (c + (d + (e + f))))
  {
  }

  lemma TailUnique(x: Inputs, y: Inputs, r: seq<string>, s: seq<string>)
    requires Admissible(x) && Admissible(y) && EndsNode(r) && EndsNode(s) && NodeTail(x, r) == NodeTail(y, s)
    ensures x.source == y.source && x.env == y.env && x.cwd == y.cwd && x.operators == y.operators && r == s
  {
    var opsX, opsY := OperatorsLines(x.operators) + r, OperatorsLines(y.operators) + s;
    var cwdX, cwdY := "cwd:" + OrNone(x.cwd), "cwd:" + OrNone(y.cwd);
    SourceUnique(x.source, y.source, EnvLines(x.env) + ([cwdX] + opsX), EnvLines(y.env) + ([cwdY] + opsY));
    EnvUnique(x.env, y.env, [cwdX] + opsX, [cwdY] + opsY);
    Heads(cwdX, opsX, cwdY, opsY);
    Prefixed("cwd:", OrNone(x.cwd), OrNone(y.cwd));
    OrNoneInjective(x.cwd, y.cwd);
    OperatorsUnique(x.operators, y.operators, r, s);
  }

  /** The lines of one node say where they end. */
  lemma NodeUnique(x: Inputs, y: Inputs, r: seq<string>, s: seq<string>)
    requires Admissible(x) && Admissible(y) && EndsNode(r) && EndsNode(s)
    requires NodeLines(x) + r == NodeLines(y) + s
    ensures x == y && r == s
  {
    var bldX, bldY := "build:" + OrNone(x.build), "build:" + OrNone(y.build);
    NodeSplits(x, r);
    NodeSplits(y, s);
    Heads("node:" + x.id, [bldX] + NodeTail(x, r), "node:" + y.id, [bldY] + NodeTail(y, s));
    Prefixed("node:", x.id, y.id);
    Heads(bldX, NodeTail(x, r), bldY, NodeTail(y, s));
    Prefixed("build:", OrNone(x.build), OrNone(y.build));
    OrNoneInjective(x.build, y.build);
    TailUnique(x, y, r, s);
  }

  lemma {:induction false} LinesUnique(xs: seq<Inputs>, ys: seq<Inputs>)
    requires forall i :: 0 <= i < |xs| ==> Admissible(xs[i])
    requires forall i :: 0 <= i < |ys| ==> Admissible(ys[i])
    requires AllLines(xs) == AllLines(ys)
    ensures xs == ys
  {
    if xs != [] && ys != [] {
      NextEndsNode(xs[1..]);
      NextEndsNode(ys[1..]);
      NodeUnique(xs[0], ys[0], AllLines(xs[1..]), AllLines(ys[1..]));
      LinesUnique(xs[1..], ys[1..]);
    }
  }

  lemma NextEndsNode(xs: seq<Inputs>)
    ensures EndsNode(AllLines(xs))
  {
    if xs != [] {
      assert AllLines(xs)[0] == "node:" + xs[0].id;
    }
  }

  // ----- every line is one line --------------------------------------------

  predicate OneLines(lines: seq<string>) {
    forall i :: 0 <= i < |lines| ==> OneLine(lines[i])
  }

  lemma OneLinesConcat(a: seq<string>, b: seq<string>)
    requires OneLines(a) && OneLines(b)
    ensures OneLines(a + b)
  {
  }

  lemma OpIsLines(op: OpInputs)
    requires PlainOp(op)
    ensures OneLines(OpLines(op))
  {
  }

  lemma {:induction false} OpsAreLines(ops: seq<OpInputs>)
    requires forall i :: 0 <= i < |ops| ==> PlainOp(ops[i])
    ensures OneLines(AllOpLines(ops))
  {
    if ops != [] {
      OpsAreLines(ops[1..]);
      OpIsLines(ops[0]);
      OneLinesConcat(OpLines(ops[0]), AllOpLines(ops[1..]));
    }
  }

  lemma SourceIsLines(source: Option<Source>)
    requires PlainSource(source)
    ensures OneLines(SourceLines(source))
  {
  }

  lemma EnvIsLines(env: Option<seq<(string, string)>>)
    requires env.Some? ==> forall i :: 0 <= i < |env.value| ==> PlainEntry(env.value[i])
    ensures OneLines(EnvLines(env))
  {
  }

  lemma NodeIsLines(x: Inputs)
    requires Admissible(x)
    ensures OneLines(NodeLines(x))
  {
    var head := ["node:" + x.id, "build:" + OrNone(x.build)];
    assert OneLines(head);
    SourceIsLines(x.source);
    EnvIsLines(x.env);
    var cwd := ["cwd:" + OrNone(x.cwd)];
    assert OneLines(cwd);
    if x.operators.Some? {
      OpsAreLines(x.operators.value);
      OneLinesConcat(["operators:"], AllOpLines(x.operators.value));
    }
    OneLinesConcat(head, SourceLines(x.source));
    OneLinesConcat(head + SourceLines(x.source), EnvLines(x.env));
    OneLinesConcat(head + SourceLines(x.source) + EnvLines(x.env), cwd);
    OneLinesConcat(head + SourceLines(x.source) + EnvLines(x.env) + cwd, OperatorsLines(x.operators));
  }

  lemma {:induction false} AllAreLines(xs: seq<Inputs>)
    requires forall i :: 0 <= i < |xs| ==> Admissible(xs[i])
    ensures OneLines(AllLines(xs))
  {
    if xs != [] {
      NodeIsLines(xs[0]);
      AllAreLines(xs[1..]);
      OneLinesConcat(NodeLines(xs[0]), AllLines(xs[1..]));
    }
  }

  lemma CanonicalIsLines(xs: seq<Inputs>)
    requires forall i :: 0 <= i < |xs| ==> Admissible(xs[i])
    ensures OneLines([HEADER] + AllLines(xs))
  {
    AllAreLines(xs);
    HeaderIsLine();
    LineFirst(HEADER, AllLines(xs));
  }

  lemma HeaderIsLine()
    ensures OneLine(HEADER)
  {
  }

  lemma LineFirst(line: string, lines: seq<string>)
    requires OneLine(line) && OneLines(lines)
    ensures OneLines([line] + lines)
  {
  }

  lemma SameTextSameLines(a: seq<string>, b: seq<string>)
    requires OneLines([HEADER] + a) && OneLines([HEADER] + b) && Join([HEADER] + a) == Join([HEADER] + b)
    ensures a == b
  {
    JoinInjective([HEADER] + a, [HEADER] + b);
    Heads(HEADER, a, HEADER, b);
  }

  /** Canonical build inputs decode uniquely. */
  lemma CanonicalIsUnique(xs: seq<Inputs>, ys: seq<Inputs>)
    requires forall i :: 0 <= i < |xs| ==> Admissible(xs[i])
    requires forall i :: 0 <= i < |ys| ==> Admissible(ys[i])
    ensures Canonical(xs) == Canonical(ys) <==> xs == ys
  {
    if Canonical(xs) == Canonical(ys) {
      CanonicalIsLines(xs);
      CanonicalIsLines(ys);
      SameTextSameLines(AllLines(xs), AllLines(ys));
      LinesUnique(xs, ys);
    }
  }

  // ----- why the conditions are there --------------------------------------

  /** A build command or directory `none` reads like an unset one, whatever else is set. */
  lemma NoneIsAmbiguous(x: Inputs)
    requires x.build.None? && x.cwd.None?
    ensures Canonical([x]) == Canonical([x.(build := Some("none"))])
    ensures Canonical([x]) == Canonical([x.(cwd := Some("none"))])
  {
    SameLines(x, x.(build := Some("none")));
    SameLines(x, x.(cwd := Some("none")));
  }

  lemma SameLines(x: Inputs, y: Inputs)
    requires NodeLines(x) == NodeLines(y)
    ensures Canonical([x]) == Canonical([y])
  {
    assert [x][1..] == [] && [y][1..] == [];
    assert AllLines([x]) == AllLines([y]);
  }

  /** An `=` in a key can move between key and value. */
  lemma EqualsIsAmbiguous(x: Inputs, k: string, m: string, v: string)
    ensures Canonical([x.(env := Some([(k + "=" + m, v)]))]) == Canonical([x.(env := Some([(k, m + "=" + v)]))])
  {
    assert "  " + (k + "=" + m) + "=" + v == "  " + k + "=" + (m + "=" + v);
    var a, b := Some([(k + "=" + m, v)]), Some([(k, m + "=" + v)]);
    assert EntryLines(a.value) == EntryLines(b.value);
    SameLines(x.(env := a), x.(env := b));
  }

  /** A line break in a value can imitate another entry. */
  lemma NewlineIsAmbiguous(x: Inputs, k: string, v: string, k': string, v': string)
    ensures Canonical([x.(env := Some([(k, v + "\n  " + k' + "=" + v')]))])
         == Canonical([x.(env := Some([(k, v), (k', v')]))])
  {
    var one, two := Some([(k, v + "\n  " + k' + "=" + v')]), Some([(k, v), (k', v')]);
    var before := ["node:" + x.id, "build:" + OrNone(x.build)] + SourceLines(x.source) + ["env:"];
    var after := ["cwd:" + OrNone(x.cwd)] + OperatorsLines(x.operators);
    EnvSplits(x, one, before, after);
    EnvSplits(x, two, before, after);
    assert EntryLines(one.value) == ["  " + k + "=" + (v + "\n  " + k' + "=" + v')];
    assert EntryLines(two.value) == ["  " + k + "=" + v] + ["  " + k' + "=" + v'];
    JoinConcat(["  " + k + "=" + v], ["  " + k' + "=" + v']);
    JoinOne("  " + k + "=" + v);
    JoinOne("  " + k' + "=" + v');
    JoinOne("  " + k + "=" + (v + "\n  " + k' + "=" + v'));
    NewlineSplits("  " + k + "=", v, "\n", "  " + k' + "=" + v', k', v');
  }

  lemma NewlineSplits(head: string, v: string, newline: string, second: string, k': string, v': string)
    requires newline == "\n" && second == "  " + k' + "=" + v'
    ensures head + (v + "\n  " + k' + "=" + v') + newline == (head + v + newline) + (second + newline)
  {
    assert v + "\n  " + k' + "=" + v' == v + newline + second;
  }

  lemma EnvSplits(x: Inputs, env: Option<seq<(string, string)>>, before: seq<string>, after: seq<string>)
    requires env.Some?
    requires before == ["node:" + x.id, "build:" + OrNone(x.build)] + SourceLines(x.source) + ["env:"]
    requires after == ["cwd:" + OrNone(x.cwd)] + OperatorsLines(x.operators)
    ensures Canonical([x.(env := env)]) == Join([HEADER] + before) + Join(EntryLines(env.value)) + Join(after)
  {
    var y := x.(env := env);
    LinesOfOne(y);
    assert NodeLines(y) == before + EntryLines(env.value) + after;
    JoinThree(HEADER, before, EntryLines(env.value), after);
  }

  lemma LinesOfOne(x: Inputs)
    ensures AllLines([x]) == NodeLines(x)
  {
    assert [x][1..] == [];
  }

  lemma JoinThree(head: string, a: seq<string>, b: seq<string>, c: seq<string>)
    ensures Join([head] + (a + b + c)) == Join([head] + a) + Join(b) + Join(c)
  {
    assert [head] + (a + b + c) == ([head] + a) + b + c;
    JoinConcat([head] + a + b, c);
    JoinConcat([head] + a, b);
  }

  lemma JoinOne(line: string)
    ensures Join([line]) == line + "\n"
  {
    assert [line][1..] == [];
  }

  lemma {:induction false} JoinConcat(a: seq<string>, b: seq<string>)
    ensures Join(a + b) == Join(a) + Join(b)
  {
    if a == [] {
      assert a + b == b;
    } else {
      assert (a + b)[1..] == a[1..] + b;
      JoinConcat(a[1..], b);
    }
  }

  // ----- reordering operators and ignored fields ---------------------------

  lemma {:induction false} BelowTotal(a: string, b: string)
    ensures Below(a, b) || Below(b, a)
    decreases |a|
  {
    if a != [] && b != [] && a[0] == b[0] {
      BelowTotal(a[1..], b[1..]);
    }
  }

  lemma {:induction false} BelowAntisymmetric(a: string, b: string)
    requires Below(a, b) && Below(b, a)
    ensures a == b
    decreases |a|
  {
    if a != [] && b != [] {
      BelowAntisymmetric(a[1..], b[1..]);
      assert a == [a[0]] + a[1..] && b == [b[0]] + b[1..];
    }
  }

  lemma {:induction false} BelowTransitive(a: string, b: string, c: string)
    requires Below(a, b) && Below(b, c)
    ensures Below(a, c)
    decreases |a|
  {
    if a != [] && a[0] == b[0] && b[0] == c[0] {
      BelowTransitive(a[1..], b[1..], c[1..]);
    }
  }

  predicate SortedById(ops: seq<Operator>) {
    forall i, j :: 0 <= i < j < |ops| ==> Below(ops[i].id, ops[j].id)
  }

  lemma {:induction false} InsertSorts(op: Operator, ops: seq<Operator>)
    requires SortedById(ops)
    ensures SortedById(Insert(op, ops))
    ensures multiset(Insert(op, ops)) == multiset(ops) + multiset{op}
    decreases |ops|
  {
    if ops == [] {
    } else if Below(op.id, ops[0].id) {
      forall j | 0 <= j < |ops|
        ensures Below(op.id, ops[j].id)
      {
        if j > 0 {
          BelowTransitive(op.id, ops[0].id, ops[j].id);
        }
      }
    } else {
      InsertSorts(op, ops[1..]);
      BelowTotal(op.id, ops[0].id);
      var rest := Insert(op, ops[1..]);
      assert ops == [ops[0]] + ops[1..];
      forall j | 0 <= j < |rest|
        ensures Below(ops[0].id, rest[j].id)
      {
        assert rest[j] in multiset(rest);
        if rest[j] != op {
          assert rest[j] in ops[1..];
        }
      }
    }
  }

  lemma {:induction false} SortIsPermutation(ops: seq<Operator>)
    ensures SortedById(SortById(ops)) && multiset(SortById(ops)) == multiset(ops)
  {
    if ops != [] {
      SortIsPermutation(ops[1..]);
      InsertSorts(ops[0], SortById(ops[1..]));
      assert ops == [ops[0]] + ops[1..];
    }
  }

  predicate UniqueIds(ops: seq<Operator>) {
    forall i, j :: 0 <= i < j < |ops| ==> ops[i].id != ops[j].id
  }

  /** A sorted list with unique ids is determined by its elements. */
  lemma {:induction false} SortedIsUnique(a: seq<Operator>, b: seq<Operator>)
    requires SortedById(a) && SortedById(b) && multiset(a) == multiset(b) && UniqueIds(a)
    ensures a == b
    decreases |a|
  {
    assert |multiset(a)| == |multiset(b)|;
    if a != [] {
      SameFirst(a, b);
      TailMultiset(a);
      TailMultiset(b);
      SortedIsUnique(a[1..], b[1..]);
      assert a == [a[0]] + a[1..] && b == [b[0]] + b[1..];
    }
  }

  lemma TailMultiset(a: seq<Operator>)
    requires a != []
    ensures multiset(a[1..]) == multiset(a) - multiset{a[0]}
  {
    assert a == [a[0]] + a[1..];
  }

  lemma SameFirst(a: seq<Operator>, b: seq<Operator>)
    requires SortedById(a) && SortedById(b) && multiset(a) == multiset(b) && UniqueIds(a) && a != [] && b != []
    ensures a[0] == b[0]
  {
    assert a[0] in multiset(b) && b[0] in multiset(a);
    var i :| 0 <= i < |b| && b[i] == a[0];
    var j :| 0 <= j < |a| && a[j] == b[0];
    if i > 0 && j > 0 {
      BelowAntisymmetric(a[0].id, b[0].id);
    }
  }

  lemma UniqueIdsPermute(a: seq<Operator>, b: seq<Operator>)
    requires UniqueIds(a) && multiset(a) == multiset(b)
    ensures UniqueIds(b)
  {
    forall i, j | 0 <= i < j < |b|
      ensures b[i].id != b[j].id
    {
      TwoPlaces(b, i, j);
      assert b[i] in multiset(a) && b[j] in multiset(a);
      var k :| 0 <= k < |a| && a[k] == b[i];
      var m :| 0 <= m < |a| && a[m] == b[j];
      if b[i] == b[j] {
        OncePerId(a, k);
      }
    }
  }

  lemma TwoPlaces(b: seq<Operator>, i: nat, j: nat)
    requires i < j < |b|
    ensures b[i] == b[j] ==> multiset(b)[b[i]] >= 2
  {
    assert b == b[..i] + [b[i]] + b[i + 1..j] + [b[j]] + b[j + 1..];
  }

  lemma OncePerId(a: seq<Operator>, k: nat)
    requires UniqueIds(a) && k < |a|
    ensures multiset(a)[a[k]] == 1
  {
    assert a == a[..k] + [a[k]] + a[k + 1..];
    assert a[k] !in a[..k] && a[k] !in a[k + 1..];
  }

  /** Reordering uniquely named operators never changes the inputs. */
  lemma ReorderKeepsInputs(n: Node, ops: seq<Operator>)
    requires n.kind.Runtime? && UniqueIds(n.kind.operators) && multiset(ops) == multiset(n.kind.operators)
    ensures InputsOf(n.(kind := Runtime(ops))) == InputsOf(n)
  {
    SortIsPermutation(n.kind.operators);
    SortIsPermutation(ops);
    UniqueIdsPermute(n.kind.operators, SortById(n.kind.operators));
    SortedIsUnique(SortById(n.kind.operators), SortById(ops));
  }

  /** The same operators up to what is only needed at run time. */
  predicate SameOps(a: seq<Operator>, b: seq<Operator>) {
    |a| == |b| && forall i :: 0 <= i < |a| ==> a[i].(artifact := "") == b[i].(artifact := "")
  }

  lemma {:induction false} InsertSame(o: Operator, p: Operator, a: seq<Operator>, b: seq<Operator>)
    requires SameOps(a, b) && o.(artifact := "") == p.(artifact := "")
    ensures SameOps(Insert(o, a), Insert(p, b))
    decreases |a|
  {
    if a != [] && !Below(o.id, a[0].id) {
      InsertSame(o, p, a[1..], b[1..]);
    }
  }

  lemma {:induction false} SortSame(a: seq<Operator>, b: seq<Operator>)
    requires SameOps(a, b)
    ensures SameOps(SortById(a), SortById(b))
    decreases |a|
  {
    if a != [] {
      SortSame(a[1..], b[1..]);
      InsertSame(a[0], b[0], SortById(a[1..]), SortById(b[1..]));
    }
  }

  /** Equal in everything but the fields a build does not depend on: the artifact paths
      of nodes and operators, and the machine a node is placed on. */
  predicate SameButIgnored(n: Node, m: Node) {
    && n.id == m.id && n.env == m.env && WorkingDir(n.deploy) == WorkingDir(m.deploy)
    && (if n.kind.Custom? then m.kind.Custom? && n.kind.(path := "") == m.kind.(path := "")
        else m.kind.Runtime? && SameOps(n.kind.operators, m.kind.operators))
  }

  /** Ignored fields never change the inputs. */
  lemma IgnoredKeepInputs(n: Node, m: Node)
    requires SameButIgnored(n, m)
    ensures InputsOf(n) == InputsOf(m)
  {
    if n.kind.Runtime? {
      SortSame(n.kind.operators, m.kind.operators);
      assert OpInputsOf(SortById(n.kind.operators)) == OpInputsOf(SortById(m.kind.operators));
    } else {
      assert n.kind.build == n.kind.(path := "").build && n.kind.source == n.kind.(path := "").source;
    }
  }

  // ----- what the fingerprint sees of a node -------------------------------

  /** The build commands and kinds of the operators named `id`, in the order written. */
  function Listing(ops: seq<Operator>, id: string): seq<(Option<string>, OperatorKind)> {
    if ops == [] then []
    else (if ops[0].id == id then [(ops[0].build, ops[0].kind)] else []) + Listing(ops[1..], id)
  }

  /** The same operators, listed by name, up to what is only needed at run time. */
  ghost predicate SameListings(a: seq<Operator>, b: seq<Operator>) {
    forall id :: Listing(a, id) == Listing(b, id)
  }

  /** Equal in every field a build depends on, field by field. */
  ghost predicate SameForTheBuild(n: Node, m: Node) {
    && n.id == m.id
    && (n.kind.Custom? <==> m.kind.Custom?)
    && (n.kind.Custom? && m.kind.Custom? ==> n.kind.build == m.kind.build && n.kind.source == m.kind.source)
    && (n.kind.Runtime? && m.kind.Runtime? ==> SameListings(n.kind.operators, m.kind.operators))
    && (forall dir :: (n.deploy.Some? && n.deploy.value.workingDir == Some(dir)) <==>
                      (m.deploy.Some? && m.deploy.value.workingDir == Some(dir)))
    && (n.env.Some? <==> m.env.Some?)
    && (n.env.Some? && m.env.Some? ==>
          && |n.env.value| == |m.env.value|
          && forall i :: 0 <= i < |n.env.value| ==>
               n.env.value[i].0 == m.env.value[i].0 && Shown(n.env.value[i].1) == Shown(m.env.value[i].1))
  }

  lemma {:induction false} InsertListing(op: Operator, ops: seq<Operator>, id: string)
    ensures Listing(Insert(op, ops), id) == Listing([op] + ops, id)
    decreases |ops|
  {
    assert ([op] + ops)[1..] == ops;
    if ops != [] && !Below(op.id, ops[0].id) {
      BelowTotal(op.id, op.id);
      InsertListing(op, ops[1..], id);
      assert ([op] + ops[1..])[1..] == ops[1..];
      var rest := Insert(op, ops[1..]);
      assert ([ops[0]] + rest)[1..] == rest;
    }
  }

  /** Sorting by id keeps operators of the same name in order. */
  lemma {:induction false} SortListing(ops: seq<Operator>, id: string)
    ensures Listing(SortById(ops), id) == Listing(ops, id)
  {
    if ops != [] {
      SortListing(ops[1..], id);
      InsertListing(ops[0], SortById(ops[1..]), id);
      assert ([ops[0]] + SortById(ops[1..]))[1..] == SortById(ops[1..]);
    }
  }

  lemma {:induction false} InputsListing(a: seq<Operator>, b: seq<Operator>, id: string)
    requires OpInputsOf(a) == OpInputsOf(b)
    ensures Listing(a, id) == Listing(b, id)
    decreases |a|
  {
    assert |OpInputsOf(a)| == |a| && |OpInputsOf(b)| == |b|;
    if a != [] {
      assert OpInputsOf(a)[0] == OpInputsOf(b)[0];
      assert OpInputsOf(a)[1..] == OpInputsOf(a[1..]) && OpInputsOf(b)[1..] == OpInputsOf(b[1..]);
      InputsListing(a[1..], b[1..], id);
    }
  }

  lemma {:induction false} ListingNames(ops: seq<Operator>, id: string)
    requires Listing(ops, id) != []
    ensures exists i :: 0 <= i < |ops| && ops[i].id == id
  {
    if ops[0].id != id {
      ListingNames(ops[1..], id);
      var i :| 0 <= i < |ops[1..]| && ops[1..][i].id == id;
      assert ops[i + 1].id == id;
    }
  }

  lemma FirstIsLeast(a: seq<Operator>, b: seq<Operator>)
    requires SortedById(b) && a != [] && Listing(a, a[0].id) == Listing(b, a[0].id)
    ensures b != [] && Below(b[0].id, a[0].id)
  {
    ListingNames(b, a[0].id);
    var i :| 0 <= i < |b| && b[i].id == a[0].id;
    if i == 0 {
      BelowTotal(a[0].id, a[0].id);
    }
  }

  /** Sorted lists with the same listings read the same. */
  lemma {:induction false} SortedByListing(a: seq<Operator>, b: seq<Operator>)
    requires SortedById(a) && SortedById(b) && SameListings(a, b)
    ensures OpInputsOf(a) == OpInputsOf(b)
    decreases |a|
  {
    if a == [] {
      if b != [] {
        assert Listing(a, b[0].id) == Listing(b, b[0].id);
      }
    } else {
      assert Listing(a, a[0].id) == Listing(b, a[0].id);
      FirstIsLeast(a, b);
      assert Listing(a, b[0].id) == Listing(b, b[0].id);
      FirstIsLeast(b, a);
      BelowAntisymmetric(a[0].id, b[0].id);
      assert Listing(a, a[0].id)[0] == Listing(b, a[0].id)[0];
      forall id
        ensures Listing(a[1..], id) == Listing(b[1..], id)
      {
        ListingTail(a, b, id);
      }
      SortedByListing(a[1..], b[1..]);
      HeadAndTail(a, b);
    }
  }

  lemma ListingTail(a: seq<Operator>, b: seq<Operator>, id: string)
    requires a != [] && b != [] && a[0].id == b[0].id && Listing(a, id) == Listing(b, id)
    ensures Listing(a[1..], id) == Listing(b[1..], id)
  {
    ListingHead(a, id);
    ListingHead(b, id);
  }

  lemma ListingHead(a: seq<Operator>, id: string)
    requires a != []
    ensures a[0].id == id ==> Listing(a, id) != [] && Listing(a, id)[1..] == Listing(a[1..], id)
    ensures a[0].id != id ==> Listing(a, id) == Listing(a[1..], id)
  {
  }

  lemma HeadAndTail(a: seq<Operator>, b: seq<Operator>)
    requires a != [] && b != [] && OpInputsOf(a[1..]) == OpInputsOf(b[1..])
    requires a[0].id == b[0].id && a[0].build == b[0].build && a[0].kind == b[0].kind
    ensures OpInputsOf(a) == OpInputsOf(b)
  {
    assert OpInputsOf(a) == [OpInputs(a[0].id, a[0].build, a[0].kind)] + OpInputsOf(a[1..]);
    assert OpInputsOf(b) == [OpInputs(b[0].id, b[0].build, b[0].kind)] + OpInputsOf(b[1..]);
  }

  lemma OperatorsSeenIff(a: seq<Operator>, b: seq<Operator>)
    ensures OpInputsOf(SortById(a)) == OpInputsOf(SortById(b)) <==> SameListings(a, b)
  {
    if OpInputsOf(SortById(a)) == OpInputsOf(SortById(b)) {
      forall id
        ensures Listing(a, id) == Listing(b, id)
      {
        InputsListing(SortById(a), SortById(b), id);
        SortListing(a, id);
        SortListing(b, id);
      }
    }
    if SameListings(a, b) {
      SortsSame(a, b);
    }
  }

  lemma SortsSame(a: seq<Operator>, b: seq<Operator>)
    requires SameListings(a, b)
    ensures OpInputsOf(SortById(a)) == OpInputsOf(SortById(b))
  {
    SortIsPermutation(a);
    SortIsPermutation(b);
    forall id
      ensures Listing(SortById(a), id) == Listing(SortById(b), id)
    {
      SortListing(a, id);
      SortListing(b, id);
    }
    SortedByListing(SortById(a), SortById(b));
  }

  lemma EnvSeenIff(a: seq<(string, EnvValue)>, b: seq<(string, EnvValue)>)
    ensures ShownEntries(a) == ShownEntries(b) <==>
              |a| == |b| && forall i :: 0 <= i < |a| ==> a[i].0 == b[i].0 && Shown(a[i].1) == Shown(b[i].1)
  {
    assert |ShownEntries(a)| == |a| && |ShownEntries(b)| == |b|;
    if ShownEntries(a) == ShownEntries(b) {
      forall i | 0 <= i < |a|
        ensures a[i].0 == b[i].0 && Shown(a[i].1) == Shown(b[i].1)
      {
        assert ShownEntries(a)[i] == ShownEntries(b)[i];
      }
    }
  }

  lemma DirSeenIff(n: Node, m: Node)
    ensures InputsOf(n).cwd == InputsOf(m).cwd <==>
              forall dir :: (n.deploy.Some? && n.deploy.value.workingDir == Some(dir)) <==>
                            (m.deploy.Some? && m.deploy.value.workingDir == Some(dir))
  {
    var a, b := InputsOf(n).cwd, InputsOf(m).cwd;
    assert forall dir :: a == Some(dir) <==> n.deploy.Some? && n.deploy.value.workingDir == Some(dir);
    assert forall dir :: b == Some(dir) <==> m.deploy.Some? && m.deploy.value.workingDir == Some(dir);
    if a != b {
      var dir := if a.Some? then a.value else b.value;
      assert (a == Some(dir)) != (b == Some(dir));
    }
  }

  /** The inputs of two nodes agree exactly if the nodes agree in every such field. */
  lemma InputsSeenIff(n: Node, m: Node)
    ensures InputsOf(n) == InputsOf(m) <==> SameForTheBuild(n, m)
  {
    DirSeenIff(n, m);
    if n.kind.Runtime? && m.kind.Runtime? {
      OperatorsSeenIff(n.kind.operators, m.kind.operators);
    }
    if n.env.Some? && m.env.Some? {
      EnvSeenIff(n.env.value, m.env.value);
    }
  }

  /** The canonical texts of two lists of nodes agree exactly if the nodes agree, one by
      one, in every field a build depends on: nothing else is seen and nothing is missed. */
  lemma CanonicalSeesIff(ns: seq<Node>, ms: seq<Node>)
    requires forall i :: 0 <= i < |ns| ==> Admissible(InputsOf(ns[i]))
    requires forall i :: 0 <= i < |ms| ==> Admissible(InputsOf(ms[i]))
    ensures Canonical(AllInputs(ns)) == Canonical(AllInputs(ms)) <==>
              |ns| == |ms| && forall i :: 0 <= i < |ns| ==> SameForTheBuild(ns[i], ms[i])
  {
    var xs, ys := AllInputs(ns), AllInputs(ms);
    assert |xs| == |ns| && |ys| == |ms|;
    CanonicalIsUnique(xs, ys);
    if |ns| == |ms| {
      forall i | 0 <= i < |ns|
        ensures xs[i] == ys[i] <==> SameForTheBuild(ns[i], ms[i])
      {
        InputsSeenIff(ns[i], ms[i]);
      }
    }
  }

  /** The decimal value of a string of digits. */
  function ValueOf(digits: string): int {
    if digits == [] then 0 else 10 * ValueOf(digits[..|digits| - 1]) + (digits[|digits| - 1] as int - '0' as int)
  }

  lemma {:induction false} DigitsValue(n: nat)
    ensures ValueOf(Digits(n)) == n && Digits(n) != [] && Digits(n)[0] != '-'
  {
    var last := ["0123456789"[n % 10]];
    assert ["0123456789"[n % 10]][0] as int - '0' as int == n % 10;
    if n < 10 {
      assert Digits(n)[..0] == [];
    } else {
      DigitsValue(n / 10);
      assert (Digits(n / 10) + last)[..|Digits(n / 10)|] == Digits(n / 10);
    }
  }

  /** Printing loses nothing within one kind of value. */
  lemma ShownIsInjective(v: EnvValue, w: EnvValue)
    requires (v.EnvBool? && w.EnvBool?) || (v.EnvInteger? && w.EnvInteger?) || (v.EnvFloat? && w.EnvFloat?)
             || (v.EnvText? && w.EnvText?)
    ensures Shown(v) == Shown(w) <==> v == w
  {
    match v
    case EnvInteger(i) =>
      match w {
        case EnvInteger(j) =>
          if Shown(v) == Shown(w) {
            IntegersShowApart(i, j);
          }
        case _ =>
      }
    case EnvBool(b) =>
      assert "true"[0] == 't' && "false"[0] == 'f';
    case _ =>
  }

  lemma SignedValue(i: int)
    ensures Shown(EnvInteger(i)) != []
    ensures i < 0 <==> Shown(EnvInteger(i))[0] == '-'
    ensures i < 0 ==> ValueOf(Shown(EnvInteger(i))[1..]) == -i
    ensures i >= 0 ==> ValueOf(Shown(EnvInteger(i))) == i
  {
    DigitsValue(if i < 0 then -i else i);
    assert i < 0 ==> Shown(EnvInteger(i))[1..] == Digits(-i);
  }

  lemma IntegersShowApart(i: int, j: int)
    requires Shown(EnvInteger(i)) == Shown(EnvInteger(j))
    ensures i == j
  {
    SignedValue(i);
    SignedValue(j);
  }

  // ----- building the text -------------------------------------------------

  method PushLine(text: string, ghost lines: seq<string>, line: string) returns (t: string, ghost lines': seq<string>)
    requires text == Join(lines)
    ensures lines' == lines + [line] && t == Join(lines')
  {
    JoinConcat(lines, [line]);
    JoinOne(line);
    lines' := lines + [line];
    t := text + line;
    t := t + "\n";
  }

  method PushSource(text: string, ghost lines: seq<string>, kind: NodeKind) returns (t: string, ghost lines': seq<string>)
    requires text == Join(lines)
    ensures lines' == lines + SourceLines(NodeSource(kind)) && t == Join(lines')
  {
    t, lines' := text, lines;
    match kind {
      case Runtime(_) => t, lines' := PushLine(t, lines', "source:none");
      case Custom(_, _, Local) => t, lines' := PushLine(t, lines', "source:local");
      case Custom(_, _, Git(repo, rev)) =>
        t, lines' := PushLine(t, lines', "source:git");
        t, lines' := PushLine(t, lines', "repo:" + repo);
        var tag, value := "head", "";
        match rev {
          case Some(Branch(v)) => tag, value := "branch", v;
          case Some(Tag(v)) => tag, value := "tag", v;
          case Some(Rev(v)) => tag, value := "rev", v;
          case None =>
        }
        assert "rev:" + RevText(rev) == "rev:" + tag + ":" + value;
        t, lines' := PushLine(t, lines', "rev:" + tag + ":" + value);
    }
  }

  method PushEnv(text: string, ghost lines: seq<string>, env: Option<seq<(string, EnvValue)>>)
    returns (t: string, ghost lines': seq<string>)
    requires text == Join(lines)
    ensures lines' == lines + EnvLines(ShownEnv(env)) && t == Join(lines')
  {
    if env.None? {
      t, lines' := PushLine(text, lines, "env:none");
      return;
    }
    t, lines' := PushLine(text, lines, "env:");
    var i := 0;
    while i < |env.value|
      invariant 0 <= i <= |env.value|
      invariant lines' == lines + ["env:"] + EntryLines(ShownEntries(env.value)[..i]) && t == Join(lines')
    {
      var line := "  " + env.value[i].0 + "=" + Shown(env.value[i].1);
      assert EntryLines(ShownEntries(env.value)[..i + 1]) == EntryLines(ShownEntries(env.value)[..i]) + [line];
      Associate(lines + ["env:"], EntryLines(ShownEntries(env.value)[..i]), [line]);
      t, lines' := PushLine(t, lines', line);
      i := i + 1;
    }
    assert ShownEntries(env.value)[..|env.value|] == ShownEntries(env.value);
    Associate(lines, ["env:"], EntryLines(ShownEntries(env.value)));
  }

  lemma {:induction false} AllOpLinesConcat(a: seq<OpInputs>, b: seq<OpInputs>)
    ensures AllOpLines(a + b) == AllOpLines(a) + AllOpLines(b)
  {
    if a == [] {
      assert a + b == b;
    } else {
      assert (a + b)[1..] == a[1..] + b;
      AllOpLinesConcat(a[1..], b);
    }
  }

  lemma AllOpLinesNext(ops: seq<OpInputs>, i: nat)
    requires i < |ops|
    ensures AllOpLines(ops[..i + 1]) == AllOpLines(ops[..i]) + OpLines(ops[i])
  {
    assert ops[..i + 1] == ops[..i] + [ops[i]] && [ops[i]][1..] == [];
    AllOpLinesConcat(ops[..i], [ops[i]]);
  }

  method PushOperator(text: string, ghost lines: seq<string>, op: Operator) returns (t: string, ghost lines': seq<string>)
    requires text == Join(lines)
    ensures lines' == lines + OpLines(OpInputs(op.id, op.build, op.kind)) && t == Join(lines')
  {
    t, lines' := PushLine(text, lines, "  op:" + op.id);
    t, lines' := PushLine(t, lines', "    build:" + OrNone(op.build));
    t, lines' := PushLine(t, lines', "    source-kind:" + KindTag(op.kind));
  }

  method PushOperators(text: string, ghost lines: seq<string>, operators: seq<Operator>)
    returns (t: string, ghost lines': seq<string>)
    requires text == Join(lines)
    ensures lines' == lines + OperatorsLines(Some(OpInputsOf(SortById(operators)))) && t == Join(lines')
  {
    var byId := SortById(operators);
    ghost var inputs := OpInputsOf(byId);
    if byId == [] {
      t, lines' := PushLine(text, lines, "operators:none");
      return;
    }
    t, lines' := PushLine(text, lines, "operators:");
    var i := 0;
    while i < |byId|
      invariant 0 <= i <= |byId|
      invariant lines' == lines + ["operators:"] + AllOpLines(inputs[..i]) && t == Join(lines')
    {
      AllOpLinesNext(inputs, i);
      Associate(lines + ["operators:"], AllOpLines(inputs[..i]), OpLines(inputs[i]));
      t, lines' := PushOperator(t, lines', byId[i]);
      i := i + 1;
    }
    assert inputs[..|byId|] == inputs;
    Associate(lines, ["operators:"], AllOpLines(inputs));
  }

  lemma NodePieces(lines: seq<string>, x: Inputs)
    ensures lines + ["node:" + x.id] + ["build:" + OrNone(x.build)] + SourceLines(x.source) + EnvLines(x.env)
            + ["cwd:" + OrNone(x.cwd)] + OperatorsLines(x.operators) == lines + NodeLines(x)
  {
    var head := ["node:" + x.id] + ["build:" + OrNone(x.build)];
    var src, env, cwd, ops := SourceLines(x.source), EnvLines(x.env), ["cwd:" + OrNone(x.cwd)], OperatorsLines(x.operators);
    assert NodeLines(x) == head + src + env + cwd + ops;
    Regroup(lines, ["node:" + x.id], ["build:" + OrNone(x.build)], src, env, cwd, ops);
  }

  lemma Regroup<T>(l: seq<T>, a: seq<T>, b: seq<T>, c: seq<T>, d: seq<T>, e: seq<T>, f: seq<T>)
    ensures l + a + b + c + d + e + f == l + (a + b + c + d + e + f)
  {
  }

  method PushNode(text: string, ghost lines: seq<string>, n: Node) returns (t: string, ghost lines': seq<string>)
    requires text == Join(lines)
    ensures lines' == lines + NodeLines(InputsOf(n)) && t == Join(lines')
  {
    NodePieces(lines, InputsOf(n));
    t, lines' := PushLine(text, lines, "node:" + n.id);
    t, lines' := PushLine(t, lines', "build:" + OrNone(NodeBuildCommand(n.kind)));
    t, lines' := PushSource(t, lines', n.kind);
    t, lines' := PushEnv(t, lines', n.env);
    t, lines' := PushLine(t, lines', "cwd:" + OrNone(WorkingDir(n.deploy)));
    if n.kind.Runtime? {
      t, lines' := PushOperators(t, lines', n.kind.operators);
    } else {
      assert lines' + OperatorsLines(None) == lines';
    }
  }

  lemma {:induction false} AllLinesConcat(a: seq<Inputs>, b: seq<Inputs>)
    ensures AllLines(a + b) == AllLines(a) + AllLines(b)
  {
    if a == [] {
      assert a + b == b;
    } else {
      assert (a + b)[1..] == a[1..] + b;
      AllLinesConcat(a[1..], b);
    }
  }

  lemma AllLinesNext(xs: seq<Inputs>, i: nat)
    requires i < |xs|
    ensures AllLines(xs[..i + 1]) == AllLines(xs[..i]) + NodeLines(xs[i])
  {
    assert xs[..i + 1] == xs[..i] + [xs[i]];
    AllLinesConcat(xs[..i], [xs[i]]);
    assert [xs[i]][1..] == [];
    assert AllLines([xs[i]]) == NodeLines(xs[i]);
  }

  /** `text` is the canonical text of `xs`, behind `Open`. */
  ghost predicate Written(text: string, xs: seq<Inputs>) {
    forall z {:trigger Open(z)} :: Open(z) && z == 0 ==> text == Canonical(xs)
  }

  method PushNext(text: string, n: Node, ghost xs: seq<Inputs>, ghost i: nat) returns (t: string)
    requires i < |xs| && xs[i] == InputsOf(n) && Written(text, xs[..i])
    ensures Written(t, xs[..i + 1])
  {
    assert Open(0);
    ghost var lines := [HEADER] + AllLines(xs[..i]);
    CanonicalNext(xs, i);
    t, lines := PushNode(text, lines, n);
  }

  lemma CanonicalNext(xs: seq<Inputs>, i: nat)
    requires i < |xs|
    ensures Canonical(xs[..i + 1]) == Join([HEADER] + AllLines(xs[..i]) + NodeLines(xs[i]))
  {
    AllLinesNext(xs, i);
    Associate([HEADER], AllLines(xs[..i]), NodeLines(xs[i]));
  }

  lemma Associate<T>(a: seq<T>, b: seq<T>, c: seq<T>)
    ensures a + b + c == a + (b + c)
  {
  }

  method CanonicalText(nodes: seq<Node>) returns (text: string)
    ensures text == Canonical(AllInputs(nodes))
  {
    ghost var xs := AllInputs(nodes);
    ghost var lines: seq<string>;
    text, lines := PushLine("", [], HEADER);
    var i := 0;
    assert xs[..0] == [];
    WrittenNone(text);
    while i < |nodes|
      invariant 0 <= i <= |nodes| && Written(text, xs[..i])
    {
      text := PushNext(text, nodes[i], xs, i);
      i := i + 1;
    }
    assert xs[..|nodes|] == xs;
    assert Open(0);
  }

  lemma WrittenNone(text: string)
    requires text == Join([HEADER])
    ensures Written(text, [])
  {
    assert [HEADER] + AllLines([]) == [HEADER];
  }

  /** The fingerprint, for a given encoding of text as bytes. */
  function FingerprintOf(nodes: seq<Node>, encode: string -> seq<Byte>): string {
    Fingerprint(encode(Canonical(AllInputs(nodes))))
  }

  method FingerprintBuildInputs(nodes: seq<Node>, encode: string -> seq<Byte>) returns (s: string)
    ensures s == FingerprintOf(nodes, encode)
  {
    var text := CanonicalText(nodes);
    s := Fnv1a64Hex(encode(text));
  }

  // ----- the session cache -------------------------------------------------

  class Session {
    var sessionId: string
    var buildId: Option<string>
    var localBuild: Option<string>
    var gitSources: map<string, string>
    var resolvedDataflow: Option<string>
    var buildFingerprint: Option<string>
    var sourceFingerprint: Option<string>

    /** Drops what a previous build left behind unless the build inputs still have the
        fingerprint that was recorded for it. */
    method InvalidateIfBuildInputsChanged(nodes: seq<Node>, encode: string -> seq<Byte>) returns (changed: bool)
      modifies this`buildId, this`localBuild, this`gitSources, this`resolvedDataflow, this`buildFingerprint
      ensures changed <==> old(buildFingerprint) != Some(FingerprintOf(nodes, encode))
      ensures buildFingerprint == Some(FingerprintOf(nodes, encode))
      ensures changed ==> buildId == None && localBuild == None && gitSources == map[] && resolvedDataflow == None
      ensures !changed ==> buildId == old(buildId) && localBuild == old(localBuild) && gitSources == old(gitSources)
                           && resolvedDataflow == old(resolvedDataflow)
    {
      var current := FingerprintBuildInputs(nodes, encode);
      changed := Record(current);
    }

    /** Records a fingerprint; if it is new, whatever the old one stood for is dropped. */
    method Record(current: string) returns (changed: bool)
      modifies this`buildId, this`localBuild, this`gitSources, this`resolvedDataflow, this`buildFingerprint
      ensures changed <==> old(buildFingerprint) != Some(current)
      ensures buildFingerprint == Some(current)
      ensures changed ==> buildId == None && localBuild == None && gitSources == map[] && resolvedDataflow == None
      ensures !changed ==> buildId == old(buildId) && localBuild == old(localBuild) && gitSources == old(gitSources)
                           && resolvedDataflow == old(resolvedDataflow)
    {
      if buildFingerprint == Some(current) {
        return false;
      }
      buildId, localBuild, gitSources, resolvedDataflow := None, None, map[], None;
      buildFingerprint := Some(current);
      return true;
    }
  }

  /** Edits that do not concern the build never drop the cache. */
  lemma SameBuildSameFingerprint(ns: seq<Node>, ms: seq<Node>, encode: string -> seq<Byte>)
    requires |ns| == |ms| && forall i :: 0 <= i < |ns| ==> SameForTheBuild(ns[i], ms[i])
    ensures FingerprintOf(ns, encode) == FingerprintOf(ms, encode)
  {
    forall i | 0 <= i < |ns|
      ensures InputsOf(ns[i]) == InputsOf(ms[i])
    {
      InputsSeenIff(ns[i], ms[i]);
    }
    assert AllInputs(ns) == AllInputs(ms);
  }

  /** Byte strings of the same length that differ in exactly the `k`-th byte. */
  ghost predicate DifferAt(a: seq<Byte>, b: seq<Byte>, k: nat) {
    |a| == |b| && k < |a| && a[k] != b[k] && forall i :: 0 <= i < |a| && i != k ==> a[i] == b[i]
  }

  /** An edit that changes a single byte of the canonical text is always noticed: the
      fingerprint recorded for the old nodes, on which a session keeps its build, is never
      that of the new ones. */
  lemma OneByteEditIsNoticed(recorded: Option<string>, ns: seq<Node>, ms: seq<Node>, encode: string -> seq<Byte>, k: nat)
    requires recorded == Some(FingerprintOf(ns, encode))
    requires DifferAt(encode(Canonical(AllInputs(ns))), encode(Canonical(AllInputs(ms))), k)
    ensures recorded != Some(FingerprintOf(ms, encode))
  {
    var a, b := encode(Canonical(AllInputs(ns))), encode(Canonical(AllInputs(ms)));
    OneByteDiffers(a, b, k);
    FingerprintIsDigest(a, b);
  }
}
