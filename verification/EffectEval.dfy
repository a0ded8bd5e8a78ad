/** Meaning of a graph whose operators have effects. A tensor is a reference into a storage:
    views, splits and items share the storage of their base. Nodes run in list order on the
    storages, the KV caches and a log of the attention calls. */
module EffectEval {
  import opened Options
  import opened FxGraph
  import opened Splice

  type Data(!new)
  type Key(==, !new)

  // ----- which nodes share a storage -----

  /** One step from a tensor to a part of it. */
  datatype Step = Step(target: Target, rest: seq<Arg>, named: map<string, Arg>)
  datatype Ref = Ref(root: Id, path: seq<Step>)
  type Aliases = map<Id, Ref>

  function RefOf(al: Aliases, n: Id): Ref {
    if n in al then al[n] else Ref(n, [])
  }

  predicate IsAlias(node: Node) {
    (node.target.View? || node.target.SplitMethod? || node.target.SplitWithSizes? || node.target.GetItem?)
    && |node.args| > 0 && node.args[0].NodeArg?
  }

  function AliasOf(n: Id, node: Node, al: Aliases): Ref {
    if !IsAlias(node) then Ref(n, [])
    else if node.target.View? then RefOf(al, node.args[0].n)
    else
      var base := RefOf(al, node.args[0].n);
      Ref(base.root, base.path + [Step(node.target, node.args[1..], node.kwargs)])
  }

  function AliasRun(order: seq<Id>, defs: map<Id, Node>, al: Aliases): Aliases
    requires Elems(order) <= defs.Keys
  {
    if order == [] then al
    else AliasRun(order[1..], defs, al[order[0] := AliasOf(order[0], defs[order[0]], al)])
  }

  function AliasesOf(g: Graph): Aliases
    requires Elems(g.order) <= g.defs.Keys
  {
    AliasRun(g.order, g.defs, map[])
  }

  /** Every node's reference follows from its base's. */
  ghost predicate Labels(g: Graph, al: Aliases) {
    forall n | n in g.defs :: RefOf(al, n) == AliasOf(n, g.defs[n], al)
  }

  lemma {:induction false} AliasRunKeeps(order: seq<Id>, defs: map<Id, Node>, al: Aliases, n: Id)
    requires Elems(order) <= defs.Keys && n !in Elems(order) && n in al
    ensures n in AliasRun(order, defs, al) && AliasRun(order, defs, al)[n] == al[n]
  {
    if order != [] {
      AliasRunKeeps(order[1..], defs, al[order[0] := AliasOf(order[0], defs[order[0]], al)], n);
    }
  }

  lemma AliasBase(node: Node)
    requires IsAlias(node)
    ensures node.args[0].n in Refs(node)
  {
  }

  lemma {:induction false} AliasRunLabels(order: seq<Id>, defs: map<Id, Node>, seen: set<Id>, al: Aliases, n: Id)
    requires NoDup(order) && Elems(order) <= defs.Keys && Elems(order) !! seen && DefBeforeUse(order, defs, seen)
    requires seen <= al.Keys && n in Elems(order)
    ensures var out := AliasRun(order, defs, al); n in out && out[n] == AliasOf(n, defs[n], out)
    decreases |order|
  {
    var m := order[0];
    var al' := al[m := AliasOf(m, defs[m], al)];
    if n == m {
      AliasRunKeeps(order[1..], defs, al', n);
      if IsAlias(defs[n]) {
        AliasBase(defs[n]);
        var b := defs[n].args[0].n;
        assert b in seen;
        AliasRunKeeps(order, defs, al, b);
      }
    } else {
      AliasRunLabels(order[1..], defs, seen + {m}, al', n);
    }
  }

  /** On a lint-clean graph the references follow from the definitions, ... */
  lemma AliasesLabel(g: Graph)
    requires g.Valid() && LintClean(g)
    ensures Labels(g, AliasesOf(g))
  {
    forall n | n in g.defs
      ensures RefOf(AliasesOf(g), n) == AliasOf(n, g.defs[n], AliasesOf(g))
    {
      AliasRunLabels(g.order, g.defs, {}, map[], n);
    }
  }

  lemma {:induction false} AliasRunKeys(order: seq<Id>, defs: map<Id, Node>, al: Aliases, n: Id)
    requires Elems(order) <= defs.Keys && n in AliasRun(order, defs, al)
    ensures n in al || n in Elems(order)
  {
    if order != [] {
      AliasRunKeys(order[1..], defs, al[order[0] := AliasOf(order[0], defs[order[0]], al)], n);
    }
  }

  lemma {:induction false} LabelsAgree(order: seq<Id>, defs: map<Id, Node>, seen: set<Id>, a: Aliases, b: Aliases, n: Id)
    requires DefBeforeUse(order, defs, seen) && Elems(order) <= defs.Keys && n in Elems(order) + seen
    requires forall m | m in Elems(order) :: RefOf(a, m) == AliasOf(m, defs[m], a)
    requires forall m | m in Elems(order) :: RefOf(b, m) == AliasOf(m, defs[m], b)
    requires forall m | m in seen :: RefOf(a, m) == RefOf(b, m)
    ensures RefOf(a, n) == RefOf(b, n)
    decreases |order|
  {
    if n !in seen {
      var m := order[0];
      if IsAlias(defs[m]) { AliasBase(defs[m]); }
      LabelsAgree(order[1..], defs, seen + {m}, a, b, n);
    }
  }

  /** ... and there is only one way to label it. */
  lemma LabelsUnique(g: Graph, a: Aliases, b: Aliases, n: Id)
    requires g.Valid() && LintClean(g) && Labels(g, a) && Labels(g, b) && n in g.defs
    ensures RefOf(a, n) == RefOf(b, n)
  {
    LabelsAgree(g.order, g.defs, {}, a, b, n);
  }

  // ----- values and state -----

  datatype Val = Missing | Imm(a: Arg) | Tensor(d: Data)

  datatype Event = Event(node: Id, args: seq<Val>, kwargs: map<string, Val>, cache: Data)

  datatype State = State(store: Id -> Data, cache: Key -> Data, log: seq<Event>)

  /** The tensor operators, uninterpreted. `part` and `patch` read and overwrite a part of a
      storage; `effect` is whatever another operator does to a storage it mutates. */
  datatype Interp = Interp(
    part: (seq<Step>, Data) -> Data,
    patch: (seq<Step>, Data, Data) -> Data,
    layer: Val -> Key,
    rope: (Val, Data, Data, Val, Val, Val) -> (Data, Data),
    norm: (Val, Val, Val, Val) -> Data,
    insert: (Key, Data, Val, Val) -> Data,
    attend: (seq<Val>, map<string, Val>, Data) -> Data,
    result: (Id, Target, seq<Val>, map<string, Val>) -> Data,
    effect: (Id, Target, Id, seq<Val>, map<string, Val>, Data) -> Data)

  /** Python compares numbers by value: `True == 1 == 1.0`. */
  function ByValue(a: Arg): Arg {
    match a
    case IntArg(i) => RealArg(i as real)
    case BoolArg(b) => RealArg(if b then 1.0 else 0.0)
    case _ => a
  }

  /** `_arg`: the keyword if it is there, else the position; `None` when neither is. */
  function ArgOf(node: Node, i: nat, name: string): Option<Arg> {
    if name in node.kwargs then Some(node.kwargs[name])
    else if |node.args| > i then Some(node.args[i])
    else None
  }

  function Read(I: Interp, s: State, r: Ref): Data {
    if r.path == [] then s.store(r.root) else I.part(r.path, s.store(r.root))
  }

  function Written(I: Interp, s: State, r: Ref, v: Data): State {
    s.(store := x => if x != r.root then s.store(x)
                     else if r.path == [] then v
                     else I.patch(r.path, s.store(x), v))
  }

  function ArgVal(I: Interp, al: Aliases, s: State, a: Arg): Val {
    if a.NodeArg? then Tensor(Read(I, s, RefOf(al, a.n))) else Imm(ByValue(a))
  }

  function ValOf(I: Interp, al: Aliases, s: State, a: Option<Arg>): Val {
    if a.None? then Missing else ArgVal(I, al, s, a.value)
  }

  function Vals(I: Interp, al: Aliases, s: State, args: seq<Arg>): seq<Val> {
    seq(|args|, i requires 0 <= i < |args| => ArgVal(I, al, s, args[i]))
  }

  function NamedVals(I: Interp, al: Aliases, s: State, kwargs: map<string, Arg>): map<string, Val> {
    map k | k in kwargs :: ArgVal(I, al, s, kwargs[k])
  }

  // ----- effects -----

  /** In-place rotation of `q` and `k`. */
  function Rotated(I: Interp, s: State, pos: Val, q: Ref, k: Ref, head: Val, cos: Val, neox: Val): State {
    var out := I.rope(pos, Read(I, s, q), Read(I, s, k), head, cos, neox);
    Written(I, Written(I, s, q, out.0), k, out.1)
  }

  function CacheWith(I: Interp, cache: Key -> Data, layer: Key, k: Val, v: Val): Key -> Data {
    c => if c == layer then I.insert(layer, cache(c), k, v) else cache(c)
  }

  function Insert(I: Interp, s: State, layer: Val, k: Val, v: Val): State {
    s.(cache := CacheWith(I, s.cache, I.layer(layer), k, v))
  }

  function Attend(I: Interp, al: Aliases, n: Id, node: Node, s: State): State {
    var (args, kwargs) := (Vals(I, al, s, node.args), NamedVals(I, al, s, node.kwargs));
    var cache := s.cache(I.layer(ValOf(I, al, s, ArgOf(node, 4, "layer_name"))));
    var s' := s.(log := s.log + [Event(n, args, kwargs, cache)]);
    var out := ArgOf(node, 3, "output");
    if out.Some? && out.value.NodeArg?
    then Written(I, s', RefOf(al, out.value.n), I.attend(args, kwargs, cache))
    else s'
  }

  predicate TwoNodes(a: Option<Arg>, b: Option<Arg>) {
    a.Some? && b.Some? && a.value.NodeArg? && b.value.NodeArg?
  }

  const HEAD_64 := Imm(RealArg(64.0))
  const HEAD_128 := Imm(RealArg(128.0))
  const TRUE_VAL := Imm(RealArg(1.0))
  const EPS_VAL := Imm(RealArg(0.000001))
  const NORM_SHAPE := Imm(IntsArg([128]))

  function ExecRope(I: Interp, al: Aliases, node: Node, s: State): State {
    var (q, k) := (ArgOf(node, 1, "query"), ArgOf(node, 2, "key"));
    if !TwoNodes(q, k) then s
    else Rotated(I, s, ValOf(I, al, s, ArgOf(node, 0, "positions")), RefOf(al, q.value.n), RefOf(al, k.value.n),
                 ValOf(I, al, s, ArgOf(node, 3, "head_size")), ValOf(I, al, s, ArgOf(node, 4, "cos_sin_cache")),
                 ValOf(I, al, s, ArgOf(node, 5, "is_neox")))
  }

  function ExecInsert(I: Interp, al: Aliases, node: Node, s: State): State {
    Insert(I, s, ValOf(I, al, s, ArgOf(node, 2, "layer_name")),
           ValOf(I, al, s, ArgOf(node, 0, "key")), ValOf(I, al, s, ArgOf(node, 1, "value")))
  }

  function Kw(node: Node, name: string): Option<Arg> {
    if name in node.kwargs then Some(node.kwargs[name]) else None
  }

  /** The fused Qwen2 operator: rotate in place, then insert. */
  function ExecFused2(I: Interp, al: Aliases, node: Node, s: State): State {
    var (q, k) := (Kw(node, "query"), Kw(node, "key"));
    if !TwoNodes(q, k) then s
    else
      var s' := Rotated(I, s, ValOf(I, al, s, Kw(node, "positions")), RefOf(al, q.value.n), RefOf(al, k.value.n),
                        HEAD_64, ValOf(I, al, s, Kw(node, "cos_sin_cache")), ValOf(I, al, s, Kw(node, "is_neox")));
      Insert(I, s', ValOf(I, al, s', Kw(node, "layer_name")), ValOf(I, al, s', k), ValOf(I, al, s', Kw(node, "value")))
  }

  /** The parameters for which the fused Qwen3 operator is plain RMSNorm and RoPE. */
  predicate DenseQwen3(node: Node) {
    && Kw(node, "is_neox") == Some(BoolArg(true))
    && Kw(node, "mrope_section_t") == Some(IntArg(64))
    && Kw(node, "mrope_section_h") == Some(IntArg(0))
    && Kw(node, "mrope_section_w") == Some(IntArg(0))
    && Kw(node, "is_interleaved") == Some(BoolArg(false))
    && Kw(node, "eps") == Some(RealArg(0.000001))
    && Kw(node, "gemma") == Some(BoolArg(false))
  }

  /** Both heads normalised and rotated. */
  function NormRope(I: Interp, q: Val, qWeight: Val, k: Val, kWeight: Val, pos: Val, cos: Val): (Data, Data) {
    I.rope(pos, I.norm(q, NORM_SHAPE, qWeight, EPS_VAL), I.norm(k, NORM_SHAPE, kWeight, EPS_VAL),
           HEAD_128, cos, TRUE_VAL)
  }

  /** The fused Qwen3 operator: normalise and rotate into the two outputs, then insert. */
  function ExecFused3(I: Interp, al: Aliases, node: Node, s: State): State {
    var (q, k) := (Kw(node, "q_out"), Kw(node, "k_out"));
    if !TwoNodes(q, k) || !DenseQwen3(node) then s
    else
      var out := NormRope(I, ValOf(I, al, s, Kw(node, "q")), ValOf(I, al, s, Kw(node, "q_weight")),
                          ValOf(I, al, s, Kw(node, "k")), ValOf(I, al, s, Kw(node, "k_weight")),
                          ValOf(I, al, s, Kw(node, "positions")), ValOf(I, al, s, Kw(node, "cos_sin_cache")));
      var s' := Written(I, Written(I, s, RefOf(al, q.value.n), out.0), RefOf(al, k.value.n), out.1);
      Insert(I, s', ValOf(I, al, s', Kw(node, "layer_name")), ValOf(I, al, s', k), ValOf(I, al, s', Kw(node, "v")))
  }

  function ExecNorm(I: Interp, al: Aliases, n: Id, node: Node, s: State): State {
    Written(I, s, Ref(n, []),
            I.norm(ValOf(I, al, s, ArgOf(node, 0, "input")), ValOf(I, al, s, ArgOf(node, 1, "normalized_shape")),
                   ValOf(I, al, s, ArgOf(node, 2, "weight")), ValOf(I, al, s, ArgOf(node, 3, "eps"))))
  }

  /** The storages that another operator mutates. */
  function Mutated(al: Aliases, node: Node): set<Id> {
    if !node.target.Other? then {}
    else
      (set i | 0 <= i < |node.args| && i in node.target.writes && node.args[i].NodeArg? :: RefOf(al, node.args[i].n).root) +
      (set k | k in node.kwargs && k in node.target.named && node.kwargs[k].NodeArg? :: RefOf(al, node.kwargs[k].n).root)
  }

  function ExecOther(I: Interp, al: Aliases, n: Id, node: Node, s: State): State {
    var (args, kwargs) := (Vals(I, al, s, node.args), NamedVals(I, al, s, node.kwargs));
    var mutated := Mutated(al, node);
    s.(store := r => if r == n then I.result(n, node.target, args, kwargs)
                     else if r in mutated then I.effect(n, node.target, r, args, kwargs, s.store(r))
                     else s.store(r))
  }

  /** What an operator can see of its call: attention ignores its ordering argument. */
  function Visible(node: Node): Node {
    if !node.target.Attention? then node
    else node.(args := if |node.args| > 7 then node.args[7 := NoneArg] else node.args,
               kwargs := node.kwargs - {"kv_cache_dummy_dep"})
  }

  predicate Inert(node: Node) {
    IsAlias(node) || node.target.Placeholder? || node.target.Output?
  }

  function Exec(I: Interp, al: Aliases, n: Id, node: Node, s: State): State {
    if Inert(node) then s
    else
      match node.target
      case Rope => ExecRope(I, al, node, s)
      case KvUpdate => ExecInsert(I, al, node, s)
      case Attention => Attend(I, al, n, Visible(node), s)
      case AtenRmsNorm => ExecNorm(I, al, n, node, s)
      case FusedQwen2 => ExecFused2(I, al, node, s)
      case FusedQwen3 => ExecFused3(I, al, node, s)
      case _ => ExecOther(I, al, n, node, s)
  }

  function ExecAll(I: Interp, al: Aliases, order: seq<Id>, defs: map<Id, Node>, s: State): State
    requires Elems(order) <= defs.Keys
  {
    if order == [] then s
    else ExecAll(I, al, order[1..], defs, Exec(I, al, order[0], defs[order[0]], s))
  }

  lemma {:induction false} ExecAllConcat(I: Interp, al: Aliases, a: seq<Id>, b: seq<Id>, defs: map<Id, Node>, s: State)
    requires Elems(a + b) <= defs.Keys && Elems(a) <= defs.Keys && Elems(b) <= defs.Keys
    ensures ExecAll(I, al, a + b, defs, s) == ExecAll(I, al, b, defs, ExecAll(I, al, a, defs, s))
  {
    if a == [] {
      assert a + b == b;
    } else {
      assert (a + b)[1..] == a[1..] + b;
      ExecAllConcat(I, al, a[1..], b, defs, Exec(I, al, a[0], defs[a[0]], s));
    }
  }

  /** Running a list that has `x` in it. */
  lemma RunThrough(I: Interp, al: Aliases, defs: map<Id, Node>, before: seq<Id>, x: Id, rest: seq<Id>, s: State)
    requires Elems(before + [x] + rest) <= defs.Keys
    ensures Elems(before) <= defs.Keys && Elems(rest) <= defs.Keys && x in defs
    ensures ExecAll(I, al, before + [x] + rest, defs, s) ==
            ExecAll(I, al, rest, defs, Exec(I, al, x, defs[x], ExecAll(I, al, before, defs, s)))
  {
    hide Exec;
    SplitThree(before, x, rest);
    ExecAllConcat(I, al, before, [x] + rest, defs, s);
  }

  /** The evaluator. Placeholders find their contents in the initial state. */
  function Execute(I: Interp, g: Graph, s: State): State
    requires Elems(g.order) <= g.defs.Keys
  {
    ExecAll(I, AliasesOf(g), g.order, g.defs, s)
  }

  // ----- what a node touches -----

  function RootOf(al: Aliases, n: Id): Id {
    RefOf(al, n).root
  }

  /** The storages a node reads or writes. */
  function Touched(al: Aliases, n: Id, node: Node): set<Id> {
    if Inert(node) then {} else {n} + set m | m in Refs(Visible(node)) :: RootOf(al, m)
  }

  function ArgRoot(al: Aliases, a: Option<Arg>): set<Id> {
    if a.Some? && a.value.NodeArg? then {RootOf(al, a.value.n)} else {}
  }

  /** The storages a node writes. */
  function Writes(al: Aliases, n: Id, node: Node): set<Id> {
    if Inert(node) then {}
    else
      match node.target
      case Rope => ArgRoot(al, ArgOf(node, 1, "query")) + ArgRoot(al, ArgOf(node, 2, "key"))
      case KvUpdate => {}
      case Attention => ArgRoot(al, ArgOf(Visible(node), 3, "output"))
      case AtenRmsNorm => {n}
      case FusedQwen2 => ArgRoot(al, Kw(node, "query")) + ArgRoot(al, Kw(node, "key"))
      case FusedQwen3 => ArgRoot(al, Kw(node, "q_out")) + ArgRoot(al, Kw(node, "k_out"))
      case _ => {n} + Mutated(al, node)
  }

  /** Two states equal but for the storages `bad`. */
  ghost predicate Agree(s: State, t: State, bad: set<Id>) {
    s.cache == t.cache && s.log == t.log && forall r | r !in bad :: s.store(r) == t.store(r)
  }

  lemma ExecFrame(I: Interp, al: Aliases, n: Id, node: Node, s: State, r: Id)
    requires r !in Writes(al, n, node)
    ensures Exec(I, al, n, node, s).store(r) == s.store(r)
  {
  }

  ghost predicate SeesSame(al: Aliases, node: Node, s: State, t: State) {
    forall m | m in Refs(node) :: s.store(RootOf(al, m)) == t.store(RootOf(al, m))
  }

  lemma ValsSame(I: Interp, al: Aliases, node: Node, s: State, t: State)
    requires SeesSame(al, node, s, t)
    ensures Vals(I, al, s, node.args) == Vals(I, al, t, node.args)
    ensures NamedVals(I, al, s, node.kwargs) == NamedVals(I, al, t, node.kwargs)
  {
    forall i | 0 <= i < |node.args|
      ensures ArgVal(I, al, s, node.args[i]) == ArgVal(I, al, t, node.args[i])
    {
      if node.args[i].NodeArg? { assert node.args[i].n in Refs(node); }
    }
    forall k | k in node.kwargs
      ensures ArgVal(I, al, s, node.kwargs[k]) == ArgVal(I, al, t, node.kwargs[k])
    {
      if node.kwargs[k].NodeArg? { assert node.kwargs[k].n in Refs(node); }
    }
  }

  lemma ArgSees(node: Node, i: nat, name: string)
    ensures var a := ArgOf(node, i, name); a.Some? && a.value.NodeArg? ==> a.value.n in Refs(node)
    ensures var a := Kw(node, name); a.Some? && a.value.NodeArg? ==> a.value.n in Refs(node)
  {
  }

  lemma WrittenAgrees(I: Interp, s: State, t: State, r: Ref, v: Data, bad: set<Id>)
    requires Agree(s, t, bad) && r.root !in bad
    ensures Agree(Written(I, s, r, v), Written(I, t, r, v), bad)
  {
  }

  lemma RotatedAgrees(I: Interp, s: State, t: State, pos: Val, q: Ref, k: Ref, head: Val, cos: Val, neox: Val, bad: set<Id>)
    requires Agree(s, t, bad) && q.root !in bad && k.root !in bad
    ensures Agree(Rotated(I, s, pos, q, k, head, cos, neox), Rotated(I, t, pos, q, k, head, cos, neox), bad)
  {
    var out := I.rope(pos, Read(I, s, q), Read(I, s, k), head, cos, neox);
    WrittenAgrees(I, s, t, q, out.0, bad);
    WrittenAgrees(I, Written(I, s, q, out.0), Written(I, t, q, out.0), k, out.1, bad);
  }

  /** The references of `node` avoid `bad`. */
  ghost predicate Avoids(al: Aliases, node: Node, bad: set<Id>) {
    forall m | m in Refs(node) :: RootOf(al, m) !in bad
  }

  lemma ArgAgrees(I: Interp, al: Aliases, node: Node, s: State, t: State, bad: set<Id>, i: nat, name: string)
    requires Agree(s, t, bad) && Avoids(al, node, bad)
    ensures ValOf(I, al, s, ArgOf(node, i, name)) == ValOf(I, al, t, ArgOf(node, i, name))
    ensures ValOf(I, al, s, Kw(node, name)) == ValOf(I, al, t, Kw(node, name))
    ensures ArgRoot(al, ArgOf(node, i, name)) !! bad && ArgRoot(al, Kw(node, name)) !! bad
  {
    ArgSees(node, i, name);
  }

  lemma RopeAgrees(I: Interp, al: Aliases, node: Node, s: State, t: State, bad: set<Id>)
    requires Agree(s, t, bad) && Avoids(al, node, bad)
    ensures Agree(ExecRope(I, al, node, s), ExecRope(I, al, node, t), bad)
  {
    var (q, k) := (ArgOf(node, 1, "query"), ArgOf(node, 2, "key"));
    if TwoNodes(q, k) {
      ArgAgrees(I, al, node, s, t, bad, 0, "positions");
      ArgAgrees(I, al, node, s, t, bad, 1, "query");
      ArgAgrees(I, al, node, s, t, bad, 2, "key");
      ArgAgrees(I, al, node, s, t, bad, 3, "head_size");
      ArgAgrees(I, al, node, s, t, bad, 4, "cos_sin_cache");
      ArgAgrees(I, al, node, s, t, bad, 5, "is_neox");
      RotatedAgrees(I, s, t, ValOf(I, al, s, ArgOf(node, 0, "positions")), RefOf(al, q.value.n), RefOf(al, k.value.n),
                    ValOf(I, al, s, ArgOf(node, 3, "head_size")), ValOf(I, al, s, ArgOf(node, 4, "cos_sin_cache")),
                    ValOf(I, al, s, ArgOf(node, 5, "is_neox")), bad);
    }
  }

  lemma InsertAgrees(I: Interp, al: Aliases, node: Node, s: State, t: State, bad: set<Id>)
    requires Agree(s, t, bad) && Avoids(al, node, bad)
    ensures Agree(ExecInsert(I, al, node, s), ExecInsert(I, al, node, t), bad)
  {
    ArgAgrees(I, al, node, s, t, bad, 0, "key");
    ArgAgrees(I, al, node, s, t, bad, 1, "value");
    ArgAgrees(I, al, node, s, t, bad, 2, "layer_name");
  }

  lemma NormAgrees(I: Interp, al: Aliases, n: Id, node: Node, s: State, t: State, bad: set<Id>)
    requires Agree(s, t, bad) && Avoids(al, node, bad)
    ensures Agree(ExecNorm(I, al, n, node, s), ExecNorm(I, al, n, node, t), bad)
  {
    ArgAgrees(I, al, node, s, t, bad, 0, "input");
    ArgAgrees(I, al, node, s, t, bad, 1, "normalized_shape");
    ArgAgrees(I, al, node, s, t, bad, 2, "weight");
    ArgAgrees(I, al, node, s, t, bad, 3, "eps");
  }

  lemma AttendAgrees(I: Interp, al: Aliases, n: Id, node: Node, s: State, t: State, bad: set<Id>)
    requires Agree(s, t, bad) && Avoids(al, node, bad)
    ensures Agree(Attend(I, al, n, node, s), Attend(I, al, n, node, t), bad)
  {
    ValsSame(I, al, node, s, t);
    ArgAgrees(I, al, node, s, t, bad, 3, "output");
    ArgAgrees(I, al, node, s, t, bad, 4, "layer_name");
  }

  lemma OtherAgrees(I: Interp, al: Aliases, n: Id, node: Node, s: State, t: State, bad: set<Id>)
    requires Agree(s, t, bad) && Avoids(al, node, bad)
    ensures Agree(ExecOther(I, al, n, node, s), ExecOther(I, al, n, node, t), bad)
  {
    ValsSame(I, al, node, s, t);
  }

  lemma Fused2Agrees(I: Interp, al: Aliases, node: Node, s: State, t: State, bad: set<Id>)
    requires Agree(s, t, bad) && Avoids(al, node, bad)
    ensures Agree(ExecFused2(I, al, node, s), ExecFused2(I, al, node, t), bad)
  {
    var (q, k) := (Kw(node, "query"), Kw(node, "key"));
    if TwoNodes(q, k) {
      ArgAgrees(I, al, node, s, t, bad, 0, "query");
      ArgAgrees(I, al, node, s, t, bad, 0, "key");
      ArgAgrees(I, al, node, s, t, bad, 0, "positions");
      ArgAgrees(I, al, node, s, t, bad, 0, "cos_sin_cache");
      ArgAgrees(I, al, node, s, t, bad, 0, "is_neox");
      var (pos, cos, neox) := (ValOf(I, al, s, Kw(node, "positions")), ValOf(I, al, s, Kw(node, "cos_sin_cache")),
                               ValOf(I, al, s, Kw(node, "is_neox")));
      RotatedAgrees(I, s, t, pos, RefOf(al, q.value.n), RefOf(al, k.value.n), HEAD_64, cos, neox, bad);
      var s' := Rotated(I, s, pos, RefOf(al, q.value.n), RefOf(al, k.value.n), HEAD_64, cos, neox);
      var t' := Rotated(I, t, pos, RefOf(al, q.value.n), RefOf(al, k.value.n), HEAD_64, cos, neox);
      ArgAgrees(I, al, node, s', t', bad, 0, "layer_name");
      ArgAgrees(I, al, node, s', t', bad, 0, "key");
      ArgAgrees(I, al, node, s', t', bad, 0, "value");
    }
  }

  lemma Fused3Agrees(I: Interp, al: Aliases, node: Node, s: State, t: State, bad: set<Id>)
    requires Agree(s, t, bad) && Avoids(al, node, bad)
    ensures Agree(ExecFused3(I, al, node, s), ExecFused3(I, al, node, t), bad)
  {
    var (q, k) := (Kw(node, "q_out"), Kw(node, "k_out"));
    if TwoNodes(q, k) && DenseQwen3(node) {
      ArgAgrees(I, al, node, s, t, bad, 0, "q_out");
      ArgAgrees(I, al, node, s, t, bad, 0, "k_out");
      ArgAgrees(I, al, node, s, t, bad, 0, "q");
      ArgAgrees(I, al, node, s, t, bad, 0, "k");
      ArgAgrees(I, al, node, s, t, bad, 0, "q_weight");
      ArgAgrees(I, al, node, s, t, bad, 0, "k_weight");
      ArgAgrees(I, al, node, s, t, bad, 0, "positions");
      ArgAgrees(I, al, node, s, t, bad, 0, "cos_sin_cache");
      var out := NormRope(I, ValOf(I, al, s, Kw(node, "q")), ValOf(I, al, s, Kw(node, "q_weight")),
                          ValOf(I, al, s, Kw(node, "k")), ValOf(I, al, s, Kw(node, "k_weight")),
                          ValOf(I, al, s, Kw(node, "positions")), ValOf(I, al, s, Kw(node, "cos_sin_cache")));
      var (s1, t1) := (Written(I, s, RefOf(al, q.value.n), out.0), Written(I, t, RefOf(al, q.value.n), out.0));
      WrittenAgrees(I, s1, t1, RefOf(al, k.value.n), out.1, bad);
      var (s', t') := (Written(I, s1, RefOf(al, k.value.n), out.1), Written(I, t1, RefOf(al, k.value.n), out.1));
      ArgAgrees(I, al, node, s', t', bad, 0, "layer_name");
      ArgAgrees(I, al, node, s', t', bad, 0, "k_out");
      ArgAgrees(I, al, node, s', t', bad, 0, "v");
    }
  }

  lemma TouchedAvoids(al: Aliases, n: Id, node: Node, bad: set<Id>)
    requires !Inert(node) && Touched(al, n, node) !! bad
    ensures Avoids(al, Visible(node), bad) && n !in bad
  {
    forall m | m in Refs(Visible(node))
      ensures RootOf(al, m) !in bad
    {
      assert RootOf(al, m) in Touched(al, n, node);
    }
    assert n in Touched(al, n, node);
  }

  /** A node that touches none of `bad` keeps two states equal outside `bad`. */
  lemma ExecAgrees(I: Interp, al: Aliases, n: Id, node: Node, s: State, t: State, bad: set<Id>)
    requires Agree(s, t, bad) && Touched(al, n, node) !! bad
    ensures Agree(Exec(I, al, n, node, s), Exec(I, al, n, node, t), bad)
  {
    hide Agree, Avoids, ExecRope, ExecInsert, Attend, ExecNorm, ExecFused2, ExecFused3, ExecOther, Touched;
    if !Inert(node) {
      TouchedAvoids(al, n, node, bad);
      match node.target
      case Rope => RopeAgrees(I, al, node, s, t, bad);
      case KvUpdate => InsertAgrees(I, al, node, s, t, bad);
      case Attention => AttendAgrees(I, al, n, Visible(node), s, t, bad);
      case AtenRmsNorm => NormAgrees(I, al, n, node, s, t, bad);
      case FusedQwen2 => Fused2Agrees(I, al, node, s, t, bad);
      case FusedQwen3 => Fused3Agrees(I, al, node, s, t, bad);
      case _ => OtherAgrees(I, al, n, node, s, t, bad);
    }
  }

  lemma MutatedSeen(al: Aliases, node: Node, r: Id) returns (m: Id)
    requires r in Mutated(al, node)
    ensures m in Refs(node) && RootOf(al, m) == r
  {
    if i :| 0 <= i < |node.args| && i in node.target.writes && node.args[i].NodeArg? && RefOf(al, node.args[i].n).root == r {
      m := node.args[i].n;
    } else {
      var k :| k in node.kwargs && k in node.target.named && node.kwargs[k].NodeArg? && RefOf(al, node.kwargs[k].n).root == r;
      m := node.kwargs[k].n;
    }
  }

  /** What a node writes, it touches. */
  lemma WritesTouched(al: Aliases, n: Id, node: Node, r: Id)
    requires r in Writes(al, n, node)
    ensures r in Touched(al, n, node)
  {
    ArgSees(node, 1, "query");
    ArgSees(node, 2, "key");
    ArgSees(node, 0, "key");
    ArgSees(Visible(node), 3, "output");
    ArgSees(node, 0, "q_out");
    ArgSees(node, 0, "k_out");
    if r in Mutated(al, node) {
      var m := MutatedSeen(al, node, r);
    }
  }

  // ----- two labellings that agree on a node's arguments give it one meaning -----

  ghost predicate SameRefs(a: Aliases, b: Aliases, node: Node) {
    forall m | m in Refs(node) :: RefOf(a, m) == RefOf(b, m)
  }

  lemma ValsAliased(I: Interp, a: Aliases, b: Aliases, node: Node, s: State)
    requires SameRefs(a, b, node)
    ensures Vals(I, a, s, node.args) == Vals(I, b, s, node.args)
    ensures NamedVals(I, a, s, node.kwargs) == NamedVals(I, b, s, node.kwargs)
  {
    forall i | 0 <= i < |node.args|
      ensures ArgVal(I, a, s, node.args[i]) == ArgVal(I, b, s, node.args[i])
    {
      if node.args[i].NodeArg? { assert node.args[i].n in Refs(node); }
    }
    forall k | k in node.kwargs
      ensures ArgVal(I, a, s, node.kwargs[k]) == ArgVal(I, b, s, node.kwargs[k])
    {
      if node.kwargs[k].NodeArg? { assert node.kwargs[k].n in Refs(node); }
    }
  }

  lemma ArgAliased(I: Interp, a: Aliases, b: Aliases, node: Node, s: State, i: nat, name: string)
    requires SameRefs(a, b, node)
    ensures ValOf(I, a, s, ArgOf(node, i, name)) == ValOf(I, b, s, ArgOf(node, i, name))
    ensures ValOf(I, a, s, Kw(node, name)) == ValOf(I, b, s, Kw(node, name))
    ensures var x := ArgOf(node, i, name); x.Some? && x.value.NodeArg? ==> RefOf(a, x.value.n) == RefOf(b, x.value.n)
    ensures var x := Kw(node, name); x.Some? && x.value.NodeArg? ==> RefOf(a, x.value.n) == RefOf(b, x.value.n)
  {
    ArgSees(node, i, name);
  }

  lemma MutatedAliased(a: Aliases, b: Aliases, node: Node)
    requires SameRefs(a, b, node)
    ensures Mutated(a, node) == Mutated(b, node)
  {
    forall r
      ensures r in Mutated(a, node) <==> r in Mutated(b, node)
    {
      MutatedOneWay(a, b, node, r);
      MutatedOneWay(b, a, node, r);
    }
    assert Mutated(a, node) == Mutated(b, node);
  }

  lemma MutatedOneWay(a: Aliases, b: Aliases, node: Node, r: Id)
    requires SameRefs(a, b, node)
    ensures r in Mutated(a, node) ==> r in Mutated(b, node)
  {
    forall i | 0 <= i < |node.args| && node.args[i].NodeArg?
      ensures RefOf(a, node.args[i].n) == RefOf(b, node.args[i].n)
    {
      assert node.args[i].n in Refs(node);
    }
    forall k | k in node.kwargs && node.kwargs[k].NodeArg?
      ensures RefOf(a, node.kwargs[k].n) == RefOf(b, node.kwargs[k].n)
    {
      assert node.kwargs[k].n in Refs(node);
    }
  }

  lemma OtherAliased(I: Interp, a: Aliases, b: Aliases, n: Id, node: Node, s: State)
    requires SameRefs(a, b, node)
    ensures ExecOther(I, a, n, node, s) == ExecOther(I, b, n, node, s)
  {
    ValsAliased(I, a, b, node, s);
    MutatedAliased(a, b, node);
  }

  lemma AttendAliased(I: Interp, a: Aliases, b: Aliases, n: Id, node: Node, s: State)
    requires SameRefs(a, b, node)
    ensures Attend(I, a, n, node, s) == Attend(I, b, n, node, s)
  {
    ValsAliased(I, a, b, node, s);
    ArgAliased(I, a, b, node, s, 3, "output");
    ArgAliased(I, a, b, node, s, 4, "layer_name");
  }

  lemma CallAliased(I: Interp, a: Aliases, b: Aliases, n: Id, node: Node, s: State)
    requires SameRefs(a, b, node)
    ensures ExecRope(I, a, node, s) == ExecRope(I, b, node, s)
    ensures ExecInsert(I, a, node, s) == ExecInsert(I, b, node, s)
    ensures ExecNorm(I, a, n, node, s) == ExecNorm(I, b, n, node, s)
  {
    ArgAliased(I, a, b, node, s, 0, "positions");
    ArgAliased(I, a, b, node, s, 1, "query");
    ArgAliased(I, a, b, node, s, 2, "key");
    ArgAliased(I, a, b, node, s, 3, "head_size");
    ArgAliased(I, a, b, node, s, 4, "cos_sin_cache");
    ArgAliased(I, a, b, node, s, 5, "is_neox");
    ArgAliased(I, a, b, node, s, 0, "key");
    ArgAliased(I, a, b, node, s, 1, "value");
    ArgAliased(I, a, b, node, s, 2, "layer_name");
    ArgAliased(I, a, b, node, s, 0, "input");
    ArgAliased(I, a, b, node, s, 1, "normalized_shape");
    ArgAliased(I, a, b, node, s, 2, "weight");
    ArgAliased(I, a, b, node, s, 3, "eps");
  }

  lemma FusedAliased(I: Interp, a: Aliases, b: Aliases, node: Node, s: State)
    requires SameRefs(a, b, node)
    ensures ExecFused2(I, a, node, s) == ExecFused2(I, b, node, s)
    ensures ExecFused3(I, a, node, s) == ExecFused3(I, b, node, s)
  {
    forall name, s'
      ensures ValOf(I, a, s', Kw(node, name)) == ValOf(I, b, s', Kw(node, name))
      ensures var x := Kw(node, name); x.Some? && x.value.NodeArg? ==> RefOf(a, x.value.n) == RefOf(b, x.value.n)
    {
      ArgAliased(I, a, b, node, s', 0, name);
    }
  }

  lemma VisibleRefs(node: Node)
    ensures Refs(Visible(node)) <= Refs(node)
  {
    var v := Visible(node);
    forall m | m in Refs(v)
      ensures m in Refs(node)
    {
      if i :| 0 <= i < |v.args| && v.args[i] == NodeArg(m) {
        assert node.args[i] == NodeArg(m);
      } else {
        var k :| k in v.kwargs && v.kwargs[k] == NodeArg(m);
        assert node.kwargs[k] == NodeArg(m);
      }
    }
  }

  lemma ExecAliased(I: Interp, a: Aliases, b: Aliases, n: Id, node: Node, s: State)
    requires SameRefs(a, b, node)
    ensures Exec(I, a, n, node, s) == Exec(I, b, n, node, s)
  {
    hide ExecRope, ExecInsert, Attend, ExecNorm, ExecFused2, ExecFused3, ExecOther;
    VisibleRefs(node);
    CallAliased(I, a, b, n, node, s);
    FusedAliased(I, a, b, node, s);
    AttendAliased(I, a, b, n, Visible(node), s);
    OtherAliased(I, a, b, n, node, s);
  }

  lemma {:induction false} ExecAllAliased(I: Interp, a: Aliases, b: Aliases, order: seq<Id>, defs: map<Id, Node>, s: State)
    requires Elems(order) <= defs.Keys
    requires forall n | n in Elems(order) :: SameRefs(a, b, defs[n])
    ensures ExecAll(I, a, order, defs, s) == ExecAll(I, b, order, defs, s)
  {
    if order != [] {
      ExecAliased(I, a, b, order[0], defs[order[0]], s);
      ExecAllAliased(I, a, b, order[1..], defs, Exec(I, a, order[0], defs[order[0]], s));
    }
  }

  /** Any labelling of a lint-clean graph gives its run. */
  lemma ExecuteLabelled(I: Interp, g: Graph, al: Aliases, s: State)
    requires g.Valid() && LintClean(g) && Labels(g, al)
    ensures Execute(I, g, s) == ExecAll(I, al, g.order, g.defs, s)
  {
    AliasesLabel(g);
    forall n | n in Elems(g.order)
      ensures SameRefs(AliasesOf(g), al, g.defs[n])
    {
      forall m | m in Refs(g.defs[n])
        ensures RefOf(AliasesOf(g), m) == RefOf(al, m)
      {
        LabelsUnique(g, AliasesOf(g), al, m);
      }
    }
    ExecAllAliased(I, AliasesOf(g), al, g.order, g.defs, s);
  }
}
