/** Meaning of a graph whose operators are pure: the tensor operators stay uninterpreted. */
module PureEval {
  import opened Options
  import opened FxGraph

  type Tensor(!new)

  datatype Value = TensorV(t: Tensor) | TupleV(vs: seq<Value>) | ArgV(a: Arg) | Undefined

  /** `other` gives every operator the pass does not look into; it may depend on the node,
      so that placeholders are arbitrary inputs. */
  datatype Interp = Interp(
    allReduce: (Value, Value) -> Value,
    add: (Value, Value) -> Value,
    rms: (Value, Value, Value, Value) -> Value,
    other: (Id, Target, seq<Value>, map<string, Value>) -> Value)

  type Valuation = map<Id, Value>

  function ArgValue(a: Arg, v: Valuation): Value {
    if a.NodeArg? then (if a.n in v then v[a.n] else Undefined) else ArgV(a)
  }

  function ArgValues(args: seq<Arg>, v: Valuation): seq<Value> {
    seq(|args|, i requires 0 <= i < |args| => ArgValue(args[i], v))
  }

  function KwargValues(kwargs: map<string, Arg>, v: Valuation): map<string, Value> {
    map k | k in kwargs :: ArgValue(kwargs[k], v)
  }

  /** Positional argument `i` or else the keyword `name` or else `None`. */
  function GetValue(args: seq<Value>, i: nat, kwargs: map<string, Value>, name: string): Value {
    if |args| > i then args[i]
    else if name in kwargs then kwargs[name]
    else ArgV(NoneArg)
  }

  function EpsValue(args: seq<Value>, kwargs: map<string, Value>): Value {
    if |args| > 2 then args[2]
    else if "epsilon" in kwargs then kwargs["epsilon"]
    else GetValue(args, 2, kwargs, "eps")
  }

  const UNIT_ALPHA: set<Arg> := {IntArg(1), RealArg(1.0), BoolArg(true)}

  predicate UnitAlpha(kwargs: map<string, Value>) {
    && kwargs.Keys <= {"alpha"}
    && ("alpha" in kwargs ==> kwargs["alpha"].ArgV? && kwargs["alpha"].a in UNIT_ALPHA)
  }

  function NormOutputs(I: Interp, sum: Value, weight: Value, eps: Value, variance: Value): seq<Value> {
    [I.rms(sum, weight, eps, variance), sum]
  }

  /** The value of one call. */
  function EvalCall(I: Interp, n: Id, target: Target, args: seq<Value>, kwargs: map<string, Value>): Value {
    match target
    case AllReduce =>
      if |args| >= 1 then I.allReduce(GetValue(args, 1, kwargs, "comm_id"), args[0])
      else I.other(n, target, args, kwargs)
    case AddTensor =>
      if |args| == 2 && UnitAlpha(kwargs) then I.add(args[0], args[1])
      else I.other(n, target, args, kwargs)
    case RmsNormIr =>
      if |args| >= 1
      then I.rms(args[0], GetValue(args, 1, kwargs, "weight"), EpsValue(args, kwargs),
                 GetValue(args, 3, kwargs, "variance_size"))
      else I.other(n, target, args, kwargs)
    case FusedAddRmsNorm =>
      if |args| >= 4
      then TupleV(NormOutputs(I, I.add(args[0], args[1]), args[2], args[3],
                              GetValue(args, 4, kwargs, "variance_size")))
      else I.other(n, target, args, kwargs)
    case FusedAllReduceNorm(raw) =>
      if |args| == 5
      then
        var reduced := I.allReduce(args[4], args[0]);
        var out := NormOutputs(I, I.add(reduced, args[1]), args[2], args[3], ArgV(NoneArg));
        TupleV(if raw then out + [reduced] else out)
      else I.other(n, target, args, kwargs)
    case GetItem =>
      if |args| >= 2 && args[0].TupleV? && args[1].ArgV? && args[1].a.IntArg?
         && 0 <= args[1].a.i < |args[0].vs|
      then args[0].vs[args[1].a.i]
      else I.other(n, target, args, kwargs)
    case _ => I.other(n, target, args, kwargs)
  }

  function EvalNode(I: Interp, n: Id, node: Node, v: Valuation): Value {
    EvalCall(I, n, node.target, ArgValues(node.args, v), KwargValues(node.kwargs, v))
  }

  /** The evaluator: nodes run in list order. */
  function Run(I: Interp, order: seq<Id>, defs: map<Id, Node>, env: Valuation): Valuation
    requires Elems(order) <= defs.Keys
  {
    if order == [] then env
    else Run(I, order[1..], defs, env[order[0] := EvalNode(I, order[0], defs[order[0]], env)])
  }

  function Outcome(I: Interp, g: Graph): Valuation
    requires Elems(g.order) <= g.defs.Keys
  {
    Run(I, g.order, g.defs, map[])
  }

  /** A valuation that solves every node's equation, whatever the list order. */
  ghost predicate Solves(I: Interp, g: Graph, v: Valuation) {
    && (forall n | n in g.defs :: n in v && v[n] == EvalNode(I, n, g.defs[n], v))
    && (forall n | n in v :: n < g.next)
  }

  lemma EvalLocal(I: Interp, n: Id, node: Node, v: Valuation, w: Valuation)
    requires forall r | r in Refs(node) :: r in v && r in w && v[r] == w[r]
    ensures EvalNode(I, n, node, v) == EvalNode(I, n, node, w)
  {
    EvalRenamed(I, n, node, map[], v, w);
    RenameNothing(node, map[]);
  }

  /** Renaming arguments to nodes of equal value leaves a node's value alone. */
  lemma EvalRenamed(I: Interp, n: Id, node: Node, sub: map<Id, Id>, v: Valuation, w: Valuation)
    requires forall r | r in Refs(node) ::
               var s := if r in sub then sub[r] else r;
               r in v && s in w && v[r] == w[s]
    ensures EvalNode(I, n, node, v) == EvalNode(I, n, Rename(node, sub), w)
  {
    var out := Rename(node, sub);
    forall i | 0 <= i < |node.args|
      ensures ArgValue(node.args[i], v) == ArgValue(out.args[i], w)
    {
      if node.args[i].NodeArg? { assert node.args[i].n in Refs(node); }
    }
    forall k | k in node.kwargs
      ensures ArgValue(node.kwargs[k], v) == ArgValue(out.kwargs[k], w)
    {
      if node.kwargs[k].NodeArg? { assert node.kwargs[k].n in Refs(node); }
    }
    assert ArgValues(node.args, v) == ArgValues(out.args, w);
    assert KwargValues(node.kwargs, v) == KwargValues(out.kwargs, w);
  }

  /** Every computed value is final: it depends on computed values only. */
  ghost predicate Settled(I: Interp, defs: map<Id, Node>, env: Valuation) {
    forall n | n in env ::
      n in defs && Refs(defs[n]) <= env.Keys && env[n] == EvalNode(I, n, defs[n], env)
  }

  lemma SettledStep(I: Interp, defs: map<Id, Node>, env: Valuation, n: Id)
    requires Settled(I, defs, env) && n in defs && n !in env && Refs(defs[n]) <= env.Keys
    ensures Settled(I, defs, env[n := EvalNode(I, n, defs[n], env)])
  {
    var env' := env[n := EvalNode(I, n, defs[n], env)];
    forall m | m in env'
      ensures Refs(defs[m]) <= env'.Keys && env'[m] == EvalNode(I, m, defs[m], env')
    {
      EvalLocal(I, m, defs[m], env, env');
    }
  }

  /** On a lint-clean graph the evaluator finds the one solution. */
  lemma {:induction false} RunSettles(I: Interp, defs: map<Id, Node>, todo: seq<Id>, env: Valuation)
    requires NoDup(todo) && Elems(todo) <= defs.Keys && Elems(todo) !! env.Keys
    requires DefBeforeUse(todo, defs, env.Keys) && Settled(I, defs, env)
    ensures Settled(I, defs, Run(I, todo, defs, env))
    ensures Run(I, todo, defs, env).Keys == env.Keys + Elems(todo)
    decreases |todo|
  {
    if todo != [] {
      var n := todo[0];
      var env' := env[n := EvalNode(I, n, defs[n], env)];
      SettledStep(I, defs, env, n);
      assert env'.Keys == env.Keys + {n};
      RunSettles(I, defs, todo[1..], env');
    }
  }

  lemma {:induction false} RunUnique(I: Interp, g: Graph, done: set<Id>, todo: seq<Id>, env: Valuation, v: Valuation)
    requires g.Valid() && Elems(todo) <= g.defs.Keys
    requires DefBeforeUse(todo, g.defs, done) && env.Keys == done
    requires Solves(I, g, v) && forall n | n in done :: n in v && env[n] == v[n]
    ensures forall n | n in done + Elems(todo) ::
              n in Run(I, todo, g.defs, env) && n in v && Run(I, todo, g.defs, env)[n] == v[n]
    decreases |todo|
  {
    if todo != [] {
      var n := todo[0];
      EvalLocal(I, n, g.defs[n], env, v);
      RunUnique(I, g, done + {n}, todo[1..], env[n := EvalNode(I, n, g.defs[n], env)], v);
    }
  }

  lemma OutcomeSolves(I: Interp, g: Graph)
    requires g.Valid() && LintClean(g)
    ensures Solves(I, g, Outcome(I, g))
  {
    var start: Valuation := map[];
    assert start.Keys == {};
    RunSettles(I, g.defs, g.order, start);
  }

  lemma OutcomeUnique(I: Interp, g: Graph, v: Valuation)
    requires g.Valid() && LintClean(g) && Solves(I, g, v)
    ensures forall n | n in g.defs :: n in Outcome(I, g) && Outcome(I, g)[n] == v[n]
  {
    RunUnique(I, g, {}, g.order, map[], v);
  }

  // ----- solutions survive each kind of edit, in any order of the list -----

  lemma InsertedSolves(I: Interp, g: Graph, at: Id, node: Node, v: Valuation)
    requires g.Valid() && Solves(I, g, v) && Refs(node) <= g.defs.Keys
    ensures Solves(I, g.Inserted(at, node), v[g.New() := EvalNode(I, g.New(), node, v)])
  {
    var w := v[g.New() := EvalNode(I, g.New(), node, v)];
    forall n | n in g.defs
      ensures EvalNode(I, n, g.defs[n], w) == EvalNode(I, n, g.defs[n], v)
    {
      EvalLocal(I, n, g.defs[n], v, w);
    }
    EvalLocal(I, g.New(), node, v, w);
  }

  function ItemOf(parent: Id, i: nat, meta: Option<TensorMeta>): Node {
    Node(GetItem, [NodeArg(parent), IntArg(i)], map[], meta)
  }

  lemma ItemOfRefs(parent: Id, i: nat, meta: Option<TensorMeta>)
    ensures Refs(ItemOf(parent, i, meta)) == {parent}
  {
    var node := ItemOf(parent, i, meta);
    assert node.args[0] == NodeArg(parent) && node.args[1] == IntArg(i);
  }

  lemma ItemOfSolves(I: Interp, g: Graph, at: Id, parent: Id, i: nat, meta: Option<TensorMeta>, v: Valuation)
    requires g.Valid() && Solves(I, g, v) && parent in g.defs
    requires v[parent].TupleV? && i < |v[parent].vs|
    ensures Solves(I, g.Inserted(at, ItemOf(parent, i, meta)), v[g.New() := v[parent].vs[i]])
  {
    var node := ItemOf(parent, i, meta);
    ItemOfRefs(parent, i, meta);
    InsertedSolves(I, g, at, node, v);
    var vals := ArgValues(node.args, v);
    assert vals[0] == v[parent] && vals[1] == ArgV(IntArg(i));
  }

  lemma RenamedSolves(I: Interp, g: Graph, ms: set<Id>, sub: map<Id, Id>, v: Valuation)
    requires g.Valid() && Solves(I, g, v)
    requires forall a | a in sub :: sub[a] in v && (a in v ==> v[a] == v[sub[a]])
    ensures Solves(I, g.Renamed(ms, sub), v)
  {
    forall n | n in g.defs
      ensures EvalNode(I, n, Rename(g.defs[n], sub), v) == EvalNode(I, n, g.defs[n], v)
    {
      EvalRenamed(I, n, g.defs[n], sub, v, v);
    }
  }

  lemma ErasedSolves(I: Interp, g: Graph, ns: set<Id>, v: Valuation)
    requires Solves(I, g, v)
    ensures Solves(I, g.Erased(ns), v)
  {
  }
}
