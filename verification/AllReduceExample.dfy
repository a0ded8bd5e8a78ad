/** Two layers of a decoder as the fusion pass meets them: both all-reduces are fused. */
module AllReduceExample {
  import opened Options
  import opened FxGraph
  import opened PureEval
  import opened AllReduceFusion
  import opened AllReduceRewrite
  import opened AllReduceChain
  import opened Numbered

  function Tensor(shape: seq<int>, dtype: Dtype): Option<TensorMeta> {
    Some(TensorMeta(true, Device("musa", 0), shape, dtype, true))
  }

  /** The hidden size, any number of tokens. */
  const CONFIG := Config(IntArg(7), 4096)

  function Rows(tokens: int): Option<TensorMeta> {
    Tensor([tokens, 4096], BFloat16)
  }

  /** Input, residual and the norms' weights; then all-reduce, add and norm of the first layer, the
      layer in between, the same three of the second, and the output. */
  function NodeAt(tokens: int, n: Id): Node {
    if n < 2 then Node(Placeholder, [], map[], Rows(tokens))
    else if n < 4 then Node(Placeholder, [], map[], Tensor([4096], BFloat16))
    else if n == 4 then Node(AllReduce, [NodeArg(0), IntArg(7)], map[], Rows(tokens))
    else if n == 5 then Node(AddTensor, [NodeArg(4), NodeArg(1)], map[], Rows(tokens))
    else if n == 6 then Node(RmsNormIr, [NodeArg(5), NodeArg(2), RealArg(0.000001)], map[], Rows(tokens))
    else if n == 7 then Node(Other("mlp", {}, {}), [NodeArg(6)], map[], Rows(tokens))
    else if n == 8 then Node(AllReduce, [NodeArg(7), IntArg(7)], map[], Rows(tokens))
    else if n == 9 then Node(AddTensor, [NodeArg(8), NodeArg(5)], map[], Rows(tokens))
    else if n == 10 then Node(RmsNormIr, [NodeArg(9), NodeArg(3), RealArg(0.000001)], map[], Rows(tokens))
    else Node(Output, [NodeArg(10), NodeArg(9)], map[], None)
  }

  function Nodes(tokens: int): seq<Node> {
    seq(12, n requires 0 <= n < 12 => NodeAt(tokens, n))
  }

  function Inputs(n: Id): set<Id> {
    if n == 4 then {0} else if n == 5 then {4, 1} else if n == 6 then {5, 2} else if n == 7 then {6}
    else if n == 8 then {7} else if n == 9 then {8, 5} else if n == 10 then {9, 3} else if n == 11 then {10, 9} else {}
  }

  lemma InputsAre(tokens: int, n: nat, r: Id)
    requires n < 12
    ensures r in Refs(NodeAt(tokens, n)) <==> r in Inputs(n)
  {
    var args := NodeAt(tokens, n).args;
    assert r in Refs(NodeAt(tokens, n)) <==> exists i :: 0 <= i < |args| && args[i] == NodeArg(r);
    if r in Inputs(n) { assert args[0] == NodeArg(r) || args[1] == NodeArg(r); }
  }

  function Layers(tokens: int): Graph {
    Listed(Nodes(tokens))
  }

  lemma At(tokens: int, n: Id)
    ensures n in Layers(tokens).defs <==> 0 <= n < 12
    ensures 0 <= n < 12 ==> Layers(tokens).defs[n] == NodeAt(tokens, n)
  {
  }

  lemma LayersValid(tokens: int)
    ensures Layers(tokens).Valid()
  {
    forall i: nat, r | i < 12 && r in Refs(Nodes(tokens)[i])
      ensures 0 <= r < i
    {
      assert Nodes(tokens)[i] == NodeAt(tokens, i);
      InputsAre(tokens, i, r);
    }
    ListedIsClean(Nodes(tokens));
  }

  lemma Uses(tokens: int, n: Id, m: Id)
    ensures m in Layers(tokens).Users(n) <==> 0 <= m < 12 && n in Inputs(m)
  {
    hide Layers, Inputs, NodeAt;
    At(tokens, m);
    UsedBy(Layers(tokens), n, m);
    if 0 <= m < 12 { InputsAre(tokens, m, n); }
  }

  lemma Admits(tokens: int, car: Id, x: Id, residual: Id, weight: Id)
    requires (car == 4 && x == 0 && residual == 1 && weight == 2) || (car == 8 && x == 7 && residual == 5 && weight == 3)
    ensures car in Layers(tokens).defs && Supported(CONFIG, Layers(tokens), car, NodeArg(residual), NodeArg(weight))
  {
    hide Layers;
    At(tokens, car);
    At(tokens, x);
    At(tokens, residual);
    At(tokens, weight);
  }

  lemma Norms(tokens: int, add: Id, rms: Id)
    requires add == 5 || add == 9
    ensures IsNormOf(Layers(tokens), add, rms) <==> rms == add + 1
  {
    hide Layers;
    Uses(tokens, add, rms);
    At(tokens, rms);
  }

  lemma Layer(tokens: int, car: Id, x: Id, residual: Id, weight: Id)
    requires (car == 4 && x == 0 && residual == 1 && weight == 2) || (car == 8 && x == 7 && residual == 5 && weight == 3)
    ensures Fusable(CONFIG, Layers(tokens), car) && UsersTyped(Layers(tokens), car)
  {
    hide Layers, Supported, IsNormOf, AddSite, FusedAddSite;
    var g := Layers(tokens);
    At(tokens, car);
    At(tokens, car + 1);
    At(tokens, car + 2);
    Admits(tokens, car, x, residual, weight);
    forall m ensures m in g.Users(car) <==> m == car + 1 { Uses(tokens, car, m); }
    var add := car + 1;
    forall rms ensures IsNormOf(g, add, rms) <==> rms == car + 2 { Norms(tokens, add, rms); }
    AddSiteIs(CONFIG, g, car, car + 1, car + 2);
    assert AddSite(CONFIG, g, car, car + 1, car + 2) != None;
  }

  lemma Joins(tokens: int)
    ensures Apart(Layers(tokens), {4, 8})
  {
    hide Layers;
    var g := Layers(tokens);
    forall m ensures !(m in g.Users(4) && m in g.Users(8)) {
      Uses(tokens, 4, m);
      Uses(tokens, 8, m);
    }
  }

  lemma Targets(tokens: int, n: Id)
    ensures IsCandidate(CONFIG, Layers(tokens), n) <==> n == 4 || n == 8
  {
    hide Layers;
    At(tokens, n);
  }

  lemma {:induction false} RangeAt(lo: int, hi: int, i: nat)
    requires lo <= hi
    ensures |Range(lo, hi)| == hi - lo && (i < hi - lo ==> Range(lo, hi)[i] == lo + i)
    decreases hi - lo
  {
    if lo < hi {
      if i > 0 { RangeAt(lo + 1, hi, i - 1); } else { RangeAt(lo + 1, hi, 0); }
    }
  }

  lemma OrderIs(tokens: int, i: nat)
    requires i < 12
    ensures |Layers(tokens).order| == 12 && Layers(tokens).order[i] == i
  {
    RangeAt(0, 12, i);
  }

  lemma {:induction false} CountIs(tokens: int, k: nat)
    requires k <= 12
    ensures |Layers(tokens).order| == 12
    ensures Count(CONFIG, Layers(tokens), Layers(tokens).order, k) == if k <= 4 then 0 else if k <= 8 then 1 else 2
  {
    hide Layers, IsCandidate;
    OrderIs(tokens, 0);
    if k > 0 {
      CountIs(tokens, k - 1);
      OrderIs(tokens, k - 1);
      Targets(tokens, k - 1);
    }
  }

  /** For any number of tokens the pass fuses both all-reduces. */
  lemma BothFused(tokens: int, trace: seq<Graph>)
    requires IsRun(CONFIG, Layers(tokens).order, trace) && trace[0] == Layers(tokens)
    ensures Grown(trace, 3) + Grown(trace, 4) == 2
  {
    hide Layers, Fusable, UsersTyped, IsCandidate, Visited, Graph.Valid;
    var (g, order) := (Layers(tokens), Layers(tokens).order);
    LayersValid(tokens);
    CountIs(tokens, 12);
    forall i: nat | i < 12 ensures order[i] == i { OrderIs(tokens, i); }
    forall c | c in Todo(CONFIG, g, order, 0)
      ensures (c == 4 || c == 8) && Fusable(CONFIG, g, c) && UsersTyped(g, c)
    {
      Targets(tokens, c);
      if c == 4 { Layer(tokens, 4, 0, 1, 2); } else { Layer(tokens, 8, 7, 5, 3); }
    }
    Joins(tokens);
    FewerApart(g, {4, 8}, Todo(CONFIG, g, order, 0));
    ChainFused(CONFIG, order, trace);
  }

  lemma FewerApart(g: Graph, todo: set<Id>, some: set<Id>)
    requires Apart(g, todo) && forall c | c in some :: c in todo
    ensures Apart(g, some)
  {
  }
}
