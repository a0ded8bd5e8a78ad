/** The all-reduce + add + RMSNorm rewrite: an all-reduce whose sum feeds an RMSNorm becomes
    one fused operator with two outputs, or three when the reduced value has another user. */
module AllReduceFusion {
  import opened Options
  import opened FxGraph
  import opened PureEval

  datatype Config = Config(commId: Arg, hiddenDim: int)

  // ----- matching -----

  function GetArg(node: Node, i: nat, name: string): Arg {
    if |node.args| > i then node.args[i]
    else if name in node.kwargs then node.kwargs[name]
    else NoneArg
  }

  function NormEps(node: Node): Arg {
    if |node.args| > 2 then node.args[2]
    else if "epsilon" in node.kwargs then node.kwargs["epsilon"]
    else GetArg(node, 2, "eps")
  }

  predicate IsTargetAllReduce(cfg: Config, node: Node) {
    node.target.AllReduce? && GetArg(node, 1, "comm_id") == cfg.commId && !cfg.commId.NodeArg?
  }

  /** An `aten.add.Tensor` with `alpha == 1`. */
  predicate IsAdd(node: Node) {
    && node.target.AddTensor?
    && |node.args| == 2
    && node.kwargs.Keys <= {"alpha"}
    && ("alpha" in node.kwargs ==> node.kwargs["alpha"] in UNIT_ALPHA)
  }

  function OtherAddArg(add: Node, car: Id): Arg {
    if |add.args| < 2 then NoneArg
    else if add.args[0] == NodeArg(car) then add.args[1]
    else if add.args[1] == NodeArg(car) then add.args[0]
    else NoneArg
  }

  function ItemIndex(node: Node, parent: Id): Option<int> {
    if node.target.GetItem? && |node.args| >= 2 && node.args[0] == NodeArg(parent)
       && node.args[1].IntArg?
    then Some(node.args[1].i)
    else None
  }

  function Meta(g: Graph, a: Arg): Option<TensorMeta> {
    if a.NodeArg? && a.n in g.defs then g.defs[a.n].meta else None
  }

  /** The fused operator's ABI, checked on the inputs' metadata. */
  predicate Supported(cfg: Config, g: Graph, car: Id, residual: Arg, weight: Arg)
    requires car in g.defs
  {
    && |g.defs[car].args| >= 1
    && var metas := (Meta(g, g.defs[car].args[0]), Meta(g, NodeArg(car)), Meta(g, residual), Meta(g, weight));
    && metas.0.Some? && metas.1.Some? && metas.2.Some? && metas.3.Some?
    && var (x, c, r, w) := (metas.0.value, metas.1.value, metas.2.value, metas.3.value);
    && x.fake && c.fake && r.fake && w.fake
    && x.device.kind == "musa" && c.device == x.device && r.device == x.device && w.device == x.device
    && |x.shape| == 2 && |c.shape| == 2 && |r.shape| == 2 && |w.shape| == 1
    && c.shape == x.shape && r.shape == x.shape
    && x.shape[1] == cfg.hiddenDim && 0 < x.shape[1] <= 16384 && x.shape[1] % 8 == 0
    && w.shape[0] == x.shape[1]
    && x.dtype in {Float16, BFloat16} && c.dtype == x.dtype && r.dtype == x.dtype
    && w.dtype in {x.dtype, Float32}
    && x.contiguous && c.contiguous && r.contiguous && w.contiguous
  }

  function MatrixMeta(index: int, tokens: int, hidden: int, dtype: Dtype): Option<TensorMeta> {
    Some(TensorMeta(true, Device("musa", index), [tokens, hidden], dtype, true))
  }

  function VectorMeta(index: int, hidden: int, dtype: Dtype): Option<TensorMeta> {
    Some(TensorMeta(true, Device("musa", index), [hidden], dtype, true))
  }

  lemma SupportedMetas(cfg: Config, g: Graph, car: Id, residual: Arg, weight: Arg)
    returns (index: int, tokens: int, dtype: Dtype, fine: Dtype)
    requires car in g.defs && Supported(cfg, g, car, residual, weight)
    ensures g.defs[car].meta == Meta(g, g.defs[car].args[0]) == Meta(g, residual) == MatrixMeta(index, tokens, cfg.hiddenDim, dtype)
    ensures Meta(g, weight) == VectorMeta(index, cfg.hiddenDim, fine)
    ensures dtype in {Float16, BFloat16} && fine in {dtype, Float32} && cfg.hiddenDim % 8 == 0 && 0 < cfg.hiddenDim <= 16384
  {
    var (x, w) := (Meta(g, g.defs[car].args[0]).value, Meta(g, weight).value);
    index, tokens, dtype, fine := x.device.index, x.shape[0], x.dtype, w.dtype;
    assert x.shape == [tokens, cfg.hiddenDim] && w.shape == [cfg.hiddenDim];
    assert x.device == Device("musa", index);
  }

  /** What the ABI admits: input, all-reduce and residual are one and the same kind of contiguous fake
      half-precision matrix on one MUSA device, whose width is the configured one, a multiple of 8 up to
      16384; the weight is a vector of that width there, in the same precision or binary32. */
  lemma SupportedIff(cfg: Config, g: Graph, car: Id, residual: Arg, weight: Arg)
    requires car in g.defs && |g.defs[car].args| >= 1
    ensures Supported(cfg, g, car, residual, weight) <==>
            && (exists k :: 1 <= k <= 2048 && cfg.hiddenDim == 8 * k)
            && exists index, tokens, dtype, fine ::
                 && g.defs[car].meta == Meta(g, g.defs[car].args[0]) == Meta(g, residual) == MatrixMeta(index, tokens, cfg.hiddenDim, dtype)
                 && Meta(g, weight) == VectorMeta(index, cfg.hiddenDim, fine)
                 && dtype in {Float16, BFloat16} && fine in {dtype, Float32}
  {
    if Supported(cfg, g, car, residual, weight) {
      var index, tokens, dtype, fine := SupportedMetas(cfg, g, car, residual, weight);
      assert cfg.hiddenDim == 8 * (cfg.hiddenDim / 8);
    }
  }

  /** A place where an all-reduce can be fused. `outs` maps the nodes that the fused
      operator's outputs replace to the output's index; `husk` is the combined node they
      were taken from, if any. */
  datatype Site = Site(car: Id, before: Id, residual: Arg, weight: Arg, eps: Arg,
                       outs: map<Id, int>, husk: Option<Id>, others: set<Id>)

  /** `all_reduce -> fused_add_rms_norm -> getitem`. */
  function FusedAddSite(cfg: Config, g: Graph, car: Id, f: Id): Option<Site>
    requires car in g.defs
  {
    if f !in g.Users(car) || !g.defs[f].target.FusedAddRmsNorm? then None else
    var node := g.defs[f];
    if |node.args| < 4 || node.args[0] != NodeArg(car) then None else
    var (residual, weight, eps) := (node.args[1], node.args[2], node.args[3]);
    if weight.NoneArg? || eps.NoneArg? || GetArg(node, 4, "variance_size") != NoneArg
       || !Supported(cfg, g, car, residual, weight) then None else
    var outs := g.Users(f);
    if outs == {} || exists u | u in outs :: ItemIndex(g.defs[u], f) !in {Some(0), Some(1)} then None else
    Some(Site(car, f, residual, weight, eps,
              map u | u in outs :: ItemIndex(g.defs[u], f).value, Some(f), g.Users(car) - {f}))
  }

  predicate IsNormOf(g: Graph, add: Id, rms: Id) {
    && rms in g.Users(add)
    && g.defs[rms].target.RmsNormIr? && |g.defs[rms].args| >= 1 && g.defs[rms].args[0] == NodeArg(add)
  }

  /** `all_reduce -> add -> rms_norm`. */
  function AddSite(cfg: Config, g: Graph, car: Id, add: Id, rms: Id): Option<Site>
    requires car in g.defs
  {
    if add !in g.Users(car) || !IsAdd(g.defs[add]) || !IsNormOf(g, add, rms) then None else
    var residual := OtherAddArg(g.defs[add], car);
    var node := g.defs[rms];
    var (weight, eps) := (GetArg(node, 1, "weight"), NormEps(node));
    if residual.NoneArg? || weight.NoneArg? || eps.NoneArg? || GetArg(node, 3, "variance_size") != NoneArg
       || !Supported(cfg, g, car, residual, weight) then None else
    Some(Site(car, rms, residual, weight, eps, map[rms := 0, add := 1], None, g.Users(car) - {add}))
  }

  /** The all-reduce has another user, so its own value must stay available. */
  predicate UseRaw(s: Site) {
    s.others != {}
  }

  // ----- the rewrite as a function -----

  function FusedNode(cfg: Config, g: Graph, s: Site): Node
    requires s.car in g.defs && |g.defs[s.car].args| >= 1
  {
    Node(FusedAllReduceNorm(UseRaw(s)),
         [g.defs[s.car].args[0], s.residual, s.weight, s.eps, cfg.commId], map[], None)
  }

  /** `empty_like` of the all-reduce's input. */
  function ItemMeta(g: Graph, s: Site): Option<TensorMeta>
    requires s.car in g.defs && |g.defs[s.car].args| >= 1
  {
    Meta(g, g.defs[s.car].args[0])
  }

  function OutputCount(s: Site): nat {
    if UseRaw(s) then 3 else 2
  }

  /** The node that takes output `i` of the fused operator. */
  function Item(g: Graph, i: int): Id {
    g.next + 1 + i
  }

  /** `h` with the getitem nodes of the outputs from `i` on. */
  function WithItems(g: Graph, s: Site, h: Graph, i: nat): Graph
    requires s.car in g.defs && |g.defs[s.car].args| >= 1
    decreases OutputCount(s) - i
  {
    if i >= OutputCount(s) then h
    else WithItems(g, s, h.Inserted(s.before, ItemOf(g.New(), i, ItemMeta(g, s))), i + 1)
  }

  /** The fused operator at `g.next`, its outputs right behind it. */
  function WithFused(cfg: Config, g: Graph, s: Site): Graph
    requires s.car in g.defs && |g.defs[s.car].args| >= 1
  {
    WithItems(g, s, g.Inserted(s.before, FusedNode(cfg, g, s)), 0)
  }

  function Replacement(g: Graph, s: Site): map<Id, Id> {
    map u | u in s.outs :: Item(g, s.outs[u])
  }

  /** The replaced nodes' readers read the new items. */
  function OutsRewired(g: Graph, s: Site, h: Graph): Graph {
    h.Renamed(h.defs.Keys, Replacement(g, s))
  }

  /** And so do the all-reduce's other readers. */
  function Rewired(g: Graph, s: Site, h: Graph): Graph {
    if UseRaw(s) then OutsRewired(g, s, h).Renamed(s.others, map[s.car := Item(g, 2)])
    else OutsRewired(g, s, h)
  }

  function HuskSwept(s: Site, h: Graph): Graph {
    if s.husk.Some? then h.Erased(s.outs.Keys).ErasedIfUnused(s.husk.value) else h.Erased(s.outs.Keys)
  }

  function Swept(s: Site, h: Graph): Graph {
    HuskSwept(s, h).ErasedIfUnused(s.car)
  }

  function Fused(cfg: Config, g: Graph, s: Site): Graph
    requires s.car in g.defs && |g.defs[s.car].args| >= 1
  {
    Swept(s, Rewired(g, s, WithFused(cfg, g, s)))
  }

  /** `s` was matched in `g` by one of the two arms. */
  ghost predicate IsSite(cfg: Config, g: Graph, s: Site) {
    && s.car in g.defs && IsTargetAllReduce(cfg, g.defs[s.car])
    && ((exists f :: FusedAddSite(cfg, g, s.car, f) == Some(s))
        || (exists add, rms :: AddSite(cfg, g, s.car, add, rms) == Some(s)))
  }

  // ----- meaning -----

  ghost predicate AddCommutes(I: Interp) {
    forall a, b :: I.add(a, b) == I.add(b, a)
  }

  /** The add has the all-reduce second; the fused operator always adds it first. */
  ghost predicate Swapped(cfg: Config, g: Graph, s: Site) {
    s.car in g.defs && exists add, rms :: IsSwap(cfg, g, s, add, rms)
  }

  ghost predicate IsSwap(cfg: Config, g: Graph, s: Site, add: Id, rms: Id)
    requires s.car in g.defs
  {
    AddSite(cfg, g, s.car, add, rms) == Some(s) && g.defs[add].args[0] != NodeArg(s.car)
  }

  /** What the fused operator returns, from the all-reduced value `v[s.car]`. */
  function FusedOutputs(I: Interp, s: Site, v: Valuation): seq<Value> {
    var reduced := ArgValue(NodeArg(s.car), v);
    NormOutputs(I, I.add(reduced, ArgValue(s.residual, v)), ArgValue(s.weight, v), ArgValue(s.eps, v),
                ArgV(NoneArg)) + [reduced]
  }

  lemma AddValue(I: Interp, n: Id, node: Node, v: Valuation)
    requires IsAdd(node)
    ensures EvalNode(I, n, node, v) == I.add(ArgValue(node.args[0], v), ArgValue(node.args[1], v))
  {
    var kw := KwargValues(node.kwargs, v);
    assert kw.Keys == node.kwargs.Keys;
  }

  lemma NormValue(I: Interp, n: Id, node: Node, v: Valuation)
    requires node.target.RmsNormIr? && |node.args| >= 1 && GetArg(node, 3, "variance_size") == NoneArg
    ensures EvalNode(I, n, node, v) ==
            I.rms(ArgValue(node.args[0], v), ArgValue(GetArg(node, 1, "weight"), v),
                  ArgValue(NormEps(node), v), ArgV(NoneArg))
  {
  }

  lemma FusedAddValue(I: Interp, n: Id, node: Node, v: Valuation)
    requires node.target.FusedAddRmsNorm? && |node.args| >= 4 && GetArg(node, 4, "variance_size") == NoneArg
    ensures EvalNode(I, n, node, v) ==
            TupleV(NormOutputs(I, I.add(ArgValue(node.args[0], v), ArgValue(node.args[1], v)),
                               ArgValue(node.args[2], v), ArgValue(node.args[3], v), ArgV(NoneArg)))
  {
  }

  lemma ItemValue(I: Interp, n: Id, node: Node, parent: Id, v: Valuation)
    requires ItemIndex(node, parent).Some? && parent in v && v[parent].TupleV?
    requires 0 <= ItemIndex(node, parent).value < |v[parent].vs|
    ensures EvalNode(I, n, node, v) == v[parent].vs[ItemIndex(node, parent).value]
  {
  }

  lemma FusedAddSiteOutputs(I: Interp, cfg: Config, g: Graph, s: Site, v: Valuation, f: Id)
    requires g.Valid() && s.car in g.defs && FusedAddSite(cfg, g, s.car, f) == Some(s) && Solves(I, g, v)
    ensures forall u | u in s.outs :: u in g.defs && 0 <= s.outs[u] < 2 && v[u] == FusedOutputs(I, s, v)[s.outs[u]]
  {
    FusedAddValue(I, f, g.defs[f], v);
    forall u | u in s.outs
      ensures u in g.defs && 0 <= s.outs[u] < 2 && v[u] == FusedOutputs(I, s, v)[s.outs[u]]
    {
      assert ItemIndex(g.defs[u], f) in {Some(0), Some(1)};
      ItemValue(I, u, g.defs[u], f, v);
    }
  }

  lemma AddSiteOutputs(I: Interp, cfg: Config, g: Graph, s: Site, v: Valuation, add: Id, rms: Id)
    requires g.Valid() && s.car in g.defs && AddSite(cfg, g, s.car, add, rms) == Some(s) && Solves(I, g, v)
    requires IsSwap(cfg, g, s, add, rms) ==> AddCommutes(I)
    ensures forall u | u in s.outs :: u in g.defs && 0 <= s.outs[u] < 2 && v[u] == FusedOutputs(I, s, v)[s.outs[u]]
  {
    hide Supported, Refs, NoDup, Elems;
    AddValue(I, add, g.defs[add], v);
    NormValue(I, rms, g.defs[rms], v);
  }

  /** At such a site the rewrite keeps the add's value exactly when the sum is the same both ways. */
  lemma SwapKeepsIff(I: Interp, cfg: Config, g: Graph, s: Site, v: Valuation, add: Id, rms: Id)
    requires g.Valid() && s.car in g.defs && IsSwap(cfg, g, s, add, rms) && Solves(I, g, v)
    ensures add in s.outs && s.outs[add] == 1
    ensures var (x, r) := (ArgValue(NodeArg(s.car), v), ArgValue(s.residual, v));
            v[add] == FusedOutputs(I, s, v)[1] <==> I.add(r, x) == I.add(x, r)
  {
    AddValue(I, add, g.defs[add], v);
  }

  lemma AllReduceValue(I: Interp, cfg: Config, g: Graph, car: Id, v: Valuation)
    requires car in g.defs && IsTargetAllReduce(cfg, g.defs[car]) && |g.defs[car].args| >= 1 && Solves(I, g, v)
    ensures ArgValue(NodeArg(car), v) == I.allReduce(ArgV(cfg.commId), ArgValue(g.defs[car].args[0], v))
  {
    assert v[car] == EvalNode(I, car, g.defs[car], v);
  }

  /** What the rewrite relies on, whichever arm matched. */
  ghost predicate Matched(cfg: Config, g: Graph, s: Site) {
    && s.car in g.defs && IsTargetAllReduce(cfg, g.defs[s.car]) && |g.defs[s.car].args| >= 1
    && s.before in g.defs
    && ArgRefs(s.residual) + ArgRefs(s.weight) + ArgRefs(s.eps) <= g.defs.Keys
    && (forall u | u in s.outs :: u in g.defs && 0 <= s.outs[u] < 2)
    && s.others <= g.Users(s.car) && s.car !in s.outs
  }

  lemma RefsOf(g: Graph, n: Id)
    requires g.Valid() && n in g.defs
    ensures Refs(g.defs[n]) <= g.defs.Keys
    ensures forall i | 0 <= i < |g.defs[n].args| :: ArgRefs(g.defs[n].args[i]) <= g.defs.Keys
    ensures forall k | k in g.defs[n].kwargs :: ArgRefs(g.defs[n].kwargs[k]) <= g.defs.Keys
  {
    var node := g.defs[n];
    assert forall i | 0 <= i < |node.args| :: ArgRefs(node.args[i]) <= Refs(node);
    assert forall k | k in node.kwargs :: ArgRefs(node.kwargs[k]) <= Refs(node);
  }

  lemma FusedAddSiteMatched(cfg: Config, g: Graph, s: Site, f: Id)
    requires g.Valid() && s.car in g.defs && IsTargetAllReduce(cfg, g.defs[s.car])
    requires FusedAddSite(cfg, g, s.car, f) == Some(s)
    ensures Matched(cfg, g, s)
  {
    RefsOf(g, f);
    forall u | u in s.outs
      ensures u in g.defs && 0 <= s.outs[u] < 2 && u != s.car
    {
      assert ItemIndex(g.defs[u], f) in {Some(0), Some(1)};
    }
  }

  lemma AddSiteMatched(cfg: Config, g: Graph, s: Site, add: Id, rms: Id)
    requires g.Valid() && s.car in g.defs && IsTargetAllReduce(cfg, g.defs[s.car])
    requires AddSite(cfg, g, s.car, add, rms) == Some(s)
    ensures Matched(cfg, g, s)
  {
    RefsOf(g, add);
    RefsOf(g, rms);
  }

  lemma SiteMatched(cfg: Config, g: Graph, s: Site)
    requires g.Valid() && IsSite(cfg, g, s)
    ensures Matched(cfg, g, s)
  {
    if f :| FusedAddSite(cfg, g, s.car, f) == Some(s) {
      FusedAddSiteMatched(cfg, g, s, f);
    } else {
      var add, rms :| AddSite(cfg, g, s.car, add, rms) == Some(s);
      AddSiteMatched(cfg, g, s, add, rms);
    }
  }

  /** `h` is `g` with the fused node and the items below `i`. */
  ghost predicate Extended(cfg: Config, g: Graph, s: Site, h: Graph, i: nat) {
    && h.Valid() && h.next == g.next + 1 + i
    && (forall n :: n in h.defs <==> n in g.defs || g.next <= n < h.next)
    && (forall n | n in g.defs :: h.defs[n] == g.defs[n])
    && s.car in g.defs && |g.defs[s.car].args| >= 1 && h.defs[g.New()] == FusedNode(cfg, g, s)
    && (forall n | n in h.defs && n > g.next :: h.defs[n].target.GetItem? && Refs(h.defs[n]) == {g.New()})
  }

  lemma FusedReads(cfg: Config, g: Graph, s: Site)
    requires g.Valid() && Matched(cfg, g, s)
    ensures Refs(FusedNode(cfg, g, s)) <= g.defs.Keys
  {
    hide Supported, NoDup;
    RefsOf(g, s.car);
  }

  lemma FusedExtended(cfg: Config, g: Graph, s: Site)
    requires g.Valid() && Matched(cfg, g, s)
    ensures Refs(FusedNode(cfg, g, s)) <= g.defs.Keys
    ensures Extended(cfg, g, s, g.Inserted(s.before, FusedNode(cfg, g, s)), 0)
  {
    FusedReads(cfg, g, s);
    hide Supported, Refs, NoDup, Elems, InsertedBefore, FusedNode;
    InsertedValid(g, s.before, FusedNode(cfg, g, s));
  }

  lemma ItemExtended(cfg: Config, g: Graph, s: Site, h: Graph, i: nat)
    requires Extended(cfg, g, s, h, i) && s.before in h.defs
    ensures Extended(cfg, g, s, h.Inserted(s.before, ItemOf(g.New(), i, ItemMeta(g, s))), i + 1)
  {
    hide InsertedBefore, NoDup, Elems, FusedNode, Supported, ItemMeta;
    var node := ItemOf(g.New(), i, ItemMeta(g, s));
    ItemOfRefs(g.New(), i, ItemMeta(g, s));
    InsertedValid(h, s.before, node);
    hide Refs;
  }

  lemma ItemsExtended(cfg: Config, g: Graph, s: Site, h: Graph, i: nat)
    requires Extended(cfg, g, s, h, i) && s.before in h.defs && i <= OutputCount(s)
    ensures Extended(cfg, g, s, WithItems(g, s, h, i), OutputCount(s))
    decreases OutputCount(s) - i
  {
    if i < OutputCount(s) {
      ItemExtended(cfg, g, s, h, i);
      ItemsExtended(cfg, g, s, h.Inserted(s.before, ItemOf(g.New(), i, ItemMeta(g, s))), i + 1);
    }
  }

  lemma WithFusedExtended(cfg: Config, g: Graph, s: Site)
    requires g.Valid() && Matched(cfg, g, s)
    ensures Extended(cfg, g, s, WithFused(cfg, g, s), OutputCount(s))
  {
    FusedExtended(cfg, g, s);
    ItemsExtended(cfg, g, s, g.Inserted(s.before, FusedNode(cfg, g, s)), 0);
  }

  lemma FusedValue(I: Interp, cfg: Config, g: Graph, s: Site, v: Valuation)
    requires Matched(cfg, g, s)
    requires ArgValue(NodeArg(s.car), v) == I.allReduce(ArgV(cfg.commId), ArgValue(g.defs[s.car].args[0], v))
    ensures EvalNode(I, g.New(), FusedNode(cfg, g, s), v) == TupleV(FusedOutputs(I, s, v)[..OutputCount(s)])
  {
    var node := FusedNode(cfg, g, s);
    var vals := ArgValues(node.args, v);
    assert vals[0] == ArgValue(node.args[0], v) && vals[1] == ArgValue(s.residual, v)
        && vals[2] == ArgValue(s.weight, v) && vals[3] == ArgValue(s.eps, v) && vals[4] == ArgV(cfg.commId);
    var outs := FusedOutputs(I, s, v);
    assert outs[..3] == outs;
    assert outs[..2] == [outs[0], outs[1]];
  }

  /** The items below `i` hold the fused operator's first `i` outputs. */
  ghost predicate ItemsHold(g: Graph, w: Valuation, i: nat) {
    && g.New() in w && w[g.New()].TupleV? && i <= |w[g.New()].vs|
    && forall j | 0 <= j < i :: Item(g, j) in w && w[Item(g, j)] == w[g.New()].vs[j]
  }

  lemma ItemsHoldStep(g: Graph, w: Valuation, i: nat)
    requires ItemsHold(g, w, i) && i < |w[g.New()].vs|
    ensures ItemsHold(g, w[Item(g, i) := w[g.New()].vs[i]], i + 1)
  {
  }

  lemma ItemsSolve(I: Interp, cfg: Config, g: Graph, s: Site, h: Graph, i: nat, w: Valuation) returns (w': Valuation)
    requires Extended(cfg, g, s, h, i) && s.before in h.defs && i <= OutputCount(s) && Solves(I, h, w)
    requires ItemsHold(g, w, i) && |w[g.New()].vs| == OutputCount(s)
    ensures Solves(I, WithItems(g, s, h, i), w') && ItemsHold(g, w', OutputCount(s))
    ensures forall n | n in w :: n in w' && w'[n] == w[n]
    decreases OutputCount(s) - i
  {
    w' := w;
    if i < OutputCount(s) {
      ItemExtended(cfg, g, s, h, i);
      ItemOfSolves(I, h, s.before, g.New(), i, ItemMeta(g, s), w);
      ItemsHoldStep(g, w, i);
      w' := ItemsSolve(I, cfg, g, s, h.Inserted(s.before, ItemOf(g.New(), i, ItemMeta(g, s))), i + 1,
                       w[Item(g, i) := w[g.New()].vs[i]]);
    }
  }

  lemma WithFusedSolves(I: Interp, cfg: Config, g: Graph, s: Site, v: Valuation) returns (w: Valuation)
    requires g.Valid() && Matched(cfg, g, s) && Solves(I, g, v)
    ensures Solves(I, WithFused(cfg, g, s), w)
    ensures forall n | n in v :: n in w && w[n] == v[n]
    ensures forall i | 0 <= i < OutputCount(s) :: Item(g, i) in w && w[Item(g, i)] == FusedOutputs(I, s, v)[i]
  {
    AllReduceValue(I, cfg, g, s.car, v);
    FusedValue(I, cfg, g, s, v);
    FusedExtended(cfg, g, s);
    var node := FusedNode(cfg, g, s);
    InsertedSolves(I, g, s.before, node, v);
    w := ItemsSolve(I, cfg, g, s, g.Inserted(s.before, node), 0, v[g.New() := EvalNode(I, g.New(), node, v)]);
  }

  lemma SiteOutputs(I: Interp, cfg: Config, g: Graph, s: Site, v: Valuation)
    requires g.Valid() && IsSite(cfg, g, s) && Solves(I, g, v) && (Swapped(cfg, g, s) ==> AddCommutes(I))
    ensures forall u | u in s.outs :: u in g.defs && 0 <= s.outs[u] < 2 && v[u] == FusedOutputs(I, s, v)[s.outs[u]]
  {
    if f :| FusedAddSite(cfg, g, s.car, f) == Some(s) {
      FusedAddSiteOutputs(I, cfg, g, s, v, f);
    } else {
      var add, rms :| AddSite(cfg, g, s.car, add, rms) == Some(s);
      AddSiteOutputs(I, cfg, g, s, v, add, rms);
    }
  }

  lemma ReplacementAgrees(I: Interp, g: Graph, s: Site, v: Valuation, w: Valuation)
    requires forall u | u in s.outs :: 0 <= s.outs[u] < 2 && u in v && v[u] == FusedOutputs(I, s, v)[s.outs[u]]
    requires forall n | n in v :: n in w && w[n] == v[n]
    requires forall i | 0 <= i < OutputCount(s) :: Item(g, i) in w && w[Item(g, i)] == FusedOutputs(I, s, v)[i]
    ensures forall a | a in Replacement(g, s) ::
              Replacement(g, s)[a] in w && (a in w ==> w[a] == w[Replacement(g, s)[a]])
  {
  }

  lemma RewiredValid(cfg: Config, g: Graph, s: Site, h: Graph)
    requires Extended(cfg, g, s, h, OutputCount(s))
    requires forall u | u in s.outs :: 0 <= s.outs[u] < 2
    ensures OutsRewired(g, s, h).Valid() && Rewired(g, s, h).Valid()
  {
    RenamedValid(h, h.defs.Keys, Replacement(g, s));
    if UseRaw(s) {
      RenamedValid(OutsRewired(g, s, h), s.others, map[s.car := Item(g, 2)]);
    }
  }

  lemma RewiredSolves(I: Interp, cfg: Config, g: Graph, s: Site, h: Graph, w: Valuation)
    requires Extended(cfg, g, s, h, OutputCount(s)) && Solves(I, h, w)
    requires forall u | u in s.outs :: 0 <= s.outs[u] < 2
    requires forall a | a in Replacement(g, s) ::
               Replacement(g, s)[a] in w && (a in w ==> w[a] == w[Replacement(g, s)[a]])
    requires UseRaw(s) ==> Item(g, 2) in w && s.car in w && w[s.car] == w[Item(g, 2)]
    ensures Solves(I, Rewired(g, s, h), w)
  {
    RewiredValid(cfg, g, s, h);
    RenamedSolves(I, h, h.defs.Keys, Replacement(g, s), w);
    if UseRaw(s) {
      RenamedSolves(I, OutsRewired(g, s, h), s.others, map[s.car := Item(g, 2)], w);
    }
  }

  lemma SweptSolves(I: Interp, s: Site, h: Graph, w: Valuation)
    requires Solves(I, h, w)
    ensures Solves(I, Swept(s, h), w)
  {
    ErasedSolves(I, h, s.outs.Keys, w);
  }

  /** One rewrite keeps every node's value, wherever the list puts the new nodes. */
  lemma FusedSolves(I: Interp, cfg: Config, g: Graph, s: Site, v: Valuation) returns (w: Valuation)
    requires g.Valid() && IsSite(cfg, g, s) && Solves(I, g, v) && (Swapped(cfg, g, s) ==> AddCommutes(I))
    ensures |g.defs[s.car].args| >= 1 && Solves(I, Fused(cfg, g, s), w)
    ensures forall n | n in v :: n in w && w[n] == v[n]
  {
    SiteMatched(cfg, g, s);
    SiteOutputs(I, cfg, g, s, v);
    w := WithFusedSolves(I, cfg, g, s, v);
    WithFusedExtended(cfg, g, s);
    assert s.car in v && forall u | u in s.outs :: u in v;
    ReplacementAgrees(I, g, s, v, w);
    var h := WithFused(cfg, g, s);
    RewiredSolves(I, cfg, g, s, h, w);
    SweptSolves(I, s, Rewired(g, s, h), w);
  }

  // ----- what is left of the graph -----

  lemma RenamedUses(g: Graph, ms: set<Id>, sub: map<Id, Id>, m: Id, n: Id)
    requires m in g.defs && forall a | a in sub :: sub[a] !in sub
    ensures var refs := Refs(g.Renamed(ms, sub).defs[m]);
            && (m in ms && n in sub ==> n !in refs)
            && (n !in sub && n !in sub.Values ==> (n in refs <==> n in Refs(g.defs[m])))
            && (m !in ms ==> refs == Refs(g.defs[m]))
  {
    RenameRefs(g.defs[m], sub);
  }

  /** Readers of an old node after rewiring: none for a replaced node; for any other node `n`
      the old ones, except that the all-reduce keeps no reader in `others`. */
  lemma RewiredUses(cfg: Config, g: Graph, s: Site, h: Graph, m: Id, n: Id)
    requires g.Valid() && Matched(cfg, g, s) && Extended(cfg, g, s, h, OutputCount(s))
    requires m in h.defs && n in g.defs
    ensures n in s.outs ==> n !in Refs(Rewired(g, s, h).defs[m])
    ensures n !in s.outs && n != s.car ==> (n in Refs(Rewired(g, s, h).defs[m]) <==> n in Refs(h.defs[m]))
    ensures n !in s.outs && n == s.car ==>
              (n in Refs(Rewired(g, s, h).defs[m]) <==> n in Refs(h.defs[m]) && m !in s.others)
  {
    var sub := Replacement(g, s);
    forall a | a in sub
      ensures sub[a] >= g.next
    {
    }
    RenamedUses(h, h.defs.Keys, sub, m, n);
    assert n !in sub.Values;
    if UseRaw(s) {
      RenamedUses(OutsRewired(g, s, h), s.others, map[s.car := Item(g, 2)], m, n);
    }
  }

  lemma SweptValid(cfg: Config, g: Graph, s: Site, h: Graph)
    requires g.Valid() && Matched(cfg, g, s) && Extended(cfg, g, s, h, OutputCount(s))
    ensures HuskSwept(s, Rewired(g, s, h)).Valid() && Swept(s, Rewired(g, s, h)).Valid()
    ensures forall u | u in s.outs :: Rewired(g, s, h).Users(u) == {}
  {
    RewiredValid(cfg, g, s, h);
    var h1 := Rewired(g, s, h);
    forall u, m | u in s.outs && m in h1.defs
      ensures u !in Refs(h1.defs[m])
    {
      RewiredUses(cfg, g, s, h, m, u);
    }
    ErasedValid(h1, s.outs.Keys);
    UnusedValid(h1.Erased(s.outs.Keys), s.husk);
    UnusedValid(HuskSwept(s, h1), Some(s.car));
  }

  lemma UnusedValid(h: Graph, n: Option<Id>)
    requires h.Valid()
    ensures n.Some? ==> h.ErasedIfUnused(n.value).Valid()
  {
    if n.Some? && n.value in h.defs && h.Users(n.value) == {} {
      ErasedValid(h, {n.value});
    }
  }

  lemma FusedValid(cfg: Config, g: Graph, s: Site)
    requires g.Valid() && IsSite(cfg, g, s)
    ensures |g.defs[s.car].args| >= 1 && Fused(cfg, g, s).Valid()
  {
    SiteMatched(cfg, g, s);
    WithFusedExtended(cfg, g, s);
    SweptValid(cfg, g, s, WithFused(cfg, g, s));
  }

  /** In a lint-clean graph: who reads the all-reduce and the combined node, and which of the
      fused operator's arguments may be the all-reduce. */
  ghost predicate Readers(g: Graph, s: Site) {
    && s.car in g.defs && |g.defs[s.car].args| >= 1
    && NodeArg(s.car) !in [g.defs[s.car].args[0], s.weight]
    && g.Users(s.car) - s.others <= s.outs.Keys + (if s.husk.Some? then {s.husk.value} else {})
    && s.car !in s.outs && s.husk != Some(s.car)
    && (s.husk.Some? ==>
          && s.husk.value in g.defs && s.husk.value !in s.outs
          && g.Users(s.husk.value) == s.outs.Keys
          && NodeArg(s.husk.value) !in [g.defs[s.car].args[0], s.residual, s.weight])
  }

  lemma FusedAddReaders(cfg: Config, g: Graph, s: Site, f: Id)
    requires g.Valid() && LintClean(g) && s.car in g.defs && FusedAddSite(cfg, g, s.car, f) == Some(s)
    ensures Readers(g, s)
  {
    ArgsNotSelf(g, f);
    ArgsNotSelf(g, s.car);
    LintAcyclic(g.order, g.defs, {}, s.car, f);
    LintAcyclic(g.order, g.defs, {}, f, f);
    PositionIsRef(g.defs[s.car], 0);
    assert s.outs.Keys == g.Users(f);
    assert s.car !in g.Users(f);
  }

  lemma AddReaders(cfg: Config, g: Graph, s: Site, add: Id, rms: Id)
    requires g.Valid() && LintClean(g) && s.car in g.defs && AddSite(cfg, g, s.car, add, rms) == Some(s)
    ensures Readers(g, s)
  {
    ArgsNotSelf(g, s.car);
    LintAcyclic(g.order, g.defs, {}, s.car, add);
    LintAcyclic(g.order, g.defs, {}, s.car, s.car);
  }

  lemma SiteReaders(cfg: Config, g: Graph, s: Site)
    requires g.Valid() && LintClean(g) && IsSite(cfg, g, s)
    ensures Readers(g, s)
  {
    if f :| FusedAddSite(cfg, g, s.car, f) == Some(s) {
      FusedAddReaders(cfg, g, s, f);
    } else {
      var add, rms :| AddSite(cfg, g, s.car, add, rms) == Some(s);
      AddReaders(cfg, g, s, add, rms);
    }
  }

  lemma ArgsNotSelf(g: Graph, n: Id)
    requires g.Valid() && LintClean(g) && n in g.defs
    ensures NodeArg(n) !in g.defs[n].args
  {
    LintAcyclic(g.order, g.defs, {}, n, n);
    forall i | 0 <= i < |g.defs[n].args| { PositionIsRef(g.defs[n], i); }
  }

  lemma FusedRefs(cfg: Config, g: Graph, s: Site)
    requires s.car in g.defs && |g.defs[s.car].args| >= 1 && !cfg.commId.NodeArg?
    ensures Refs(FusedNode(cfg, g, s)) ==
            ArgRefs(g.defs[s.car].args[0]) + ArgRefs(s.residual) + ArgRefs(s.weight) + ArgRefs(s.eps)
  {
    var node := FusedNode(cfg, g, s);
    assert node.args[0] == g.defs[s.car].args[0] && node.args[1] == s.residual
        && node.args[2] == s.weight && node.args[3] == s.eps && node.args[4] == cfg.commId;
  }

  /** After rewiring, what is kept does not read the combined node, and only the fused
      operator can read the all-reduce, when it is its own residual. */
  ghost predicate Trimmed(s: Site, fused: Id, h: Graph) {
    forall m | m in h.defs && m !in s.outs ::
      && (s.husk.Some? ==> s.husk.value !in Refs(h.defs[m]))
      && (s.husk != Some(m) ==> (s.car in Refs(h.defs[m]) <==> m == fused && s.residual == NodeArg(s.car)))
  }

  lemma HuskUnread(cfg: Config, g: Graph, s: Site, h: Graph, m: Id)
    requires g.Valid() && Matched(cfg, g, s) && Readers(g, s) && !s.eps.NodeArg?
    requires Extended(cfg, g, s, h, OutputCount(s)) && m in h.defs && m !in s.outs && s.husk.Some?
    ensures s.husk.value !in Refs(Rewired(g, s, h).defs[m])
  {
    var f := s.husk.value;
    RewiredUses(cfg, g, s, h, m, f);
    if m in g.defs {
      assert m !in g.Users(f);
    } else if m == g.New() {
      FusedRefs(cfg, g, s);
    }
  }

  lemma CarRead(cfg: Config, g: Graph, s: Site, h: Graph, m: Id)
    requires g.Valid() && Matched(cfg, g, s) && Readers(g, s) && !s.eps.NodeArg?
    requires Extended(cfg, g, s, h, OutputCount(s)) && m in h.defs && m !in s.outs && s.husk != Some(m)
    ensures s.car in Refs(Rewired(g, s, h).defs[m]) <==> m == g.New() && s.residual == NodeArg(s.car)
  {
    RewiredUses(cfg, g, s, h, m, s.car);
    if m in g.defs {
      assert m in s.others || m !in g.Users(s.car);
    } else if m == g.New() {
      FusedRefs(cfg, g, s);
      assert m !in g.Users(s.car);
    }
  }

  lemma RewiredTrimmed(cfg: Config, g: Graph, s: Site, h: Graph)
    requires g.Valid() && Matched(cfg, g, s) && Readers(g, s) && !s.eps.NodeArg?
    requires Extended(cfg, g, s, h, OutputCount(s))
    ensures Trimmed(s, g.New(), Rewired(g, s, h))
  {
    forall m | m in h.defs && m !in s.outs
      ensures s.husk.Some? ==> s.husk.value !in Refs(Rewired(g, s, h).defs[m])
      ensures s.husk != Some(m) ==>
                (s.car in Refs(Rewired(g, s, h).defs[m]) <==> m == g.New() && s.residual == NodeArg(s.car))
    {
      if s.husk.Some? { HuskUnread(cfg, g, s, h, m); }
      if s.husk != Some(m) { CarRead(cfg, g, s, h, m); }
    }
  }

  lemma SweptNodes(s: Site, fused: Id, h: Graph)
    requires Trimmed(s, fused, h)
    requires s.car in h.defs && s.car !in s.outs && s.husk != Some(s.car)
    requires fused in h.defs && fused !in s.outs && s.husk != Some(fused) && fused != s.car
    requires s.husk.Some? ==> s.husk.value in h.defs && s.husk.value !in s.outs
    ensures Swept(s, h).next == h.next
    ensures forall n :: n in Swept(s, h).defs <==>
              n in h.defs && n !in s.outs && s.husk != Some(n) && (n == s.car ==> s.residual == NodeArg(s.car))
    ensures forall n | n in Swept(s, h).defs :: Swept(s, h).defs[n] == h.defs[n]
  {
    var h2 := h.Erased(s.outs.Keys);
    if s.husk.Some? {
      forall m | m in h2.defs
        ensures m !in h2.Users(s.husk.value)
      {
        assert h2.defs[m] == h.defs[m];
      }
      assert h2.Users(s.husk.value) == {};
    }
    var h3 := HuskSwept(s, h);
    assert forall n :: n in h3.defs <==> n in h.defs && n !in s.outs && s.husk != Some(n);
    if s.residual == NodeArg(s.car) {
      assert fused in h3.Users(s.car);
    } else {
      forall m | m in h3.defs
        ensures m !in h3.Users(s.car)
      {
        assert h3.defs[m] == h.defs[m];
      }
      assert h3.Users(s.car) == {};
    }
  }

  lemma RenamedNodes(h: Graph, ms: set<Id>, sub: map<Id, Id>)
    ensures h.Renamed(ms, sub).next == h.next && h.Renamed(ms, sub).defs.Keys == h.defs.Keys
    ensures forall n | n in h.defs :: h.Renamed(ms, sub).defs[n].target == h.defs[n].target
  {
  }

  lemma RewiredKeeps(g: Graph, s: Site, h: Graph)
    ensures Rewired(g, s, h).next == h.next && Rewired(g, s, h).defs.Keys == h.defs.Keys
    ensures forall n | n in h.defs :: Rewired(g, s, h).defs[n].target == h.defs[n].target
  {
    hide Graph.Renamed, Replacement;
    var h1 := OutsRewired(g, s, h);
    RenamedNodes(h, h.defs.Keys, Replacement(g, s));
    RenamedNodes(h1, s.others, map[s.car := Item(g, 2)]);
    assert forall n | n in h.defs :: n in h1.defs && h1.defs[n].target == h.defs[n].target;
  }

  lemma ExtendedNodes(cfg: Config, g: Graph, s: Site, h: Graph)
    requires Extended(cfg, g, s, h, OutputCount(s))
    ensures h.next == g.next + (if UseRaw(s) then 4 else 3)
    ensures forall n :: n in h.defs <==> n in g.defs || g.next <= n < h.next
    ensures forall n | n in h.defs :: h.defs[n].target ==
              if n in g.defs then g.defs[n].target
              else if n == g.New() then FusedAllReduceNorm(UseRaw(s)) else GetItem
  {
    hide Graph.Valid;
  }

  lemma RewiredNodes(cfg: Config, g: Graph, s: Site, h: Graph)
    requires Extended(cfg, g, s, h, OutputCount(s))
    ensures Rewired(g, s, h).next == h.next == g.next + (if UseRaw(s) then 4 else 3)
    ensures forall n :: n in Rewired(g, s, h).defs <==> n in g.defs || g.next <= n < h.next
    ensures forall n | n in h.defs :: Rewired(g, s, h).defs[n].target == h.defs[n].target
    ensures forall n | n in h.defs :: h.defs[n].target ==
              if n in g.defs then g.defs[n].target
              else if n == g.New() then FusedAllReduceNorm(UseRaw(s)) else GetItem
  {
    hide Extended, Rewired;
    ExtendedNodes(cfg, g, s, h);
    RewiredKeeps(g, s, h);
  }

  /** Which nodes one rewrite leaves, and with which operator. */
  ghost predicate ErasesExactly(g: Graph, s: Site, g': Graph) {
    && g'.next == g.next + (if UseRaw(s) then 4 else 3)
    && (forall n :: n in g'.defs <==>
          && (n in g.defs || g.next <= n < g'.next)
          && n !in s.outs && s.husk != Some(n) && (n == s.car ==> s.residual == NodeArg(s.car)))
    && (forall n | n in g'.defs ::
          g'.defs[n].target ==
          if n in g.defs then g.defs[n].target
          else if n == g.New() then FusedAllReduceNorm(UseRaw(s)) else GetItem)
  }

  lemma ErasesFrom(g: Graph, s: Site, h1: Graph)
    requires g.Valid() && Readers(g, s) && Trimmed(s, g.New(), h1)
    requires forall u | u in s.outs :: u in g.defs
    requires h1.next == g.next + (if UseRaw(s) then 4 else 3)
    requires forall n :: n in h1.defs <==> n in g.defs || g.next <= n < h1.next
    requires forall n | n in h1.defs :: h1.defs[n].target ==
               if n in g.defs then g.defs[n].target
               else if n == g.New() then FusedAllReduceNorm(UseRaw(s)) else GetItem
    ensures ErasesExactly(g, s, Swept(s, h1))
  {
    SweptNodes(s, g.New(), h1);
  }

  lemma MatchedErases(cfg: Config, g: Graph, s: Site)
    requires g.Valid() && Matched(cfg, g, s) && Readers(g, s) && !s.eps.NodeArg?
    ensures ErasesExactly(g, s, Fused(cfg, g, s))
  {
    WithFusedExtended(cfg, g, s);
    var h := WithFused(cfg, g, s);
    RewiredTrimmed(cfg, g, s, h);
    RewiredNodes(cfg, g, s, h);
    ErasesFrom(g, s, Rewired(g, s, h));
  }

  /** A rewritten all-reduce is erased unless it is its own residual; so are the nodes whose
      values the fused operator takes over. Nothing else is, and the others keep their operator. */
  lemma FusedErases(cfg: Config, g: Graph, s: Site)
    requires g.Valid() && LintClean(g) && IsSite(cfg, g, s) && !s.eps.NodeArg?
    ensures |g.defs[s.car].args| >= 1 && ErasesExactly(g, s, Fused(cfg, g, s))
  {
    SiteMatched(cfg, g, s);
    SiteReaders(cfg, g, s);
    MatchedErases(cfg, g, s);
  }

  function Collectives(g: Graph): set<Id> {
    set n | n in g.defs && (g.defs[n].target.AllReduce? || g.defs[n].target.FusedAllReduceNorm?)
  }

  /** The number of collectives is unchanged, except that an all-reduce that is its own
      residual runs a second time inside the fused operator. */
  lemma CollectivesKept(cfg: Config, g: Graph, s: Site)
    requires g.Valid() && LintClean(g) && IsSite(cfg, g, s) && !s.eps.NodeArg?
    ensures |g.defs[s.car].args| >= 1
    ensures |Collectives(Fused(cfg, g, s))| == |Collectives(g)| + (if s.residual == NodeArg(s.car) then 1 else 0)
  {
    FusedErases(cfg, g, s);
    SiteTargets(cfg, g, s);
    CollectiveSets(g, s, Fused(cfg, g, s));
  }

  lemma CollectiveSets(g: Graph, s: Site, g': Graph)
    requires ErasesExactly(g, s, g') && s.car in Collectives(g) && forall n | n in g.defs :: n < g.next
    requires s.car !in s.outs && s.husk != Some(s.car)
    requires forall u | u in s.outs :: u in g.defs && u !in Collectives(g)
    requires s.husk.Some? ==> s.husk.value in g.defs && s.husk.value !in Collectives(g)
    ensures |Collectives(g')| == |Collectives(g)| + (if s.residual == NodeArg(s.car) then 1 else 0)
  {
    assert g.New() in Collectives(g') && g.New() !in Collectives(g);
    var kept := Collectives(g) - (if s.residual == NodeArg(s.car) then {} else {s.car});
    forall n
      ensures n in Collectives(g') <==> n in kept + {g.New()}
    {
      if n in g.defs && n in g'.defs { assert g'.defs[n].target == g.defs[n].target; }
    }
    assert Collectives(g') == kept + {g.New()};
  }

  lemma FusedAddTargets(cfg: Config, g: Graph, s: Site, f: Id)
    requires s.car in g.defs && FusedAddSite(cfg, g, s.car, f) == Some(s)
    ensures s.husk == Some(f) && f in g.defs && g.defs[f].target.FusedAddRmsNorm?
    ensures forall u | u in s.outs :: u in g.defs && g.defs[u].target.GetItem?
  {
    hide Supported;
    forall u | u in s.outs
      ensures u in g.defs && g.defs[u].target.GetItem?
    {
      assert ItemIndex(g.defs[u], f) in {Some(0), Some(1)};
    }
  }

  lemma AddTargets(cfg: Config, g: Graph, s: Site, add: Id, rms: Id)
    requires s.car in g.defs && AddSite(cfg, g, s.car, add, rms) == Some(s)
    ensures s.husk == None
    ensures forall u | u in s.outs :: u in g.defs && (g.defs[u].target.AddTensor? || g.defs[u].target.RmsNormIr?)
  {
    hide Supported;
  }

  /** The nodes taken over are no collectives. */
  lemma SiteTargets(cfg: Config, g: Graph, s: Site)
    requires g.Valid() && IsSite(cfg, g, s)
    ensures forall u | u in s.outs :: u in g.defs && u !in Collectives(g)
    ensures s.husk.Some? ==> s.husk.value in g.defs && s.husk.value !in Collectives(g)
    ensures s.car in Collectives(g) && s.car !in s.outs && s.husk != Some(s.car)
  {
    hide FusedAddSite, AddSite, Graph.Valid;
    if f :| FusedAddSite(cfg, g, s.car, f) == Some(s) {
      FusedAddTargets(cfg, g, s, f);
    } else {
      var add, rms :| AddSite(cfg, g, s.car, add, rms) == Some(s);
      AddTargets(cfg, g, s, add, rms);
    }
  }

  /** The three-output form is used exactly when the all-reduce has a user besides the
      combined node, or the add, that consumes it at this site. */
  lemma RawIffOtherUser(cfg: Config, g: Graph, s: Site, consumer: Id)
    requires g.Valid() && LintClean(g) && IsSite(cfg, g, s) && !s.eps.NodeArg?
    requires FusedAddSite(cfg, g, s.car, consumer) == Some(s)
             || exists rms :: AddSite(cfg, g, s.car, consumer, rms) == Some(s)
    ensures |g.defs[s.car].args| >= 1
    ensures g.New() in Fused(cfg, g, s).defs
    ensures Fused(cfg, g, s).defs[g.New()].target == FusedAllReduceNorm(true) <==> g.Users(s.car) != {consumer}
  {
    RawMeaning(cfg, g, s, consumer);
    FusedErases(cfg, g, s);
    SiteTargets(cfg, g, s);
    FusedTarget(g, s, Fused(cfg, g, s));
  }

  lemma RawMeaning(cfg: Config, g: Graph, s: Site, consumer: Id)
    requires s.car in g.defs
    requires FusedAddSite(cfg, g, s.car, consumer) == Some(s)
             || exists rms :: AddSite(cfg, g, s.car, consumer, rms) == Some(s)
    ensures UseRaw(s) <==> g.Users(s.car) != {consumer}
  {
    assert s.others == g.Users(s.car) - {consumer} && consumer in g.Users(s.car);
  }

  lemma FusedTarget(g: Graph, s: Site, g': Graph)
    requires ErasesExactly(g, s, g') && s.car in g.defs && forall n | n in g.defs :: n < g.next
    requires forall u | u in s.outs :: u in g.defs
    requires s.husk.Some? ==> s.husk.value in g.defs
    ensures g.New() in g'.defs && g'.defs[g.New()].target == FusedAllReduceNorm(UseRaw(s))
  {
  }
}
