/** The rewrite as the pass performs it: edits of the shared graph, one all-reduce after the
    other in the order of a snapshot of the node list. */
module AllReduceRewrite {
  import opened Options
  import opened FxGraph
  import opened PureEval
  import opened AllReduceFusion

  // ----- sequential edits against the one-step description -----

  lemma RenameOne(node: Node, done: map<Id, Id>, u: Id, r: Id)
    requires u !in done && forall a | a in done :: done[a] != u
    ensures Rename(Rename(node, done), map[u := r]) == Rename(node, done[u := r])
  {
    RenameTwice(node, done, map[u := r]);
    assert done + map[u := r] == done[u := r];
  }

  /** Renaming one more node in its readers only. */
  lemma RenamedStep(g: Graph, done: map<Id, Id>, u: Id, r: Id)
    requires u !in done && forall a | a in done :: done[a] != u
    ensures var h := g.Renamed(g.defs.Keys, done);
            h.Renamed(h.Users(u), map[u := r]) == g.Renamed(g.defs.Keys, done[u := r])
  {
    var h := g.Renamed(g.defs.Keys, done);
    var out := h.Renamed(h.Users(u), map[u := r]);
    forall m | m in g.defs
      ensures out.defs[m] == Rename(g.defs[m], done[u := r])
    {
      RenameOne(g.defs[m], done, u, r);
      if m !in h.Users(u) { RenameNothing(h.defs[m], map[u := r]); }
    }
    assert out.defs == g.Renamed(g.defs.Keys, done[u := r]).defs;
  }

  /** The two graphs differ at most in the definition of `n`. */
  ghost predicate SameBut(g: Graph, h: Graph, n: Id) {
    && g.order == h.order && g.next == h.next && g.defs.Keys == h.defs.Keys
    && forall m | m in g.defs && m != n :: g.defs[m] == h.defs[m]
  }

  lemma SameButErased(g: Graph, h: Graph, n: Id)
    requires SameBut(g, h, n)
    ensures g.Erased({n}) == h.Erased({n})
  {
    forall m | m in (g.defs - {n})
      ensures m in h.defs - {n} && (g.defs - {n})[m] == (h.defs - {n})[m]
    {
    }
    assert g.defs - {n} == h.defs - {n};
  }

  lemma ErasedTwice(g: Graph, a: set<Id>, b: set<Id>)
    ensures g.Erased(a).Erased(b) == g.Erased(a + b)
  {
    WithoutTwice(g.order, a, b);
    assert g.defs - a - b == g.defs - (a + b);
  }

  // ----- the edits -----

  lemma WithItemsStep(g: Graph, s: Site, h: Graph, i: nat, node: Node)
    requires s.car in g.defs && |g.defs[s.car].args| >= 1 && i < OutputCount(s)
    requires node == ItemOf(g.New(), i, ItemMeta(g, s))
    ensures WithItems(g, s, h, i) == WithItems(g, s, h.Inserted(s.before, node), i + 1)
  {
  }

  method InsertFusedOp(graph: FxGraph, cfg: Config, s: Site)
    requires graph.g.Valid() && Matched(cfg, graph.g, s)
    modifies graph
    ensures graph.g == WithFused(cfg, old(graph.g), s)
    ensures Extended(cfg, old(graph.g), s, graph.g, OutputCount(s))
  {
    ghost var g := graph.g;
    FusedExtended(cfg, g, s);
    var x := graph.g.defs[s.car].args[0];
    var meta := if x.NodeArg? && x.n in graph.g.defs then graph.g.defs[x.n].meta else None;
    var fused := graph.InsertBefore(
      s.before, Node(FusedAllReduceNorm(UseRaw(s)), [x, s.residual, s.weight, s.eps, cfg.commId], map[], None));
    InsertItems(graph, cfg, s, fused, meta, g);
  }

  lemma ExtendedParts(cfg: Config, g: Graph, s: Site, h: Graph, i: nat)
    requires Extended(cfg, g, s, h, i)
    ensures g.defs.Keys <= h.defs.Keys && g.New() in h.defs && h.Valid()
  {
    forall n | n in g.defs.Keys ensures n in h.defs.Keys {}
  }

  method InsertItems(graph: FxGraph, cfg: Config, s: Site, fused: Id, meta: Option<TensorMeta>, ghost g: Graph)
    requires s.before in g.defs && Extended(cfg, g, s, graph.g, 0) && fused == g.New() && meta == ItemMeta(g, s)
    modifies graph
    ensures graph.g == WithItems(g, s, old(graph.g), 0)
    ensures Extended(cfg, g, s, graph.g, OutputCount(s))
  {
    assert s.before in graph.g.defs && fused in graph.g.defs;
    assert graph.g.Valid() && OutputCount(s) >= 0;
    hide Extended, ItemMeta, OutputCount;
    ghost var start := graph.g;
    ItemsExtended(cfg, g, s, start, 0);
    var i := 0;
    while i < OutputCount(s)
      invariant 0 <= i <= OutputCount(s) && Extended(cfg, g, s, graph.g, i)
      invariant WithItems(g, s, graph.g, i) == WithItems(g, s, start, 0)
      invariant s.before in graph.g.defs && fused in graph.g.defs && graph.g.Valid()
    {
      var node := ItemOf(fused, i, meta);
      ItemOfRefs(fused, i, meta);
      ItemExtended(cfg, g, s, graph.g, i);
      WithItemsStep(g, s, graph.g, i, node);
      ExtendedParts(cfg, g, s, graph.g.Inserted(s.before, node), i + 1);
      var item := graph.InsertBefore(s.before, node);
      i := i + 1;
    }
  }

  /** Both arms hand the all-reduce's other readers over to the raw output. */
  method ReplaceRaw(graph: FxGraph, s: Site, raw: Id)
    requires graph.g.Valid() && (UseRaw(s) ==> raw in graph.g.defs)
    modifies graph
    ensures graph.g.Valid()
    ensures graph.g == if UseRaw(s) then old(graph.g).Renamed(s.others, map[s.car := raw])
                             else old(graph.g)
  {
    if UseRaw(s) {
      graph.ReplaceInput(s.others, s.car, raw);
    }
  }

  method EraseIfUnused(graph: FxGraph, n: Id)
    requires graph.g.Valid()
    modifies graph
    ensures graph.g.Valid() && graph.g == old(graph.g).ErasedIfUnused(n)
  {
    if n in graph.g.defs && graph.g.Users(n) == {} {
      graph.Erase(n);
    }
  }

  /** Each replaced node's readers read its item instead. */
  method RewireOuts(graph: FxGraph, outs: map<Id, Id>)
    requires graph.g.Valid() && forall u | u in outs :: outs[u] in graph.g.defs && outs[u] !in outs
    modifies graph
    ensures graph.g.Valid() && graph.g == old(graph.g).Renamed(old(graph.g).defs.Keys, outs)
  {
    ghost var h := graph.g;
    var todo, done: map<Id, Id> := outs.Keys, map[];
    RenamedByNothing(h);
    while todo != {}
      invariant done.Keys == outs.Keys - todo && todo <= outs.Keys
      invariant forall u | u in done :: done[u] == outs[u]
      invariant graph.g == h.Renamed(h.defs.Keys, done) && graph.g.Valid()
      decreases todo
    {
      var u := AnyOf(todo);
      RenamedStep(h, done, u, outs[u]);
      graph.ReplaceInput(graph.g.Users(u), u, outs[u]);
      todo, done := todo - {u}, done[u := outs[u]];
    }
    assert forall u | u in outs :: u in done && done[u] == outs[u];
    assert done == outs;
  }

  /** The arm for `fused_add_rms_norm` and its getitem users. */
  method RewriteFusedAdd(graph: FxGraph, cfg: Config, s: Site, f: Id)
    requires graph.g.Valid() && Matched(cfg, graph.g, s) && s.husk == Some(f)
    modifies graph
    ensures graph.g.Valid() && graph.g == Fused(cfg, old(graph.g), s)
  {
    hide Matched, Extended, Graph.Valid;
    var g := graph.g;
    InsertFusedOp(graph, cfg, s);
    ghost var h := graph.g;
    ReplacementFits(cfg, g, s, h);
    RewireOuts(graph, Replacement(g, s));
    assert graph.g == OutsRewired(g, s, h);
    ReplaceRaw(graph, s, Item(g, 2));
    assert graph.g == Rewired(g, s, h);
    SweptValid(cfg, g, s, h);
    EraseAll(graph, s.outs.Keys);
    EraseIfUnused(graph, f);
    EraseIfUnused(graph, s.car);
  }

  lemma ReplacementFits(cfg: Config, g: Graph, s: Site, h: Graph)
    requires g.Valid() && Matched(cfg, g, s) && Extended(cfg, g, s, h, OutputCount(s))
    ensures forall u | u in s.outs :: Replacement(g, s)[u] in h.defs && Replacement(g, s)[u] !in s.outs
    ensures h.Valid() && s.outs.Keys <= h.defs.Keys
    ensures Item(g, 0) in h.defs && Item(g, 1) in h.defs && (UseRaw(s) ==> Item(g, 2) in h.defs)
    ensures forall u | u in s.outs :: u in g.defs && u < g.next
    ensures s.car in g.defs && s.car < g.next
    ensures Rewired(g, s, h).defs.Keys == h.defs.Keys
  {
    forall n | n in s.outs.Keys ensures n in h.defs.Keys {}
  }

  lemma RenamedByNothing(h: Graph)
    ensures h.Renamed(h.defs.Keys, map[]) == h
  {
    forall m | m in h.defs { RenameNothing(h.defs[m], map[]); }
    assert h.Renamed(h.defs.Keys, map[]).defs == h.defs;
  }

  method EraseAll(graph: FxGraph, ns: set<Id>)
    requires graph.g.Valid() && ns <= graph.g.defs.Keys
    requires forall n | n in ns :: graph.g.Users(n) == {}
    modifies graph
    ensures graph.g.Valid() && graph.g == old(graph.g).Erased(ns)
  {
    ghost var g := graph.g;
    var todo := ns;
    ErasedNone(g);
    assert ns - todo == {};
    while todo != {}
      invariant todo <= ns && graph.g == g.Erased(ns - todo) && graph.g.Valid()
      decreases todo
    {
      var n := AnyOf(todo);
      assert graph.g.Users(n) <= g.Users(n);
      ErasedTwice(g, ns - todo, {n});
      assert ns - todo + {n} == ns - (todo - {n});
      graph.Erase(n);
      todo := todo - {n};
    }
    assert ns - {} == ns;
  }

  lemma ErasedNone(g: Graph)
    ensures g.Erased({}) == g
  {
    WithoutNothing(g.order);
    assert g.defs - {} == g.defs;
  }

  lemma {:induction false} WithoutNothing(order: seq<Id>)
    ensures Without(order, {}) == order
  {
    if order != [] { WithoutNothing(order[1..]); }
  }

  /** The add arm leaves the RMSNorm itself alone, since it is erased next. */
  method RewireAdd(graph: FxGraph, add: Id, rms: Id, norm: Id, sum: Id)
    requires graph.g.Valid() && add != rms && add != norm && norm in graph.g.defs && sum in graph.g.defs
    requires rms in graph.g.defs && rms != norm && rms != sum
    modifies graph
    ensures graph.g.Valid() && rms !in graph.g.Users(rms)
    ensures SameBut(graph.g, old(graph.g).Renamed(old(graph.g).defs.Keys, map[rms := norm, add := sum]), rms)
  {
    ghost var h := graph.g;
    graph.ReplaceInput(graph.g.Users(rms), rms, norm);
    RenamedUses(h, h.Users(rms), map[rms := norm], rms, rms);
    assert rms !in Refs(graph.g.defs[rms]);
    graph.ReplaceInput(graph.g.Users(add) - {rms}, add, sum);
    forall m | m in h.defs && m != rms
      ensures graph.g.defs[m] == Rename(h.defs[m], map[rms := norm, add := sum])
    {
      AddRenamed(h, add, rms, norm, sum, m);
    }
  }

  lemma AddRenamed(h: Graph, add: Id, rms: Id, norm: Id, sum: Id, m: Id)
    requires add != rms && add != norm && m in h.defs && m != rms
    ensures var h1 := h.Renamed(h.Users(rms), map[rms := norm]);
            h1.Renamed(h1.Users(add) - {rms}, map[add := sum]).defs[m] ==
            Rename(h.defs[m], map[rms := norm, add := sum])
  {
    var first, second := map[rms := norm], map[add := sum];
    var h1 := h.Renamed(h.Users(rms), first);
    if m !in h.Users(rms) { RenameNothing(h.defs[m], first); }
    assert h1.defs[m] == Rename(h.defs[m], first);
    if m !in h1.Users(add) { RenameNothing(h1.defs[m], second); }
    RenameTwice(h.defs[m], first, second);
    assert first + second == map[rms := norm, add := sum];
  }

  lemma AddReplacement(g: Graph, s: Site, add: Id, rms: Id)
    requires add != rms && s.outs == map[rms := 0, add := 1]
    ensures Replacement(g, s) == map[rms := Item(g, 0), add := Item(g, 1)]
  {
  }

  lemma SameButRaw(g: Graph, h: Graph, n: Id, ms: set<Id>, sub: map<Id, Id>)
    requires SameBut(g, h, n)
    ensures SameBut(g.Renamed(ms, sub), h.Renamed(ms, sub), n)
  {
  }

  /** Erases the RMSNorm, then the add and the all-reduce unless they still have users. */
  method SweepAdd(graph: FxGraph, s: Site, add: Id, rms: Id, ghost want: Graph)
    requires graph.g.Valid() && want.Valid() && SameBut(graph.g, want, rms)
    requires s.husk == None && add != rms && s.outs.Keys == {rms, add} && {rms, add} <= want.defs.Keys
    requires want.Users(rms) == {} && want.Users(add) == {} && rms !in graph.g.Users(rms)
    modifies graph
    ensures graph.g.Valid() && graph.g == Swept(s, want)
  {
    SameButErased(graph.g, want, rms);
    forall m | m in graph.g.defs
      ensures m !in graph.g.Users(rms)
    {
      assert m !in want.Users(rms);
    }
    assert graph.g.Users(rms) == {};
    graph.Erase(rms);
    assert graph.g.Users(add) <= want.Users(add);
    ErasedTwice(want, {rms}, {add});
    assert {rms} + {add} == s.outs.Keys;
    EraseIfUnused(graph, add);
    EraseIfUnused(graph, s.car);
  }

  lemma ReadyToSweep(cfg: Config, g: Graph, s: Site, h: Graph, add: Id, rms: Id)
    requires g.Valid() && Matched(cfg, g, s) && Extended(cfg, g, s, h, OutputCount(s))
    requires s.outs.Keys == {rms, add} && s.husk == None
    ensures Rewired(g, s, h).Valid() && {rms, add} <= Rewired(g, s, h).defs.Keys
    ensures Rewired(g, s, h).Users(rms) == {} && Rewired(g, s, h).Users(add) == {}
  {
    SweptValid(cfg, g, s, h);
    RewiredValid(cfg, g, s, h);
  }

  method RewireAddSite(graph: FxGraph, g: Graph, s: Site, add: Id, rms: Id, ghost h: Graph)
    requires graph.g == h && h.Valid() && add != rms && s.outs == map[rms := 0, add := 1]
    requires Item(g, 0) in h.defs && Item(g, 1) in h.defs && (UseRaw(s) ==> Item(g, 2) in h.defs)
    requires rms in h.defs && rms < g.next && add < g.next && s.car < g.next
    modifies graph
    ensures graph.g.Valid() && rms !in graph.g.Users(rms) && SameBut(graph.g, Rewired(g, s, h), rms)
  {
    AddReplacement(g, s, add, rms);
    RewiredIs(g, s, h);
    hide Graph.Valid;
    RewireAdd(graph, add, rms, Item(g, 0), Item(g, 1));
    ghost var h2 := graph.g;
    SameButRaw(h2, OutsRewired(g, s, h), rms, s.others, map[s.car := Item(g, 2)]);
    StillUnread(h2, s.others, s.car, Item(g, 2), rms);
    hide SameBut, Rewired, OutsRewired, Graph.Renamed;
    ReplaceRaw(graph, s, Item(g, 2));
  }

  lemma RewiredIs(g: Graph, s: Site, h: Graph)
    ensures Rewired(g, s, h) == if UseRaw(s) then OutsRewired(g, s, h).Renamed(s.others, map[s.car := Item(g, 2)])
                                else OutsRewired(g, s, h)
    ensures OutsRewired(g, s, h) == h.Renamed(h.defs.Keys, Replacement(g, s))
  {
  }

  lemma StillUnread(g: Graph, ms: set<Id>, a: Id, b: Id, n: Id)
    requires n in g.defs && n !in g.Users(n) && b != n
    ensures n !in g.Renamed(ms, map[a := b]).Users(n)
  {
    RenameRefs(g.defs[n], map[a := b]);
  }

  /** The arm for `add` and the RMSNorm that reads it. */
  method RewriteAdd(graph: FxGraph, cfg: Config, s: Site, add: Id, rms: Id)
    requires graph.g.Valid() && Matched(cfg, graph.g, s)
    requires s.husk == None && add != rms && s.outs == map[rms := 0, add := 1]
    modifies graph
    ensures graph.g.Valid() && graph.g == Fused(cfg, old(graph.g), s)
  {
    hide Matched, Extended, Graph.Valid;
    var g := graph.g;
    InsertFusedOp(graph, cfg, s);
    ghost var h := graph.g;
    ReplacementFits(cfg, g, s, h);
    assert rms in s.outs && add in s.outs;
    RewireAddSite(graph, g, s, add, rms, h);
    ReadyToSweep(cfg, g, s, h, add, rms);
    hide SameBut;
    SweepAdd(graph, s, add, rms, Rewired(g, s, h));
  }

  // ----- the pass -----

  ghost predicate IsCandidate(cfg: Config, g: Graph, car: Id) {
    car in g.defs && IsTargetAllReduce(cfg, g.defs[car]) && |g.defs[car].args| >= 1
  }

  /** No add of this all-reduce can be fused. The pass tries one RMSNorm per add, the first
      of its users, so an unsupported one may hide a supported one. */
  ghost predicate NoAddSite(cfg: Config, g: Graph, car: Id)
    requires car in g.defs
  {
    forall add | add in g.Users(car) && IsAdd(g.defs[add]) ::
      (forall rms :: !IsNormOf(g, add, rms)) || (exists rms :: IsNormOf(g, add, rms) && AddSite(cfg, g, car, add, rms) == None)
  }

  /** What visiting one node of the snapshot does to the graph. */
  ghost predicate Visited(cfg: Config, g: Graph, car: Id, g': Graph) {
    if !IsCandidate(cfg, g, car) then g' == g
    else if exists f :: FusedAddSite(cfg, g, car, f).Some? then
      exists f :: FusedAddSite(cfg, g, car, f).Some? && g' == Fused(cfg, g, FusedAddSite(cfg, g, car, f).value)
    else
      || (NoAddSite(cfg, g, car) && g' == g)
      || exists add, rms :: AddSite(cfg, g, car, add, rms).Some?
                            && g' == Fused(cfg, g, AddSite(cfg, g, car, add, rms).value)
  }

  method FindFusedAdd(cfg: Config, g: Graph, car: Id) returns (found: Option<Id>)
    requires car in g.defs
    ensures found.Some? ==> FusedAddSite(cfg, g, car, found.value).Some?
    ensures found == None ==> forall f :: FusedAddSite(cfg, g, car, f) == None
  {
    var todo := g.Users(car);
    while todo != {}
      invariant forall f | f in g.Users(car) && f !in todo :: FusedAddSite(cfg, g, car, f) == None
      decreases todo
    {
      var f := AnyOf(todo);
      if FusedAddSite(cfg, g, car, f).Some? { return Some(f); }
      todo := todo - {f};
    }
    return None;
  }

  method FindAdd(cfg: Config, g: Graph, car: Id) returns (found: Option<(Id, Id)>)
    requires car in g.defs
    ensures found.Some? ==> AddSite(cfg, g, car, found.value.0, found.value.1).Some?
    ensures found == None ==> NoAddSite(cfg, g, car)
  {
    var todo := g.Users(car);
    while todo != {}
      invariant forall add | add in g.Users(car) && add !in todo && IsAdd(g.defs[add]) ::
                  (forall rms :: !IsNormOf(g, add, rms))
                  || (exists rms :: IsNormOf(g, add, rms) && AddSite(cfg, g, car, add, rms) == None)
      decreases todo
    {
      var add := AnyOf(todo);
      var norms := set rms | rms in g.Users(add) && IsNormOf(g, add, rms);
      if norms != {} {
        var rms := AnyOf(norms);
        if AddSite(cfg, g, car, add, rms).Some? { return Some((add, rms)); }
      } else {
        assert forall rms :: IsNormOf(g, add, rms) ==> rms in norms;
      }
      todo := todo - {add};
    }
    return None;
  }

  /** The snapshot's nodes are visited in order; `trace` records the graph between visits. */
  ghost predicate IsRun(cfg: Config, snapshot: seq<Id>, trace: seq<Graph>) {
    && |trace| == |snapshot| + 1
    && forall i | 0 <= i < |snapshot| :: Visited(cfg, trace[i], snapshot[i], trace[i + 1])
  }

  function Grown(trace: seq<Graph>, count: int): nat {
    if |trace| <= 1 then 0
    else Grown(trace[..|trace| - 1], count) + (if trace[|trace| - 1].next == trace[|trace| - 2].next + count then 1 else 0)
  }

  /** Visits one node: fuses it through the first arm that has a site. */
  method VisitNode(graph: FxGraph, cfg: Config, car: Id) returns (fused: Option<bool>)
    requires graph.g.Valid()
    modifies graph
    ensures graph.g.Valid() && Visited(cfg, old(graph.g), car, graph.g)
    ensures graph.g.next == old(graph.g).next + (if fused == None then 0 else if fused.value then 4 else 3)
  {
    hide Graph.Valid;
    ghost var g := graph.g;
    var isTarget := car in graph.g.defs && IsTargetAllReduce(cfg, graph.g.defs[car]) && |graph.g.defs[car].args| >= 1;
    if !isTarget { return None; }
    var f := FindFusedAdd(cfg, graph.g, car);
    if f.Some? {
      var s := FusedAddSite(cfg, graph.g, car, f.value).value;
      FusedAddSiteMatched(cfg, g, s, f.value);
      FusedNext(cfg, g, s);
      RewriteFusedAdd(graph, cfg, s, f.value);
      return Some(UseRaw(s));
    }
    var found := FindAdd(cfg, graph.g, car);
    if found.Some? {
      var (add, rms) := found.value;
      var s := AddSite(cfg, graph.g, car, add, rms).value;
      AddSiteMatched(cfg, g, s, add, rms);
      FusedNext(cfg, g, s);
      RewriteAdd(graph, cfg, s, add, rms);
      return Some(UseRaw(s));
    }
    return None;
  }

  lemma FusedNext(cfg: Config, g: Graph, s: Site)
    requires g.Valid() && Matched(cfg, g, s)
    ensures Fused(cfg, g, s).next == g.next + (if UseRaw(s) then 4 else 3)
  {
    hide WithFused, Rewired, Swept, Graph.Valid;
    WithFusedExtended(cfg, g, s);
    SameNext(g, s, WithFused(cfg, g, s));
  }

  lemma SameNext(g: Graph, s: Site, h: Graph)
    ensures Swept(s, Rewired(g, s, h)).next == h.next
  {
  }

  lemma FusedAddCar(cfg: Config, g: Graph, car: Id, f: Id)
    requires car in g.defs && FusedAddSite(cfg, g, car, f).Some?
    ensures FusedAddSite(cfg, g, car, f).value.car == car
  {
    hide Supported;
  }

  lemma AddCar(cfg: Config, g: Graph, car: Id, add: Id, rms: Id)
    requires car in g.defs && AddSite(cfg, g, car, add, rms).Some?
    ensures AddSite(cfg, g, car, add, rms).value.car == car
  {
    hide Supported;
  }

  lemma LongerRun(cfg: Config, snapshot: seq<Id>, i: nat, trace: seq<Graph>, g: Graph)
    requires i < |snapshot| && IsRun(cfg, snapshot[..i], trace) && Visited(cfg, trace[|trace| - 1], snapshot[i], g)
    ensures IsRun(cfg, snapshot[..i + 1], trace + [g])
  {
    hide Visited;
    var longer := trace + [g];
    forall j | 0 <= j < i + 1
      ensures Visited(cfg, longer[j], snapshot[..i + 1][j], longer[j + 1])
    {
      assert j < i ==> snapshot[..i][j] == snapshot[..i + 1][j];
    }
  }

  lemma GrownLonger(trace: seq<Graph>, g: Graph, count: int)
    requires trace != []
    ensures Grown(trace + [g], count) == Grown(trace, count) + (if g.next == trace[|trace| - 1].next + count then 1 else 0)
  {
    assert (trace + [g])[..|trace|] == trace;
  }

  /** The pass: rewrites, then lints if anything changed. It counts the rewrites of each form. */
  method RewriteAllReduces(graph: FxGraph, cfg: Config)
    returns (noRaw: nat, raw: nat, ok: bool, ghost trace: seq<Graph>)
    requires graph.g.Valid()
    modifies graph
    ensures graph.g.Valid() && IsRun(cfg, old(graph.g).order, trace)
    ensures |trace| > 0 && trace[0] == old(graph.g) && trace[|trace| - 1] == graph.g
    ensures noRaw == Grown(trace, 3) && raw == Grown(trace, 4)
    ensures ok <==> noRaw + raw == 0 || LintClean(graph.g)
  {
    var snapshot := graph.g.order;
    noRaw, raw, trace := 0, 0, [graph.g];
    assert IsRun(cfg, snapshot[..0], trace);
    assert Grown(trace, 3) == Grown(trace, 4) == 0;
    hide Graph.Valid, IsRun, Grown, Visited, LintClean;
    for i := 0 to |snapshot|
      invariant graph.g.Valid() && IsRun(cfg, snapshot[..i], trace)
      invariant |trace| == i + 1 && trace[0] == old(graph.g) && trace[i] == graph.g
      invariant noRaw == Grown(trace, 3) && raw == Grown(trace, 4)
    {
      var fused := VisitNode(graph, cfg, snapshot[i]);
      LongerRun(cfg, snapshot, i, trace, graph.g);
      GrownLonger(trace, graph.g, 3);
      GrownLonger(trace, graph.g, 4);
      trace := trace + [graph.g];
      if fused == Some(false) { noRaw := noRaw + 1; }
      if fused == Some(true) { raw := raw + 1; }
    }
    assert snapshot[..|snapshot|] == snapshot;
    ok := true;
    if noRaw + raw > 0 { ok := graph.Lint(); }
  }

  // ----- what a whole run preserves -----

  /** A visit that fused an add with the all-reduce as its second argument. */
  ghost predicate Swaps(cfg: Config, g: Graph, car: Id, g': Graph) {
    exists s: Site :: s.car == car && IsSite(cfg, g, s) && |g.defs[car].args| >= 1 && g' == Fused(cfg, g, s) && Swapped(cfg, g, s)
  }

  lemma VisitKeeps(I: Interp, cfg: Config, g: Graph, car: Id, g': Graph, v: Valuation) returns (w: Valuation)
    requires g.Valid() && Visited(cfg, g, car, g') && Solves(I, g, v)
    requires g' != g && Swaps(cfg, g, car, g') ==> AddCommutes(I)
    ensures g'.Valid() && Solves(I, g', w) && forall n | n in v :: n in w && w[n] == v[n]
  {
    hide Graph.Valid, Solves;
    w := v;
    if g' != g {
      var s: Site :| s.car == car && IsSite(cfg, g, s) && g' == Fused(cfg, g, s);
      FusedValid(cfg, g, s);
      w := FusedSolves(I, cfg, g, s, v);
    }
  }

  lemma {:induction false} RunKeeps(I: Interp, cfg: Config, snapshot: seq<Id>, trace: seq<Graph>, v: Valuation)
    returns (w: Valuation)
    requires IsRun(cfg, snapshot, trace) && trace[0].Valid() && Solves(I, trace[0], v)
    requires forall i | 0 <= i < |snapshot| && trace[i + 1] != trace[i] && Swaps(cfg, trace[i], snapshot[i], trace[i + 1]) ::
               AddCommutes(I)
    ensures var last := trace[|trace| - 1];
            last.Valid() && Solves(I, last, w) && forall n | n in v :: n in w && w[n] == v[n]
    decreases |snapshot|
  {
    hide Graph.Valid, Solves;
    w := v;
    if snapshot != [] {
      w := VisitKeeps(I, cfg, trace[0], snapshot[0], trace[1], v);
      assert IsRun(cfg, snapshot[1..], trace[1..]);
      w := RunKeeps(I, cfg, snapshot[1..], trace[1..], w);
    }
  }

  /** Whatever the uninterpreted operators are: if the list the pass leaves is still lint-clean,
      every surviving node evaluates to what it evaluated to before. The add has to commute only
      if the pass fused one that has its all-reduce second. */
  lemma RewritePreservesOutcome(I: Interp, cfg: Config, snapshot: seq<Id>, trace: seq<Graph>)
    requires IsRun(cfg, snapshot, trace)
    requires forall i | 0 <= i < |snapshot| && trace[i + 1] != trace[i] && Swaps(cfg, trace[i], snapshot[i], trace[i + 1]) ::
               AddCommutes(I)
    requires trace[0].Valid() && LintClean(trace[0]) && LintClean(trace[|trace| - 1])
    ensures var before, after := trace[0], trace[|trace| - 1];
            && after.Valid()
            && forall n | n in before.defs && n in after.defs ::
                 && n in Outcome(I, before) && n in Outcome(I, after)
                 && Outcome(I, after)[n] == Outcome(I, before)[n]
  {
    var before, after := trace[0], trace[|trace| - 1];
    OutcomeSolves(I, before);
    var w := RunKeeps(I, cfg, snapshot, trace, Outcome(I, before));
    OutcomeUnique(I, before, Outcome(I, before));
    OutcomeUnique(I, after, w);
  }

  /** The operators the pass takes nodes of. */
  predicate Consumable(t: Target) {
    t in {AllReduce, AddTensor, RmsNormIr, FusedAddRmsNorm, GetItem}
  }

  lemma SiteConsumes(cfg: Config, g: Graph, s: Site)
    requires g.Valid() && IsSite(cfg, g, s)
    ensures forall u | u in s.outs :: u in g.defs && Consumable(g.defs[u].target)
    ensures s.husk.Some? ==> s.husk.value in g.defs && Consumable(g.defs[s.husk.value].target)
    ensures Consumable(g.defs[s.car].target)
  {
    hide FusedAddSite, AddSite, Graph.Valid;
    if f :| FusedAddSite(cfg, g, s.car, f) == Some(s) {
      FusedAddTargets(cfg, g, s, f);
    } else {
      var add, rms :| AddSite(cfg, g, s.car, add, rms) == Some(s);
      AddTargets(cfg, g, s, add, rms);
    }
  }

  lemma FusedKeepsNode(cfg: Config, g: Graph, s: Site, n: Id)
    requires g.Valid() && Matched(cfg, g, s)
    requires n in g.defs && n !in s.outs && s.husk != Some(n) && n != s.car
    ensures n in Fused(cfg, g, s).defs && Fused(cfg, g, s).defs[n].target == g.defs[n].target
  {
    WithFusedExtended(cfg, g, s);
    var h := WithFused(cfg, g, s);
    RewiredNodes(cfg, g, s, h);
    assert n in h.defs;
    hide Rewired, Matched, Extended, Graph.Valid;
    SweptKeeps(s, Rewired(g, s, h), n);
  }

  lemma SweptKeeps(s: Site, h: Graph, n: Id)
    requires n in h.defs && n !in s.outs && s.husk != Some(n) && n != s.car
    ensures n in Swept(s, h).defs && Swept(s, h).defs[n] == h.defs[n]
  {
  }

  /** Nodes of any other operator, the outputs among them, survive the whole pass. */
  lemma {:induction false} OthersSurvive(cfg: Config, snapshot: seq<Id>, trace: seq<Graph>, n: Id)
    requires IsRun(cfg, snapshot, trace) && trace[0].Valid()
    requires n in trace[0].defs && !Consumable(trace[0].defs[n].target)
    ensures n in trace[|trace| - 1].defs && trace[|trace| - 1].defs[n].target == trace[0].defs[n].target
    decreases |snapshot|
  {
    hide Graph.Valid, Matched;
    if snapshot != [] {
      var g, g' := trace[0], trace[1];
      if g' != g {
        var s: Site :| s.car == snapshot[0] && IsSite(cfg, g, s) && g' == Fused(cfg, g, s);
        FusedValid(cfg, g, s);
        SiteMatched(cfg, g, s);
        SiteConsumes(cfg, g, s);
        FusedKeepsNode(cfg, g, s, n);
      }
      assert IsRun(cfg, snapshot[1..], trace[1..]);
      OthersSurvive(cfg, snapshot[1..], trace[1..], n);
    }
  }
}
