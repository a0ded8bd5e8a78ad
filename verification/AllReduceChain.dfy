/** What the fused operator's outputs let the rest of the pass do: their metadata is the
    all-reduce's, so fusing one layer leaves the others fusable and a chain is fused in full. */
module AllReduceChain {
  import opened Options
  import opened FxGraph
  import opened PureEval
  import opened AllReduceFusion
  import opened AllReduceRewrite

  // ----- a surviving node after one rewrite -----

  /** What node `m` reads where it read `a`. */
  function NewArg(g: Graph, s: Site, m: Id, a: Arg): Arg {
    var b := RenameArg(a, Replacement(g, s));
    if m in s.others then RenameArg(b, map[s.car := Item(g, 2)]) else b
  }

  function NewNode(g: Graph, s: Site, m: Id): Node
    requires m in g.defs
  {
    var b := Rename(g.defs[m], Replacement(g, s));
    if m in s.others then Rename(b, map[s.car := Item(g, 2)]) else b
  }

  lemma NewNodeArgs(g: Graph, s: Site, m: Id)
    requires m in g.defs
    ensures var (was, node) := (g.defs[m], NewNode(g, s, m));
            && node.target == was.target && node.meta == was.meta && |node.args| == |was.args| && node.kwargs.Keys == was.kwargs.Keys
            && (forall i | 0 <= i < |was.args| :: node.args[i] == NewArg(g, s, m, was.args[i]))
            && (forall k | k in was.kwargs :: node.kwargs[k] == NewArg(g, s, m, was.kwargs[k]))
  {
  }

  /** Neither taken over nor erased. */
  predicate Stays(s: Site, n: Id) {
    n !in s.outs && s.husk != Some(n) && n != s.car
  }

  lemma NodeKept(cfg: Config, g: Graph, s: Site, n: Id)
    requires g.Valid() && Matched(cfg, g, s) && n in g.defs && Stays(s, n)
    ensures n in Fused(cfg, g, s).defs && Fused(cfg, g, s).defs[n] == NewNode(g, s, n)
  {
    WithFusedExtended(cfg, g, s);
    var h := WithFused(cfg, g, s);
    assert n in h.defs && h.defs[n] == g.defs[n];
    hide Matched, Extended, Graph.Valid;
    SweptKeeps(s, Rewired(g, s, h), n);
  }

  // ----- the outputs -----

  lemma {:induction false} ItemsThere(cfg: Config, g: Graph, s: Site, h: Graph, i: nat, k: nat)
    requires s.car in g.defs && |g.defs[s.car].args| >= 1 && h.next == g.next + 1 + i && i <= OutputCount(s) && k < OutputCount(s)
    requires k < i ==> Item(g, k) in h.defs && h.defs[Item(g, k)] == ItemOf(g.New(), k, ItemMeta(g, s))
    ensures var r := WithItems(g, s, h, i); Item(g, k) in r.defs && r.defs[Item(g, k)] == ItemOf(g.New(), k, ItemMeta(g, s))
    decreases OutputCount(s) - i
  {
    if i < OutputCount(s) {
      ItemsThere(cfg, g, s, h.Inserted(s.before, ItemOf(g.New(), i, ItemMeta(g, s))), i + 1, k);
    }
  }

  lemma SiteSupported(cfg: Config, g: Graph, s: Site)
    requires g.Valid() && IsSite(cfg, g, s)
    ensures Supported(cfg, g, s.car, s.residual, s.weight)
  {
    hide Supported, Graph.Valid;
  }

  /** The gate admits an all-reduce only where its input's metadata is its own. */
  lemma SupportedMeta(cfg: Config, g: Graph, car: Id, residual: Arg, weight: Arg)
    requires car in g.defs && Supported(cfg, g, car, residual, weight)
    ensures |g.defs[car].args| >= 1 && Meta(g, g.defs[car].args[0]) == g.defs[car].meta
    ensures Meta(g, residual) == g.defs[car].meta && g.defs[car].meta.Some?
  {
  }

  /** Every output of the fused operator carries the metadata of the all-reduce it replaces. */
  lemma OutputMeta(cfg: Config, g: Graph, s: Site, k: nat)
    requires g.Valid() && IsSite(cfg, g, s) && k < OutputCount(s)
    ensures |g.defs[s.car].args| >= 1
    ensures var g' := Fused(cfg, g, s);
            && Item(g, k) in g'.defs && g'.defs[Item(g, k)].target.GetItem?
            && g'.defs[Item(g, k)].meta == g.defs[s.car].meta && g.defs[s.car].meta.Some?
  {
    SiteMatched(cfg, g, s);
    SiteSupported(cfg, g, s);
    SupportedMeta(cfg, g, s.car, s.residual, s.weight);
    ItemsThere(cfg, g, s, g.Inserted(s.before, FusedNode(cfg, g, s)), 0, k);
    OldNodes(cfg, g, s);
    hide Supported, IsSite, Matched, Graph.Valid, ItemMeta, Rewired, WithFused;
    var h := WithFused(cfg, g, s);
    assert Item(g, k) in h.defs by { WithFusedIs(cfg, g, s); }
    RewiredMeta(g, s, h, Item(g, k));
    SweptKeeps(s, Rewired(g, s, h), Item(g, k));
    WithFusedIs(cfg, g, s);
    ItemMetaIs(g, s);
  }

  lemma WithFusedIs(cfg: Config, g: Graph, s: Site)
    requires s.car in g.defs && |g.defs[s.car].args| >= 1
    ensures WithFused(cfg, g, s) == WithItems(g, s, g.Inserted(s.before, FusedNode(cfg, g, s)), 0)
  {
  }

  lemma ItemMetaIs(g: Graph, s: Site)
    requires s.car in g.defs && |g.defs[s.car].args| >= 1
    ensures ItemMeta(g, s) == Meta(g, g.defs[s.car].args[0])
  {
  }

  lemma OldNodes(cfg: Config, g: Graph, s: Site)
    requires g.Valid() && IsSite(cfg, g, s)
    ensures s.car in g.defs && s.car < g.next && (forall u | u in s.outs :: u in g.defs && u < g.next)
    ensures s.husk.Some? ==> s.husk.value in g.defs && s.husk.value < g.next
  {
    hide FusedAddSite, AddSite;
    SiteTargets(cfg, g, s);
  }

  lemma RewiredMeta(g: Graph, s: Site, h: Graph, n: Id)
    requires n in h.defs
    ensures n in Rewired(g, s, h).defs
    ensures Rewired(g, s, h).defs[n].meta == h.defs[n].meta && Rewired(g, s, h).defs[n].target == h.defs[n].target
  {
  }

  // ----- what the others see -----

  /** What the rewrite takes over was typed like the all-reduce. */
  ghost predicate Typed(g: Graph, s: Site) {
    s.car in g.defs && forall u | u in s.outs :: u in g.defs && g.defs[u].meta == g.defs[s.car].meta
  }

  /** Node `m` stays, and what it reads of the all-reduce it reads as one of its other readers. */
  predicate StaysReader(g: Graph, s: Site, m: Id) {
    m in g.defs && Stays(s, m) && (s.car in Refs(g.defs[m]) ==> m in s.others)
  }

  lemma HuskUsers(cfg: Config, g: Graph, s: Site)
    requires IsSite(cfg, g, s) && s.husk.Some?
    ensures g.Users(s.husk.value) == s.outs.Keys
  {
    hide Supported;
    if f :| FusedAddSite(cfg, g, s.car, f) == Some(s) {
      HuskOf(cfg, g, s, f);
    }
  }

  lemma HuskOf(cfg: Config, g: Graph, s: Site, f: Id)
    requires s.car in g.defs && FusedAddSite(cfg, g, s.car, f) == Some(s)
    ensures s.husk == Some(f) && g.Users(f) == s.outs.Keys
  {
    hide Supported;
  }

  lemma NewArgIs(g: Graph, s: Site, m: Id, a: Arg)
    requires s.car < g.next && s.car !in s.outs && (forall u | u in s.outs :: 0 <= s.outs[u]) && (a == NodeArg(s.car) ==> m in s.others)
    ensures NewArg(g, s, m, a) ==
            if a.NodeArg? && a.n in s.outs then NodeArg(Item(g, s.outs[a.n]))
            else if a == NodeArg(s.car) then NodeArg(Item(g, 2)) else a
  {
  }

  lemma MetaMoved(cfg: Config, g: Graph, s: Site, n: Id)
    requires g.Valid() && IsSite(cfg, g, s) && Typed(g, s)
    ensures |g.defs[s.car].args| >= 1
    ensures n in s.outs ==> Meta(Fused(cfg, g, s), NodeArg(Item(g, s.outs[n]))) == Meta(g, NodeArg(n))
    ensures UseRaw(s) ==> Meta(Fused(cfg, g, s), NodeArg(Item(g, 2))) == Meta(g, NodeArg(s.car))
  {
    SiteMatched(cfg, g, s);
    hide IsSite, Fused, Graph.Valid;
    if n in s.outs { OutputMeta(cfg, g, s, s.outs[n]); }
    if UseRaw(s) { OutputMeta(cfg, g, s, 2); }
  }

  lemma MetaStays(cfg: Config, g: Graph, s: Site, n: Id)
    requires g.Valid() && IsSite(cfg, g, s) && n in g.defs && Stays(s, n)
    ensures |g.defs[s.car].args| >= 1 && Meta(Fused(cfg, g, s), NodeArg(n)) == Meta(g, NodeArg(n))
  {
    SiteMatched(cfg, g, s);
    hide IsSite, Fused, Graph.Valid;
    NodeKept(cfg, g, s, n);
    NewNodeArgs(g, s, n);
  }

  lemma NotHusk(cfg: Config, g: Graph, s: Site, m: Id, n: Id)
    requires IsSite(cfg, g, s) && m in g.defs && m !in s.outs && n in Refs(g.defs[m])
    ensures s.husk != Some(n)
  {
    hide IsSite, Refs;
    if s.husk == Some(n) {
      HuskUsers(cfg, g, s);
      UsedBy(g, n, m);
    }
  }

  /** Whatever a staying node reads keeps its metadata, renamed or not. */
  lemma MetaKept(cfg: Config, g: Graph, s: Site, m: Id, a: Arg)
    requires g.Valid() && IsSite(cfg, g, s) && Typed(g, s) && StaysReader(g, s, m) && (a.NodeArg? ==> a.n in Refs(g.defs[m]))
    ensures |g.defs[s.car].args| >= 1 && Meta(Fused(cfg, g, s), NewArg(g, s, m, a)) == Meta(g, a)
  {
    SiteMatched(cfg, g, s);
    OldNodes(cfg, g, s);
    hide IsSite, Refs, Fused, Graph.Valid, NewArg, Typed;
    NewArgIs(g, s, m, a);
    if a.NodeArg? {
      RefDefined(g, m, a.n);
      MetaMoved(cfg, g, s, a.n);
      NotHusk(cfg, g, s, m, a.n);
      if Stays(s, a.n) { MetaStays(cfg, g, s, a.n); }
    }
  }

  lemma RefDefined(g: Graph, m: Id, n: Id)
    requires g.Valid() && m in g.defs && n in Refs(g.defs[m])
    ensures n in g.defs
  {
  }

  lemma UsedBy(g: Graph, n: Id, m: Id)
    ensures m in g.Users(n) <==> m in g.defs && n in Refs(g.defs[m])
  {
  }

  lemma SupportedKept(cfg: Config, g: Graph, g': Graph, car: Id, residual: Arg, weight: Arg, residual': Arg, weight': Arg)
    requires car in g.defs && Supported(cfg, g, car, residual, weight)
    requires car in g'.defs && |g'.defs[car].args| == |g.defs[car].args| && g'.defs[car].meta == g.defs[car].meta
    requires |g.defs[car].args| >= 1 ==> Meta(g', g'.defs[car].args[0]) == Meta(g, g.defs[car].args[0])
    requires Meta(g', residual') == Meta(g, residual) && Meta(g', weight') == Meta(g, weight)
    ensures Supported(cfg, g', car, residual', weight')
  {
  }

  /** Who reads a node that the rewrite does not touch. */
  lemma ReadersKept(cfg: Config, g: Graph, s: Site, m: Id, n: Id)
    requires g.Valid() && IsSite(cfg, g, s) && n in g.defs && n !in s.outs && n != s.car
    ensures |g.defs[s.car].args| >= 1
    ensures m in g.defs && Stays(s, m) ==> (m in Fused(cfg, g, s).Users(n) <==> m in g.Users(n))
    ensures m in Fused(cfg, g, s).Users(n) ==> m in g.Users(n) || m == g.New()
    ensures m == g.New() && m in Fused(cfg, g, s).Users(n) ==>
              Fused(cfg, g, s).defs[m].target.FusedAllReduceNorm?
  {
    hide IsSite, Supported, Rewired, WithFused, Refs;
    SiteMatched(cfg, g, s);
    WithFusedExtended(cfg, g, s);
    var h := WithFused(cfg, g, s);
    RewiredNodes(cfg, g, s, h);
    SweptSubset(s, Rewired(g, s, h), m);
    if m in h.defs { RewiredUses(cfg, g, s, h, m, n); }
    if m in g.defs && Stays(s, m) { SweptKeeps(s, Rewired(g, s, h), m); }
    UsedBy(g, n, m);
    UsedBy(Fused(cfg, g, s), n, m);
  }

  lemma SweptSubset(s: Site, h: Graph, m: Id)
    ensures m in Swept(s, h).defs ==> m in h.defs && Swept(s, h).defs[m] == h.defs[m]
  {
  }

  // ----- the sites of the other all-reduces -----

  lemma Consumed(cfg: Config, g: Graph, s: Site, m: Id)
    requires IsSite(cfg, g, s) && m in g.Users(s.car) && Stays(s, m)
    ensures m in s.others
  {
    hide Supported;
  }

  lemma StayingReads(cfg: Config, g: Graph, s: Site, m: Id)
    requires IsSite(cfg, g, s) && m in g.defs && Stays(s, m)
    ensures StaysReader(g, s, m)
  {
    hide IsSite, Refs;
    UsedBy(g, s.car, m);
    if s.car in Refs(g.defs[m]) { Consumed(cfg, g, s, m); }
  }

  lemma NewGetArg(g: Graph, s: Site, m: Id, i: nat, name: string)
    requires m in g.defs
    ensures GetArg(NewNode(g, s, m), i, name) == NewArg(g, s, m, GetArg(g.defs[m], i, name))
    ensures GetArg(g.defs[m], i, name).NodeArg? ==> GetArg(g.defs[m], i, name).n in Refs(g.defs[m])
  {
    NewNodeArgs(g, s, m);
    hide NewNode;
  }

  lemma NewNormEps(g: Graph, s: Site, m: Id)
    requires m in g.defs
    ensures NormEps(NewNode(g, s, m)) == NewArg(g, s, m, NormEps(g.defs[m]))
  {
    NewNodeArgs(g, s, m);
    hide NewNode;
  }

  /** Only what the rewrite takes over changes its name, and it gets a new one. */
  lemma NewArgKeeps(g: Graph, s: Site, m: Id, a: Arg)
    requires s.car < g.next && s.car !in s.outs && (forall u | u in s.outs :: 0 <= s.outs[u]) && (a == NodeArg(s.car) ==> m in s.others)
    ensures !a.NodeArg? ==> NewArg(g, s, m, a) == a
    ensures a.NodeArg? ==> NewArg(g, s, m, a).NodeArg?
    ensures forall n | n < g.next && n !in s.outs && n != s.car :: NewArg(g, s, m, a) == NodeArg(n) <==> a == NodeArg(n)
  {
    NewArgIs(g, s, m, a);
  }

  /** What both arms need of a staying node. */
  lemma StayingNode(cfg: Config, g: Graph, s: Site, m: Id)
    requires g.Valid() && IsSite(cfg, g, s) && Typed(g, s) && m in g.defs && Stays(s, m)
    ensures |g.defs[s.car].args| >= 1 && m in Fused(cfg, g, s).defs && Fused(cfg, g, s).defs[m] == NewNode(g, s, m)
    ensures s.car < g.next && s.car !in s.outs && (forall u | u in s.outs :: 0 <= s.outs[u])
    ensures s.car in Refs(g.defs[m]) ==> m in s.others
    ensures forall a: Arg | a.NodeArg? ==> a.n in Refs(g.defs[m]) :: Meta(Fused(cfg, g, s), NewArg(g, s, m, a)) == Meta(g, a)
  {
    SiteMatched(cfg, g, s);
    OldNodes(cfg, g, s);
    hide IsSite, Refs, Fused, Graph.Valid, NewArg, Typed;
    StayingReads(cfg, g, s, m);
    NodeKept(cfg, g, s, m);
    forall a: Arg | a.NodeArg? ==> a.n in Refs(g.defs[m])
      ensures Meta(Fused(cfg, g, s), NewArg(g, s, m, a)) == Meta(g, a)
    {
      MetaKept(cfg, g, s, m, a);
    }
  }

  /** A staying all-reduce stays a candidate. */
  lemma CandidateKept(cfg: Config, g: Graph, s: Site, car: Id)
    requires g.Valid() && IsSite(cfg, g, s) && Typed(g, s) && IsCandidate(cfg, g, car) && car != s.car
    ensures Stays(s, car) && |g.defs[s.car].args| >= 1 && IsCandidate(cfg, Fused(cfg, g, s), car)
  {
    SiteTargets(cfg, g, s);
    assert Stays(s, car);
    StayingNode(cfg, g, s, car);
    NewNodeArgs(g, s, car);
    NewGetArg(g, s, car, 1, "comm_id");
    hide IsSite, Refs, Fused, Graph.Valid, NewArg, Typed, NewNode;
    NewArgKeeps(g, s, car, GetArg(g.defs[car], 1, "comm_id"));
  }

  lemma SupportedStays(cfg: Config, g: Graph, s: Site, car: Id, residual: Arg, weight: Arg, residual': Arg, weight': Arg)
    requires g.Valid() && IsSite(cfg, g, s) && Typed(g, s) && IsCandidate(cfg, g, car) && car != s.car
    requires Supported(cfg, g, car, residual, weight)
    requires |g.defs[s.car].args| >= 1
    requires Meta(Fused(cfg, g, s), residual') == Meta(g, residual) && Meta(Fused(cfg, g, s), weight') == Meta(g, weight)
    ensures car in Fused(cfg, g, s).defs && Supported(cfg, Fused(cfg, g, s), car, residual', weight')
  {
    CandidateKept(cfg, g, s, car);
    StayingNode(cfg, g, s, car);
    NewNodeArgs(g, s, car);
    PositionIsRef(g.defs[car], 0);
    hide IsSite, Refs, Fused, Graph.Valid, NewArg, Typed, NewNode, Supported;
    SupportedKept(cfg, g, Fused(cfg, g, s), car, residual, weight, residual', weight');
  }

  lemma AddOuts(cfg: Config, g: Graph, s: Site, add: Id, rms: Id)
    requires s.car in g.defs && AddSite(cfg, g, s.car, add, rms) == Some(s)
    ensures s.outs == map[rms := 0, add := 1] && IsNormOf(g, add, rms) && s.husk == None
    ensures g.defs[add].target.AddTensor?
  {
    hide Supported;
  }

  lemma AddStays(cfg: Config, g: Graph, s: Site, add: Id, rms: Id)
    requires g.Valid() && IsSite(cfg, g, s) && add in g.defs && IsAdd(g.defs[add]) && IsNormOf(g, add, rms) && add !in s.outs
    ensures rms in g.defs && Stays(s, add) && Stays(s, rms)
  {
    hide FusedAddSite, AddSite, Graph.Valid;
    SiteTargets(cfg, g, s);
    if f :| FusedAddSite(cfg, g, s.car, f) == Some(s) {
      FusedAddTargets(cfg, g, s, f);
    } else {
      var a, r :| AddSite(cfg, g, s.car, a, r) == Some(s);
      AddTargets(cfg, g, s, a, r);
      AddOuts(cfg, g, s, a, r);
      assert rms != a;
      assert rms == r ==> add == a;
    }
  }

  lemma OutsGone(cfg: Config, g: Graph, s: Site, u: Id)
    requires g.Valid() && IsSite(cfg, g, s) && u in s.outs
    ensures |g.defs[s.car].args| >= 1 && u !in Fused(cfg, g, s).defs
  {
    SiteMatched(cfg, g, s);
    hide Rewired, WithFused, IsSite;
  }

  /** What the rewritten graph has of the old one, but for what was taken over: nodes of other
      operators with their readers. */
  lemma NormBack(cfg: Config, g: Graph, s: Site, add: Id, rms: Id)
    requires g.Valid() && IsSite(cfg, g, s) && Typed(g, s) && add in g.defs && Stays(s, add)
    requires s.car in g.defs && |g.defs[s.car].args| >= 1 && IsNormOf(Fused(cfg, g, s), add, rms)
    ensures rms in g.defs && Stays(s, rms)
  {
    hide IsSite, Fused, Typed, Refs;
    SiteTargets(cfg, g, s);
    ReadersKept(cfg, g, s, rms, add);
    UsedBy(g, add, rms);
    if rms in s.outs { OutsGone(cfg, g, s, rms); }
    SiteKinds(cfg, g, s);
    FusedTargets(cfg, g, s, rms);
  }

  lemma SiteKinds(cfg: Config, g: Graph, s: Site)
    requires g.Valid() && IsSite(cfg, g, s)
    ensures g.defs[s.car].target.AllReduce?
    ensures s.husk.Some? ==> s.husk.value in g.defs && g.defs[s.husk.value].target.FusedAddRmsNorm?
  {
    hide FusedAddSite, AddSite, Graph.Valid;
    if f :| FusedAddSite(cfg, g, s.car, f) == Some(s) {
      FusedAddTargets(cfg, g, s, f);
    } else {
      var a, r :| AddSite(cfg, g, s.car, a, r) == Some(s);
      AddTargets(cfg, g, s, a, r);
    }
  }

  /** No node changes its operator. */
  lemma FusedTargets(cfg: Config, g: Graph, s: Site, n: Id)
    requires g.Valid() && IsSite(cfg, g, s)
    ensures |g.defs[s.car].args| >= 1
    ensures n in g.defs && n in Fused(cfg, g, s).defs ==> Fused(cfg, g, s).defs[n].target == g.defs[n].target
  {
    SiteMatched(cfg, g, s);
    WithFusedExtended(cfg, g, s);
    var h := WithFused(cfg, g, s);
    RewiredNodes(cfg, g, s, h);
    hide IsSite, Rewired, WithFused, Matched, Extended, Graph.Valid;
    SweptSubset(s, Rewired(g, s, h), n);
  }

  lemma NormSame(cfg: Config, g: Graph, s: Site, add: Id, rms: Id)
    requires g.Valid() && IsSite(cfg, g, s) && Typed(g, s) && add in g.defs && rms in g.defs && Stays(s, add) && Stays(s, rms)
    ensures |g.defs[s.car].args| >= 1
    ensures IsNormOf(Fused(cfg, g, s), add, rms) <==> IsNormOf(g, add, rms)
  {
    hide IsSite, Fused, Typed, Refs, NewArg, NewNode;
    StayingNode(cfg, g, s, rms);
    NewNodeArgs(g, s, rms);
    ReadersKept(cfg, g, s, rms, add);
    assert g.Valid() ==> add < g.next;
    hide Graph.Valid;
    if |g.defs[rms].args| >= 1 {
      PositionIsRef(g.defs[rms], 0);
      NewArgKeeps(g, s, rms, g.defs[rms].args[0]);
    }
  }

  /** The norms of a staying add are the same. */
  lemma NormKept(cfg: Config, g: Graph, s: Site, add: Id, rms: Id)
    requires g.Valid() && IsSite(cfg, g, s) && Typed(g, s) && add in g.defs && IsAdd(g.defs[add]) && Stays(s, add)
    ensures |g.defs[s.car].args| >= 1
    ensures IsNormOf(Fused(cfg, g, s), add, rms) <==> IsNormOf(g, add, rms)
    ensures IsNormOf(g, add, rms) ==> rms in g.defs && Stays(s, rms)
  {
    SiteMatched(cfg, g, s);
    hide IsSite, Fused, Typed, Graph.Valid, Matched, IsNormOf, IsAdd;
    if IsNormOf(g, add, rms) { AddStays(cfg, g, s, add, rms); }
    if IsNormOf(Fused(cfg, g, s), add, rms) { NormBack(cfg, g, s, add, rms); }
    if rms in g.defs && Stays(s, rms) { NormSame(cfg, g, s, add, rms); }
  }

  ghost predicate Moves(g: Graph, s: Site, m: Id) {
    s.car < g.next && s.car !in s.outs && (forall u | u in s.outs :: 0 <= s.outs[u])
    && m in g.defs && (s.car in Refs(g.defs[m]) ==> m in s.others)
  }

  lemma NewIsAdd(g: Graph, s: Site, add: Id)
    requires Moves(g, s, add) && IsAdd(g.defs[add])
    ensures IsAdd(NewNode(g, s, add))
  {
    NewNodeArgs(g, s, add);
    hide NewNode, NewArg;
    var was := g.defs[add];
    if "alpha" in was.kwargs { NewArgKeeps(g, s, add, was.kwargs["alpha"]); }
  }

  lemma NewOther(g: Graph, s: Site, add: Id, car: Id)
    requires Moves(g, s, add) && |g.defs[add].args| == 2 && car < g.next && car !in s.outs && car != s.car
    ensures OtherAddArg(g.defs[add], car).NodeArg? ==> OtherAddArg(g.defs[add], car).n in Refs(g.defs[add])
    ensures OtherAddArg(NewNode(g, s, add), car) == NewArg(g, s, add, OtherAddArg(g.defs[add], car))
  {
    NewNodeArgs(g, s, add);
    var was := g.defs[add];
    PositionIsRef(was, 0);
    PositionIsRef(was, 1);
    NewArgKeeps(g, s, add, was.args[0]);
    NewArgKeeps(g, s, add, was.args[1]);
    hide NewNode, Refs;
    assert NewArg(g, s, add, NoneArg) == NoneArg;
  }

  /** The norm's weight, epsilon and variance size. */
  lemma NewNormArgs(g: Graph, s: Site, rms: Id)
    requires Moves(g, s, rms)
    ensures var (was, node) := (g.defs[rms], NewNode(g, s, rms));
            && GetArg(node, 1, "weight") == NewArg(g, s, rms, GetArg(was, 1, "weight"))
            && (GetArg(node, 1, "weight").NoneArg? <==> GetArg(was, 1, "weight").NoneArg?)
            && (NormEps(node).NoneArg? <==> NormEps(was).NoneArg?)
            && (GetArg(was, 3, "variance_size") == NoneArg ==> GetArg(node, 3, "variance_size") == NoneArg)
            && (GetArg(was, 1, "weight").NodeArg? ==> GetArg(was, 1, "weight").n in Refs(was))
  {
    NewGetArg(g, s, rms, 1, "weight");
    NewGetArg(g, s, rms, 3, "variance_size");
    NewNormEps(g, s, rms);
    hide NewNode, Refs, GetArg, NormEps;
  }

  lemma AddSiteIs(cfg: Config, g: Graph, car: Id, add: Id, rms: Id)
    requires car in g.defs
    ensures AddSite(cfg, g, car, add, rms).Some? <==>
            && add in g.Users(car) && IsAdd(g.defs[add]) && IsNormOf(g, add, rms)
            && !OtherAddArg(g.defs[add], car).NoneArg? && !GetArg(g.defs[rms], 1, "weight").NoneArg? && !NormEps(g.defs[rms]).NoneArg?
            && GetArg(g.defs[rms], 3, "variance_size") == NoneArg
            && Supported(cfg, g, car, OtherAddArg(g.defs[add], car), GetArg(g.defs[rms], 1, "weight"))
    ensures AddSite(cfg, g, car, add, rms).Some? ==>
              AddSite(cfg, g, car, add, rms).value.residual == OtherAddArg(g.defs[add], car)
  {
    hide Supported;
  }

  lemma NewMoves(cfg: Config, g: Graph, s: Site, m: Id)
    requires g.Valid() && IsSite(cfg, g, s) && Typed(g, s) && m in g.defs && Stays(s, m)
    ensures Moves(g, s, m)
  {
    hide IsSite, Typed, Refs;
    StayingNode(cfg, g, s, m);
  }

  lemma ArgMeta(cfg: Config, g: Graph, s: Site, m: Id, a: Arg)
    requires g.Valid() && IsSite(cfg, g, s) && Typed(g, s) && m in g.defs && Stays(s, m) && (a.NodeArg? ==> a.n in Refs(g.defs[m]))
    ensures |g.defs[s.car].args| >= 1 && Meta(Fused(cfg, g, s), NewArg(g, s, m, a)) == Meta(g, a)
  {
    hide IsSite, Typed, Refs, Fused, NewArg;
    StayingNode(cfg, g, s, m);
  }

  /** The add arm: the other all-reduce keeps its site, with its residual renamed. */
  lemma AddSiteKept(cfg: Config, g: Graph, s: Site, car: Id, add: Id, rms: Id)
    requires g.Valid() && IsSite(cfg, g, s) && Typed(g, s) && IsCandidate(cfg, g, car) && car != s.car
    requires AddSite(cfg, g, car, add, rms).Some? && add !in s.outs
    ensures |g.defs[s.car].args| >= 1 && car in Fused(cfg, g, s).defs
    ensures var t := AddSite(cfg, Fused(cfg, g, s), car, add, rms);
            t.Some? && t.value.residual == NewArg(g, s, add, AddSite(cfg, g, car, add, rms).value.residual)
  {
    assert s.car in g.defs && car in g.defs && car < g.next;
    hide IsSite, Fused, Typed, Graph.Valid, Refs, NewArg, NewNode, Supported, AddSite, IsNormOf, IsAdd, Graph.Users, GetArg, NormEps,
         OtherAddArg, IsCandidate, Moves, StaysReader;
    AddSiteIs(cfg, g, car, add, rms);
    UsedBy(g, car, add);
    AddStays(cfg, g, s, add, rms);
    CandidateKept(cfg, g, s, car);
    StayingNode(cfg, g, s, add);
    StayingNode(cfg, g, s, rms);
    NodeKeptHere(cfg, g, s, car);
    NormKept(cfg, g, s, add, rms);
    ReadersKept(cfg, g, s, add, car);
    NewMoves(cfg, g, s, add);
    NewMoves(cfg, g, s, rms);
    NewIsAdd(g, s, add);
    assert |g.defs[add].args| == 2 by { AddArgs(g.defs[add]); }
    NewOther(g, s, add, car);
    NewNormArgs(g, s, rms);
    var (residual, weight) := (OtherAddArg(g.defs[add], car), GetArg(g.defs[rms], 1, "weight"));
    NotNone(g, s, add, residual);
    ArgMeta(cfg, g, s, add, residual);
    ArgMeta(cfg, g, s, rms, weight);
    SupportedStays(cfg, g, s, car, residual, weight, NewArg(g, s, add, residual), NewArg(g, s, rms, weight));
    AddSiteIs(cfg, Fused(cfg, g, s), car, add, rms);
  }

  lemma AddArgs(node: Node)
    requires IsAdd(node)
    ensures |node.args| == 2
  {
  }

  lemma NotNone(g: Graph, s: Site, m: Id, a: Arg)
    ensures NewArg(g, s, m, a).NoneArg? <==> a.NoneArg?
  {
  }

  lemma NodeKeptHere(cfg: Config, g: Graph, s: Site, n: Id)
    requires g.Valid() && IsSite(cfg, g, s) && n in g.defs && Stays(s, n)
    ensures |g.defs[s.car].args| >= 1 && n in Fused(cfg, g, s).defs && Fused(cfg, g, s).defs[n] == NewNode(g, s, n)
  {
    SiteMatched(cfg, g, s);
    hide IsSite;
    NodeKept(cfg, g, s, n);
  }

  // ----- the other arm -----

  /** What the fused operator reads was read by a node of the site. */
  lemma FusedReader(cfg: Config, g: Graph, s: Site, n: Id)
    requires g.Valid() && IsSite(cfg, g, s) && |g.defs[s.car].args| >= 1 && n in Refs(FusedNode(cfg, g, s))
    ensures exists m :: m in g.Users(n) && Consumable(g.defs[m].target) && !g.defs[m].target.GetItem?
  {
    FusedRefs(cfg, g, s);
    PositionIsRef(g.defs[s.car], 0);
    hide Refs, Supported;
    if n in ArgRefs(g.defs[s.car].args[0]) {
      UsedBy(g, n, s.car);
    } else if f :| FusedAddSite(cfg, g, s.car, f) == Some(s) {
      PositionIsRef(g.defs[f], 1);
      PositionIsRef(g.defs[f], 2);
      PositionIsRef(g.defs[f], 3);
      UsedBy(g, n, f);
    } else {
      var add, rms :| AddSite(cfg, g, s.car, add, rms) == Some(s);
      AddReads(cfg, g, s, add, rms, n);
    }
  }

  lemma AddReads(cfg: Config, g: Graph, s: Site, add: Id, rms: Id, n: Id)
    requires s.car in g.defs && AddSite(cfg, g, s.car, add, rms) == Some(s)
    requires n in ArgRefs(s.residual) + ArgRefs(s.weight) + ArgRefs(s.eps)
    ensures add in g.defs && rms in g.defs && g.defs[add].target.AddTensor? && g.defs[rms].target.RmsNormIr?
    ensures add in g.Users(n) || rms in g.Users(n)
  {
    PositionIsRef(g.defs[add], 0);
    PositionIsRef(g.defs[add], 1);
    NewGetArg(g, s, rms, 1, "weight");
    EpsRef(g.defs[rms]);
    UsedBy(g, n, add);
    UsedBy(g, n, rms);
    hide Refs, Supported;
  }

  lemma EpsRef(node: Node)
    ensures NormEps(node).NodeArg? ==> NormEps(node).n in Refs(node)
  {
  }

  /** The users of a combined node are its items. */
  ghost predicate OnlyItems(g: Graph, f: Id) {
    forall u | u in g.Users(f) :: ItemIndex(g.defs[u], f) in {Some(0), Some(1)}
  }

  lemma FusedAddSiteIs(cfg: Config, g: Graph, car: Id, f: Id)
    requires car in g.defs
    ensures FusedAddSite(cfg, g, car, f).Some? <==>
            && f in g.Users(car) && g.defs[f].target.FusedAddRmsNorm? && |g.defs[f].args| >= 4 && g.defs[f].args[0] == NodeArg(car)
            && !g.defs[f].args[2].NoneArg? && !g.defs[f].args[3].NoneArg? && GetArg(g.defs[f], 4, "variance_size") == NoneArg
            && Supported(cfg, g, car, g.defs[f].args[1], g.defs[f].args[2]) && g.Users(f) != {} && OnlyItems(g, f)
    ensures FusedAddSite(cfg, g, car, f).Some? ==> FusedAddSite(cfg, g, car, f).value.residual == g.defs[f].args[1]
  {
    hide Supported, ItemIndex;
  }

  lemma ItemStays(cfg: Config, g: Graph, s: Site, f: Id, u: Id)
    requires g.Valid() && IsSite(cfg, g, s) && f in g.defs && s.husk != Some(f) && u in g.Users(f) && ItemIndex(g.defs[u], f).Some?
    ensures Stays(s, u)
  {
    hide FusedAddSite, AddSite, Graph.Valid;
    SiteTargets(cfg, g, s);
    SiteKinds(cfg, g, s);
    if a :| FusedAddSite(cfg, g, s.car, a) == Some(s) {
      HuskItems(cfg, g, s, a);
    } else {
      var a, r :| AddSite(cfg, g, s.car, a, r) == Some(s);
      AddTargets(cfg, g, s, a, r);
    }
  }

  lemma HuskItems(cfg: Config, g: Graph, s: Site, f: Id)
    requires s.car in g.defs && FusedAddSite(cfg, g, s.car, f) == Some(s)
    ensures s.husk == Some(f) && forall u | u in s.outs :: u in g.defs && ItemIndex(g.defs[u], f).Some?
  {
    hide Supported;
    forall u | u in s.outs
      ensures u in g.defs && ItemIndex(g.defs[u], f).Some?
    {
      assert ItemIndex(g.defs[u], f) in {Some(0), Some(1)};
    }
  }

  lemma NewItem(g: Graph, s: Site, u: Id, f: Id)
    requires Moves(g, s, u) && f < g.next && f !in s.outs && f != s.car
    ensures ItemIndex(NewNode(g, s, u), f) == ItemIndex(g.defs[u], f)
  {
    NewNodeArgs(g, s, u);
    var was := g.defs[u];
    if |was.args| >= 2 {
      PositionIsRef(was, 0);
      PositionIsRef(was, 1);
      NewArgKeeps(g, s, u, was.args[0]);
      NewArgKeeps(g, s, u, was.args[1]);
    }
    hide NewNode, Refs, NewArg;
  }

  /** A staying combined node keeps its items and gets no other user. */
  lemma ItemsKept(cfg: Config, g: Graph, s: Site, f: Id)
    requires g.Valid() && IsSite(cfg, g, s) && Typed(g, s) && f in g.defs && Stays(s, f) && OnlyItems(g, f) && g.Users(f) != {}
    ensures |g.defs[s.car].args| >= 1
    ensures Fused(cfg, g, s).Users(f) != {} && OnlyItems(Fused(cfg, g, s), f)
  {
    SiteMatched(cfg, g, s);
    assert f < g.next;
    hide IsSite, Fused, Typed, Graph.Valid, Refs, NewNode, ItemIndex, Matched, Graph.Users;
    forall u | u in g.Users(f)
      ensures u in g.defs && Stays(s, u) && u in Fused(cfg, g, s).Users(f)
      ensures u in Fused(cfg, g, s).defs && ItemIndex(Fused(cfg, g, s).defs[u], f) == ItemIndex(g.defs[u], f)
    {
      UsedBy(g, f, u);
      ItemStays(cfg, g, s, f, u);
      NewMoves(cfg, g, s, u);
      NodeKeptHere(cfg, g, s, u);
      NewItem(g, s, u, f);
      ReadersKept(cfg, g, s, u, f);
    }
    forall m | m in Fused(cfg, g, s).Users(f)
      ensures m in g.Users(f)
    {
      ReadersKept(cfg, g, s, m, f);
      if m == g.New() { NotReadAnew(cfg, g, s, f); }
    }
    var u := AUser(g.Users(f));
  }

  lemma AUser(us: set<Id>) returns (u: Id)
    requires us != {}
    ensures u in us
  {
    assert (forall m :: m !in us) ==> us == {};
    u :| u in us;
  }

  lemma NotReadAnew(cfg: Config, g: Graph, s: Site, f: Id)
    requires g.Valid() && IsSite(cfg, g, s) && f in g.defs && Stays(s, f) && OnlyItems(g, f) && |g.defs[s.car].args| >= 1
    ensures g.New() !in Fused(cfg, g, s).Users(f)
  {
    hide IsSite, Rewired, WithFused, Refs, FusedNode, Graph.Valid, Swept, Supported;
    SiteMatched(cfg, g, s);
    WithFusedExtended(cfg, g, s);
    var h := WithFused(cfg, g, s);
    RewiredNodes(cfg, g, s, h);
    RewiredUses(cfg, g, s, h, g.New(), f);
    assert h.defs[g.New()] == FusedNode(cfg, g, s);
    hide Matched, Extended;
    SweptSubset(s, Rewired(g, s, h), g.New());
    UsedBy(Fused(cfg, g, s), f, g.New());
    if f in Refs(FusedNode(cfg, g, s)) {
      FusedReader(cfg, g, s, f);
      var m :| m in g.Users(f) && Consumable(g.defs[m].target) && !g.defs[m].target.GetItem?;
      assert ItemIndex(g.defs[m], f).Some?;
    }
  }

  lemma NewHead(g: Graph, s: Site, f: Id, car: Id)
    requires Moves(g, s, f) && |g.defs[f].args| >= 4 && car < g.next && car !in s.outs && car != s.car
    ensures var (was, node) := (g.defs[f], NewNode(g, s, f));
            && |node.args| >= 4 && node.args[1] == NewArg(g, s, f, was.args[1]) && node.args[2] == NewArg(g, s, f, was.args[2])
            && (node.args[0] == NodeArg(car) <==> was.args[0] == NodeArg(car))
            && (node.args[2].NoneArg? <==> was.args[2].NoneArg?) && (node.args[3].NoneArg? <==> was.args[3].NoneArg?)
            && (GetArg(was, 4, "variance_size") == NoneArg ==> GetArg(node, 4, "variance_size") == NoneArg)
            && (was.args[1].NodeArg? ==> was.args[1].n in Refs(was)) && (was.args[2].NodeArg? ==> was.args[2].n in Refs(was))
  {
    NewNodeArgs(g, s, f);
    var was := g.defs[f];
    PositionIsRef(was, 0);
    PositionIsRef(was, 1);
    PositionIsRef(was, 2);
    NewArgKeeps(g, s, f, was.args[0]);
    NotNone(g, s, f, was.args[2]);
    NotNone(g, s, f, was.args[3]);
    NewGetArg(g, s, f, 4, "variance_size");
    NotNone(g, s, f, GetArg(was, 4, "variance_size"));
    hide NewNode, Refs, NewArg, GetArg;
  }

  /** The combined arm: the other all-reduce keeps its site, with its residual renamed. */
  lemma FusedAddSiteKept(cfg: Config, g: Graph, s: Site, car: Id, f: Id)
    requires g.Valid() && IsSite(cfg, g, s) && Typed(g, s) && IsCandidate(cfg, g, car) && car != s.car
    requires FusedAddSite(cfg, g, car, f).Some?
    ensures |g.defs[s.car].args| >= 1 && car in Fused(cfg, g, s).defs
    ensures var t := FusedAddSite(cfg, Fused(cfg, g, s), car, f);
            t.Some? && t.value.residual == NewArg(g, s, f, FusedAddSite(cfg, g, car, f).value.residual)
  {
    assert s.car in g.defs && car in g.defs && car < g.next;
    hide IsSite, Fused, Typed, Graph.Valid, Refs, NewArg, NewNode, Supported, FusedAddSite, OnlyItems, Graph.Users, GetArg,
         IsCandidate, Moves, StaysReader;
    FusedAddSiteIs(cfg, g, car, f);
    UsedBy(g, car, f);
    CombinedStays(cfg, g, s, car, f);
    CandidateKept(cfg, g, s, car);
    StayingNode(cfg, g, s, f);
    NodeKeptHere(cfg, g, s, car);
    ItemsKept(cfg, g, s, f);
    ReadersKept(cfg, g, s, f, car);
    NewMoves(cfg, g, s, f);
    NewHead(g, s, f, car);
    NewNodeArgs(g, s, f);
    var (residual, weight) := (g.defs[f].args[1], g.defs[f].args[2]);
    ArgMeta(cfg, g, s, f, residual);
    ArgMeta(cfg, g, s, f, weight);
    SupportedStays(cfg, g, s, car, residual, weight, NewArg(g, s, f, residual), NewArg(g, s, f, weight));
    FusedAddSiteIs(cfg, Fused(cfg, g, s), car, f);
  }

  lemma CombinedStays(cfg: Config, g: Graph, s: Site, car: Id, f: Id)
    requires g.Valid() && IsSite(cfg, g, s) && car != s.car && f in g.defs && g.defs[f].target.FusedAddRmsNorm?
    requires |g.defs[f].args| >= 1 && g.defs[f].args[0] == NodeArg(car)
    ensures Stays(s, f)
  {
    hide Supported, Graph.Valid;
    if a :| FusedAddSite(cfg, g, s.car, a) == Some(s) {
      FusedAddTargets(cfg, g, s, a);
      assert g.defs[a].args[0] == NodeArg(s.car);
    } else {
      var a, r :| AddSite(cfg, g, s.car, a, r) == Some(s);
      AddTargets(cfg, g, s, a, r);
    }
  }

  /** Where the residual was a node that the rewrite takes over, it is now that output of the fused
      operator, and the next layer can still be fused. */
  lemma NextLayer(cfg: Config, g: Graph, s: Site, car: Id, add: Id, rms: Id, u: Id)
    requires g.Valid() && IsSite(cfg, g, s) && Typed(g, s) && IsCandidate(cfg, g, car) && car != s.car
    requires AddSite(cfg, g, car, add, rms).Some? && add !in s.outs && u in s.outs
    requires AddSite(cfg, g, car, add, rms).value.residual == NodeArg(u)
    ensures |g.defs[s.car].args| >= 1 && car in Fused(cfg, g, s).defs
    ensures var t := AddSite(cfg, Fused(cfg, g, s), car, add, rms);
            t.Some? && t.value.residual == NodeArg(Item(g, s.outs[u]))
  {
    hide AddSite, Fused, Typed;
    AddSiteKept(cfg, g, s, car, add, rms);
    OldNodes(cfg, g, s);
    SiteMatched(cfg, g, s);
    hide IsSite, Refs;
    NewArgIs(g, s, add, NodeArg(u));
  }

  lemma NextCombined(cfg: Config, g: Graph, s: Site, car: Id, f: Id, u: Id)
    requires g.Valid() && IsSite(cfg, g, s) && Typed(g, s) && IsCandidate(cfg, g, car) && car != s.car
    requires FusedAddSite(cfg, g, car, f).Some? && u in s.outs
    requires FusedAddSite(cfg, g, car, f).value.residual == NodeArg(u)
    ensures |g.defs[s.car].args| >= 1 && car in Fused(cfg, g, s).defs
    ensures var t := FusedAddSite(cfg, Fused(cfg, g, s), car, f);
            t.Some? && t.value.residual == NodeArg(Item(g, s.outs[u]))
  {
    hide FusedAddSite, Fused, Typed;
    FusedAddSiteKept(cfg, g, s, car, f);
    OldNodes(cfg, g, s);
    SiteMatched(cfg, g, s);
    hide IsSite, Refs;
    NewArgIs(g, s, f, NodeArg(u));
  }

  // ----- all-reduces that can all be fused -----

  /** The visit of this all-reduce must rewrite it, whichever user it meets first. */
  ghost predicate Fusable(cfg: Config, g: Graph, car: Id) {
    IsCandidate(cfg, g, car) && ((exists f :: FusedAddSite(cfg, g, car, f).Some?) || !NoAddSite(cfg, g, car))
  }

  /** What reads the all-reduce and could be taken over with it is typed like it. */
  ghost predicate UsersTyped(g: Graph, car: Id) {
    && car in g.defs
    && (forall add | add in g.Users(car) && g.defs[add].target.AddTensor? ::
          g.defs[add].meta == g.defs[car].meta && forall rms | IsNormOf(g, add, rms) :: g.defs[rms].meta == g.defs[car].meta)
    && (forall f, u | f in g.Users(car) && g.defs[f].target.FusedAddRmsNorm? && IsHead(g, f, car)
                      && u in g.Users(f) && ItemIndex(g.defs[u], f).Some? ::
          g.defs[u].meta == g.defs[car].meta)
  }

  predicate IsHead(g: Graph, f: Id, car: Id) {
    f in g.defs && |g.defs[f].args| >= 1 && g.defs[f].args[0] == NodeArg(car)
  }

  /** No add joins two of the all-reduces. */
  ghost predicate Apart(g: Graph, todo: set<Id>) {
    forall m, c, d | m in g.defs && g.defs[m].target.AddTensor? && c in todo && d in todo
                     && m in g.Users(c) && m in g.Users(d) :: c == d
  }

  ghost predicate AllFusable(cfg: Config, g: Graph, todo: set<Id>) {
    Apart(g, todo) && forall c | c in todo :: Fusable(cfg, g, c) && UsersTyped(g, c)
  }

  lemma SiteTyped(cfg: Config, g: Graph, s: Site)
    requires g.Valid() && IsSite(cfg, g, s) && UsersTyped(g, s.car)
    ensures Typed(g, s)
  {
    hide Supported;
    if f :| FusedAddSite(cfg, g, s.car, f) == Some(s) {
      HuskItems(cfg, g, s, f);
      HuskOf(cfg, g, s, f);
    } else {
      var add, rms :| AddSite(cfg, g, s.car, add, rms) == Some(s);
      AddOuts(cfg, g, s, add, rms);
    }
  }

  // ----- what one rewrite leaves of that -----

  lemma SurvivorIs(cfg: Config, g: Graph, s: Site, n: Id)
    requires g.Valid() && IsSite(cfg, g, s) && n in g.defs
    ensures |g.defs[s.car].args| >= 1
    ensures n in Fused(cfg, g, s).defs ==> Fused(cfg, g, s).defs[n] == NewNode(g, s, n)
  {
    SiteMatched(cfg, g, s);
    WithFusedExtended(cfg, g, s);
    var h := WithFused(cfg, g, s);
    assert n in h.defs && h.defs[n] == g.defs[n];
    hide IsSite, Matched, Extended, Graph.Valid, WithFused, Swept;
    SweptSubset(s, Rewired(g, s, h), n);
  }

  /** A survivor of an operator that no site takes over, or that is not one of this site, stays. */
  lemma SurvivorStays(cfg: Config, g: Graph, s: Site, n: Id)
    requires g.Valid() && IsSite(cfg, g, s) && n in g.defs && n != s.car && !g.defs[n].target.FusedAddRmsNorm?
    ensures |g.defs[s.car].args| >= 1
    ensures n in Fused(cfg, g, s).defs ==> Stays(s, n)
  {
    SiteMatched(cfg, g, s);
    SiteKinds(cfg, g, s);
    hide IsSite, Fused, Graph.Valid;
    if n in s.outs { OutsGone(cfg, g, s, n); }
  }

  lemma CandidateBack(cfg: Config, g: Graph, s: Site, car: Id)
    requires g.Valid() && IsSite(cfg, g, s) && car in g.defs
    ensures |g.defs[s.car].args| >= 1 && (IsCandidate(cfg, Fused(cfg, g, s), car) ==> IsCandidate(cfg, g, car))
  {
    SiteMatched(cfg, g, s);
    SurvivorIs(cfg, g, s, car);
    NewNodeArgs(g, s, car);
    NewGetArg(g, s, car, 1, "comm_id");
    hide IsSite, Fused, Graph.Valid, NewNode;
  }

  lemma OutsRead(cfg: Config, g: Graph, s: Site, add: Id)
    requires g.Valid() && IsSite(cfg, g, s) && add in s.outs
    ensures add in g.defs && (g.defs[add].target.AddTensor? ==> add in g.Users(s.car))
  {
    hide Supported, Graph.Valid;
    if f :| FusedAddSite(cfg, g, s.car, f) == Some(s) {
      FusedAddTargets(cfg, g, s, f);
    } else {
      var a, r :| AddSite(cfg, g, s.car, a, r) == Some(s);
      AddTargets(cfg, g, s, a, r);
      AddOuts(cfg, g, s, a, r);
    }
  }

  lemma ApartKept(cfg: Config, g: Graph, s: Site, todo: set<Id>)
    requires g.Valid() && IsSite(cfg, g, s) && Apart(g, todo) && s.car !in todo
    requires forall c | c in todo :: c in g.defs && c !in s.outs
    ensures |g.defs[s.car].args| >= 1 && Apart(Fused(cfg, g, s), todo)
  {
    SiteMatched(cfg, g, s);
    hide IsSite, Fused, Graph.Valid, Graph.Users, Matched;
    var g' := Fused(cfg, g, s);
    forall m, c, d | m in g'.defs && g'.defs[m].target.AddTensor? && c in todo && d in todo && m in g'.Users(c) && m in g'.Users(d)
      ensures c == d
    {
      ReadersKept(cfg, g, s, m, c);
      ReadersKept(cfg, g, s, m, d);
      UsedBy(g, c, m);
      FusedTargets(cfg, g, s, m);
    }
  }

  lemma AddTyped(cfg: Config, g: Graph, s: Site, car: Id, add: Id)
    requires g.Valid() && IsSite(cfg, g, s) && Typed(g, s) && IsCandidate(cfg, g, car) && car != s.car && UsersTyped(g, car)
    requires |g.defs[s.car].args| >= 1 && add in Fused(cfg, g, s).Users(car) && Fused(cfg, g, s).defs[add].target.AddTensor?
    ensures car in Fused(cfg, g, s).defs && Fused(cfg, g, s).defs[car].meta == g.defs[car].meta
    ensures var g' := Fused(cfg, g, s);
            g'.defs[add].meta == g.defs[car].meta && forall rms | IsNormOf(g', add, rms) :: g'.defs[rms].meta == g.defs[car].meta
  {
    CandidateKept(cfg, g, s, car);
    StayMeta(cfg, g, s, car);
    SiteTargets(cfg, g, s);
    SiteKinds(cfg, g, s);
    hide IsSite, Fused, Typed, Graph.Valid, NewNode, IsNormOf, Graph.Users, Refs;
    ReadersKept(cfg, g, s, add, car);
    UsedBy(g, car, add);
    UsedBy(Fused(cfg, g, s), car, add);
    FusedTargets(cfg, g, s, add);
    SurvivorStays(cfg, g, s, add);
    StayMeta(cfg, g, s, add);
    forall rms | IsNormOf(Fused(cfg, g, s), add, rms)
      ensures Fused(cfg, g, s).defs[rms].meta == g.defs[car].meta
    {
      NormBack(cfg, g, s, add, rms);
      NormSame(cfg, g, s, add, rms);
      StayMeta(cfg, g, s, rms);
    }
  }

  lemma StayMeta(cfg: Config, g: Graph, s: Site, n: Id)
    requires g.Valid() && IsSite(cfg, g, s) && n in g.defs && Stays(s, n)
    ensures |g.defs[s.car].args| >= 1
    ensures n in Fused(cfg, g, s).defs && Fused(cfg, g, s).defs[n].meta == g.defs[n].meta
    ensures Fused(cfg, g, s).defs[n].target == g.defs[n].target
  {
    hide IsSite, Fused, Graph.Valid;
    NodeKeptHere(cfg, g, s, n);
    NewNodeArgs(g, s, n);
  }

  lemma HeadBack(g: Graph, s: Site, f: Id, car: Id)
    requires f in g.defs && s.car < g.next && s.car !in s.outs && (forall u | u in s.outs :: 0 <= s.outs[u])
    requires car < g.next && car !in s.outs && car != s.car
    ensures |NewNode(g, s, f).args| >= 1 && NewNode(g, s, f).args[0] == NodeArg(car) ==> IsHead(g, f, car)
  {
    NewNodeArgs(g, s, f);
  }

  lemma ItemTyped(cfg: Config, g: Graph, s: Site, car: Id, f: Id, u: Id)
    requires g.Valid() && IsSite(cfg, g, s) && Typed(g, s) && IsCandidate(cfg, g, car) && car != s.car && UsersTyped(g, car)
    requires |g.defs[s.car].args| >= 1 && f in Fused(cfg, g, s).Users(car) && Fused(cfg, g, s).defs[f].target.FusedAddRmsNorm?
    requires IsHead(Fused(cfg, g, s), f, car) && u in Fused(cfg, g, s).Users(f) && ItemIndex(Fused(cfg, g, s).defs[u], f).Some?
    ensures Fused(cfg, g, s).defs[u].meta == g.defs[car].meta
  {
    SiteMatched(cfg, g, s);
    CandidateKept(cfg, g, s, car);
    SiteTargets(cfg, g, s);
    SiteKinds(cfg, g, s);
    OldNodes(cfg, g, s);
    assert car < g.next;
    hide IsSite, Fused, Typed, Graph.Valid, NewNode, Graph.Users, Refs;
    ReadersKept(cfg, g, s, f, car);
    UsedBy(g, car, f);
    FusedTargets(cfg, g, s, f);
    SurvivorIs(cfg, g, s, f);
    HeadBack(g, s, f, car);
    CombinedStays(cfg, g, s, car, f);
    ItemTypedHere(cfg, g, s, car, f, u);
  }

  lemma ItemTypedHere(cfg: Config, g: Graph, s: Site, car: Id, f: Id, u: Id)
    requires g.Valid() && IsSite(cfg, g, s) && Typed(g, s) && car in g.defs && UsersTyped(g, car) && |g.defs[s.car].args| >= 1
    requires f in g.Users(car) && g.defs[f].target.FusedAddRmsNorm? && IsHead(g, f, car) && Stays(s, f)
    requires u in Fused(cfg, g, s).Users(f) && ItemIndex(Fused(cfg, g, s).defs[u], f).Some?
    ensures Fused(cfg, g, s).defs[u].meta == g.defs[car].meta
  {
    assert f in g.defs && f < g.next;
    SiteKinds(cfg, g, s);
    hide IsSite, Fused, Typed, Graph.Valid, NewNode, Graph.Users, Refs;
    ReadersKept(cfg, g, s, u, f);
    UsedBy(g, f, u);
    FusedTargets(cfg, g, s, u);
    SurvivorStays(cfg, g, s, u);
    NodeKeptHere(cfg, g, s, u);
    NewMoves(cfg, g, s, u);
    NewItem(g, s, u, f);
    StayMeta(cfg, g, s, u);
  }

  lemma UsersTypedKept(cfg: Config, g: Graph, s: Site, car: Id)
    requires g.Valid() && IsSite(cfg, g, s) && Typed(g, s) && IsCandidate(cfg, g, car) && car != s.car && UsersTyped(g, car)
    ensures |g.defs[s.car].args| >= 1 && UsersTyped(Fused(cfg, g, s), car)
  {
    CandidateKept(cfg, g, s, car);
    StayMeta(cfg, g, s, car);
    hide IsSite, Fused, Typed, Graph.Valid, IsHead, ItemIndex, IsCandidate, Refs;
    var g' := Fused(cfg, g, s);
    forall add | add in g'.Users(car) && g'.defs[add].target.AddTensor?
      ensures g'.defs[add].meta == g.defs[car].meta
      ensures forall rms | IsNormOf(g', add, rms) :: g'.defs[rms].meta == g.defs[car].meta
    {
      AddTyped(cfg, g, s, car, add);
    }
    forall f, u | f in g'.Users(car) && g'.defs[f].target.FusedAddRmsNorm? && IsHead(g', f, car)
                  && u in g'.Users(f) && ItemIndex(g'.defs[u], f).Some?
      ensures g'.defs[u].meta == g.defs[car].meta
    {
      ItemTyped(cfg, g, s, car, f, u);
    }
  }

  lemma AddFusableKept(cfg: Config, g: Graph, s: Site, car: Id, add: Id)
    requires g.Valid() && IsSite(cfg, g, s) && Typed(g, s) && IsCandidate(cfg, g, car) && car != s.car && add !in s.outs
    requires add in g.Users(car) && IsAdd(g.defs[add]) && exists rms :: IsNormOf(g, add, rms)
    requires forall rms | IsNormOf(g, add, rms) :: AddSite(cfg, g, car, add, rms) != None
    ensures |g.defs[s.car].args| >= 1 && car in Fused(cfg, g, s).defs && !NoAddSite(cfg, Fused(cfg, g, s), car)
  {
    CandidateKept(cfg, g, s, car);
    UsedBy(g, car, add);
    var rms :| IsNormOf(g, add, rms);
    AddStays(cfg, g, s, add, rms);
    StayMoves(cfg, g, s, add);
    ReadersKept(cfg, g, s, add, car);
    hide IsSite, Fused, Typed, Graph.Valid, IsNormOf, AddSite, IsAdd, NewNode, Graph.Users, Refs;
    forall r
      ensures IsNormOf(Fused(cfg, g, s), add, r) <==> IsNormOf(g, add, r)
      ensures IsNormOf(g, add, r) ==> AddSite(cfg, Fused(cfg, g, s), car, add, r) != None
    {
      NormKept(cfg, g, s, add, r);
      if IsNormOf(g, add, r) { AddSiteKept(cfg, g, s, car, add, r); }
    }
    assert IsNormOf(Fused(cfg, g, s), add, rms);
  }

  lemma StayMoves(cfg: Config, g: Graph, s: Site, add: Id)
    requires g.Valid() && IsSite(cfg, g, s) && Typed(g, s) && add in g.defs && Stays(s, add) && IsAdd(g.defs[add])
    ensures |g.defs[s.car].args| >= 1 && add in Fused(cfg, g, s).defs && IsAdd(Fused(cfg, g, s).defs[add])
  {
    hide IsSite, Fused, Typed, Graph.Valid, IsAdd, NewNode;
    NodeKeptHere(cfg, g, s, add);
    NewMoves(cfg, g, s, add);
    NewIsAdd(g, s, add);
  }

  /** One rewrite leaves the other all-reduces fusable. */
  lemma FusableKept(cfg: Config, g: Graph, s: Site, car: Id)
    requires g.Valid() && IsSite(cfg, g, s) && Typed(g, s) && Fusable(cfg, g, car) && car != s.car
    requires forall add | add in g.Users(car) && g.defs[add].target.AddTensor? :: add !in g.Users(s.car)
    ensures |g.defs[s.car].args| >= 1 && Fusable(cfg, Fused(cfg, g, s), car)
  {
    CandidateKept(cfg, g, s, car);
    assert car in g.defs;
    hide IsSite, Fused, Typed, Graph.Valid, IsNormOf, AddSite, FusedAddSite, IsCandidate, Graph.Users, NoAddSite;
    if f :| FusedAddSite(cfg, g, car, f).Some? {
      FusedAddSiteKept(cfg, g, s, car, f);
    } else {
      var add := GoodAdd(cfg, g, car);
      if add in s.outs { OutsRead(cfg, g, s, add); }
      AddFusableKept(cfg, g, s, car, add);
    }
  }

  lemma GoodAdd(cfg: Config, g: Graph, car: Id) returns (add: Id)
    requires car in g.defs && !NoAddSite(cfg, g, car)
    ensures add in g.Users(car) && IsAdd(g.defs[add]) && g.defs[add].target.AddTensor? && exists rms :: IsNormOf(g, add, rms)
    ensures forall rms | IsNormOf(g, add, rms) :: AddSite(cfg, g, car, add, rms) != None
  {
    hide AddSite;
    add :| add in g.Users(car) && IsAdd(g.defs[add]) && (exists rms :: IsNormOf(g, add, rms))
           && forall rms | IsNormOf(g, add, rms) :: AddSite(cfg, g, car, add, rms) != None;
  }

  /** ... and so do the other conditions of the pass. */
  lemma AllFusableKept(cfg: Config, g: Graph, s: Site, todo: set<Id>)
    requires g.Valid() && IsSite(cfg, g, s) && AllFusable(cfg, g, todo) && s.car in todo
    ensures |g.defs[s.car].args| >= 1 && AllFusable(cfg, Fused(cfg, g, s), todo - {s.car})
  {
    SiteMatched(cfg, g, s);
    SiteTyped(cfg, g, s);
    SiteTargets(cfg, g, s);
    hide IsSite, Fused, Typed, Graph.Valid, UsersTyped, FusedAddSite, NoAddSite, Matched, Graph.Users;
    forall c | c in todo - {s.car}
      ensures c in g.defs && c !in s.outs && Fusable(cfg, Fused(cfg, g, s), c) && UsersTyped(Fused(cfg, g, s), c)
    {
      assert Fusable(cfg, g, c) && UsersTyped(g, c);
      forall add | UserIs(g, c, add) && g.defs[add].target.AddTensor?
        ensures add !in g.Users(s.car)
      {
        UsedBy(g, c, add);
      }
      CarUsers(g, c);
      FusableKept(cfg, g, s, c);
      UsersTypedKept(cfg, g, s, c);
    }
    ApartKept(cfg, g, s, todo - {s.car});
  }

  predicate UserIs(g: Graph, n: Id, m: Id) {
    m in g.defs && m in g.Users(n)
  }

  lemma CarUsers(g: Graph, n: Id)
    ensures forall m | m in g.Users(n) :: m in g.defs && UserIs(g, n, m)
  {
  }

  // ----- the whole pass -----

  lemma FusableRewrites(cfg: Config, g: Graph, car: Id, g': Graph) returns (s: Site)
    requires g.Valid() && Visited(cfg, g, car, g') && Fusable(cfg, g, car)
    ensures s.car == car && IsSite(cfg, g, s) && |g.defs[car].args| >= 1 && g' == Fused(cfg, g, s)
    ensures g'.next == g.next + (if UseRaw(s) then 4 else 3)
  {
    hide FusedAddSite, AddSite, Fused, NoAddSite, Graph.Valid;
    forall f | FusedAddSite(cfg, g, car, f).Some?
      ensures FusedAddSite(cfg, g, car, f).value.car == car
    {
      FusedAddCar(cfg, g, car, f);
    }
    forall add, rms | AddSite(cfg, g, car, add, rms).Some?
      ensures AddSite(cfg, g, car, add, rms).value.car == car
    {
      AddCar(cfg, g, car, add, rms);
    }
    if exists f :: FusedAddSite(cfg, g, car, f).Some? {
      var f :| FusedAddSite(cfg, g, car, f).Some? && g' == Fused(cfg, g, FusedAddSite(cfg, g, car, f).value);
      s := FusedAddSite(cfg, g, car, f).value;
    } else {
      var add, rms :| AddSite(cfg, g, car, add, rms).Some? && g' == Fused(cfg, g, AddSite(cfg, g, car, add, rms).value);
      s := AddSite(cfg, g, car, add, rms).value;
    }
    SiteMatched(cfg, g, s);
    FusedNext(cfg, g, s);
  }

  /** The candidates among the nodes from `k` on. */
  ghost function Todo(cfg: Config, g: Graph, snapshot: seq<Id>, k: nat): set<Id>
    requires k <= |snapshot|
  {
    set i | k <= i < |snapshot| && IsCandidate(cfg, g, snapshot[i]) :: snapshot[i]
  }

  ghost predicate IsPass(cfg: Config, snapshot: seq<Id>, trace: seq<Graph>) {
    && IsRun(cfg, snapshot, trace) && trace[0].Valid() && snapshot == trace[0].order
    && forall i, j | 0 <= i < j < |snapshot| :: snapshot[i] != snapshot[j]
  }

  lemma TodoStep(cfg: Config, g: Graph, snapshot: seq<Id>, k: nat)
    requires k < |snapshot| && forall i, j | 0 <= i < j < |snapshot| :: snapshot[i] != snapshot[j]
    ensures var (now, next) := (Todo(cfg, g, snapshot, k), Todo(cfg, g, snapshot, k + 1));
            && (IsCandidate(cfg, g, snapshot[k]) ==> snapshot[k] in now && next == now - {snapshot[k]})
            && (!IsCandidate(cfg, g, snapshot[k]) ==> next == now)
  {
    hide IsCandidate;
    var (now, next) := (Todo(cfg, g, snapshot, k), Todo(cfg, g, snapshot, k + 1));
    forall n
      ensures n in now <==> n in next || (n == snapshot[k] && IsCandidate(cfg, g, n))
      ensures n == snapshot[k] ==> n !in next
    {
      if n in now {
        var i :| k <= i < |snapshot| && IsCandidate(cfg, g, snapshot[i]) && snapshot[i] == n;
      }
    }
    if IsCandidate(cfg, g, snapshot[k]) {
      assert next == now - {snapshot[k]};
    } else {
      assert next == now;
    }
  }

  /** The state of the pass before visit `k`. */
  ghost predicate ReadyAt(cfg: Config, snapshot: seq<Id>, trace: seq<Graph>, k: nat)
    requires IsRun(cfg, snapshot, trace) && k <= |snapshot|
  {
    && trace[k].Valid() && trace[0].next <= trace[k].next && AllFusable(cfg, trace[k], Todo(cfg, trace[0], snapshot, k))
    && forall n | n in trace[0].defs && IsCandidate(cfg, trace[k], n) :: IsCandidate(cfg, trace[0], n)
  }

  lemma NotThere(cfg: Config, g: Graph, s: Site, n: Id)
    requires g.Valid() && IsSite(cfg, g, s) && n < g.next
    ensures |g.defs[s.car].args| >= 1 && (n in Fused(cfg, g, s).defs ==> n in g.defs)
    ensures g.next <= Fused(cfg, g, s).next
  {
    SiteMatched(cfg, g, s);
    WithFusedExtended(cfg, g, s);
    FusedNext(cfg, g, s);
    var h := WithFused(cfg, g, s);
    RewiredNodes(cfg, g, s, h);
    hide IsSite, Matched, Extended, Graph.Valid, WithFused, Rewired;
    SweptSubset(s, Rewired(g, s, h), n);
  }

  lemma VisitStep(cfg: Config, snapshot: seq<Id>, trace: seq<Graph>, k: nat)
    requires IsPass(cfg, snapshot, trace) && k < |snapshot| && ReadyAt(cfg, snapshot, trace, k)
    ensures ReadyAt(cfg, snapshot, trace, k + 1)
    ensures var grown := trace[k + 1].next - trace[k].next;
            if IsCandidate(cfg, trace[0], snapshot[k]) then grown == 3 || grown == 4 else trace[k + 1] == trace[k]
  {
    var (g, g', c) := (trace[k], trace[k + 1], snapshot[k]);
    assert c in trace[0].defs by { SnapshotDefined(cfg, snapshot, trace, k); }
    TodoStep(cfg, trace[0], snapshot, k);
    hide Graph.Valid, Fused, IsSite, AllFusable, Todo, UsersTyped;
    if IsCandidate(cfg, trace[0], c) {
      assert Fusable(cfg, g, c) by { StillFusable(cfg, g, Todo(cfg, trace[0], snapshot, k), c); }
      var s := FusableRewrites(cfg, g, c, g');
      FusedValid(cfg, g, s);
      AllFusableKept(cfg, g, s, Todo(cfg, trace[0], snapshot, k));
      forall n | n in trace[0].defs && IsCandidate(cfg, g', n)
        ensures IsCandidate(cfg, trace[0], n)
      {
        OldBelow(trace[0], n);
        NotThere(cfg, g, s, n);
        CandidateBack(cfg, g, s, n);
      }
    }
  }

  lemma OldBelow(g: Graph, n: Id)
    requires g.Valid() && n in g.defs
    ensures n < g.next
  {
  }

  lemma StillFusable(cfg: Config, g: Graph, todo: set<Id>, c: Id)
    requires AllFusable(cfg, g, todo) && c in todo
    ensures Fusable(cfg, g, c)
  {
  }

  lemma SnapshotDefined(cfg: Config, snapshot: seq<Id>, trace: seq<Graph>, k: nat)
    requires IsPass(cfg, snapshot, trace) && k < |snapshot|
    ensures snapshot[k] in trace[0].defs
  {
    ElemsAre(snapshot, snapshot[k]);
  }

  lemma {:induction false} ReadyAll(cfg: Config, snapshot: seq<Id>, trace: seq<Graph>, k: nat)
    requires IsPass(cfg, snapshot, trace) && k <= |snapshot| && AllFusable(cfg, trace[0], Todo(cfg, trace[0], snapshot, 0))
    ensures ReadyAt(cfg, snapshot, trace, k)
  {
    hide Visited, AllFusable, IsCandidate;
    if k > 0 {
      ReadyAll(cfg, snapshot, trace, k - 1);
      VisitStep(cfg, snapshot, trace, k - 1);
    }
  }

  /** The number of candidates among the first `k` nodes. */
  ghost function Count(cfg: Config, g: Graph, snapshot: seq<Id>, k: nat): nat
    requires k <= |snapshot|
  {
    if k == 0 then 0 else Count(cfg, g, snapshot, k - 1) + (if IsCandidate(cfg, g, snapshot[k - 1]) then 1 else 0)
  }

  lemma {:induction false} GrownAll(cfg: Config, snapshot: seq<Id>, trace: seq<Graph>, k: nat)
    requires IsPass(cfg, snapshot, trace) && k <= |snapshot| && AllFusable(cfg, trace[0], Todo(cfg, trace[0], snapshot, 0))
    ensures Grown(trace[..k + 1], 3) + Grown(trace[..k + 1], 4) == Count(cfg, trace[0], snapshot, k)
  {
    hide Visited, AllFusable, IsCandidate, Todo;
    if k > 0 {
      GrownAll(cfg, snapshot, trace, k - 1);
      ReadyAll(cfg, snapshot, trace, k - 1);
      VisitStep(cfg, snapshot, trace, k - 1);
      assert trace[..k + 1] == trace[..k] + [trace[k]];
      GrownLonger(trace[..k], trace[k], 3);
      GrownLonger(trace[..k], trace[k], 4);
    }
  }

  /** If every target all-reduce of the graph can be fused, no add joins two of them and their users
      are typed like them, then the pass rewrites each one and its two counters add up to their number. */
  lemma ChainFused(cfg: Config, snapshot: seq<Id>, trace: seq<Graph>)
    requires IsPass(cfg, snapshot, trace) && AllFusable(cfg, trace[0], Todo(cfg, trace[0], snapshot, 0))
    ensures forall k | 0 <= k < |snapshot| :: trace[k + 1] != trace[k] <==> IsCandidate(cfg, trace[0], snapshot[k])
    ensures Grown(trace, 3) + Grown(trace, 4) == Count(cfg, trace[0], snapshot, |snapshot|)
  {
    hide AllFusable, IsCandidate, Todo, ReadyAt;
    forall k: nat | k < |snapshot|
      ensures trace[k + 1] != trace[k] <==> IsCandidate(cfg, trace[0], snapshot[k])
    {
      ReadyAll(cfg, snapshot, trace, k);
      VisitStep(cfg, snapshot, trace, k);
    }
    GrownAll(cfg, snapshot, trace, |snapshot|);
    assert trace[..|snapshot| + 1] == trace;
  }
}
