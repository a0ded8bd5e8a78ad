/** When the fusion pass leaves a list that lint accepts: exactly when no redirected reader
    stands before the new nodes. */
module AllReduceLint {
  import opened Options
  import opened FxGraph
  import opened PureEval
  import opened AllReduceFusion
  import opened AllReduceRewrite
  import opened Splice

  // ----- the nodes that go and the readers that are redirected -----

  function Gone(s: Site): set<Id> {
    s.outs.Keys + (if s.husk.Some? then {s.husk.value} else {}) + (if s.residual == NodeArg(s.car) then {} else {s.car})
  }

  /** Node `m` reads a new item where it read `r`. */
  predicate Moved(s: Site, m: Id, r: Id) {
    r in s.outs || (r == s.car && m in s.others)
  }

  /** Every reader that stays and is redirected stands behind the place of the new nodes. */
  ghost predicate ReadersBehind(g: Graph, s: Site) {
    forall m, r | m in g.defs && m !in Gone(s) && r in Refs(g.defs[m]) && Moved(s, m, r) :: Precedes(g.order, s.before, m)
  }

  /** The norm's weight is not what the rewrite takes over. */
  predicate WeightApart(s: Site) {
    ArgRefs(s.weight) !! s.outs.Keys
  }

  // ----- the order of the rewritten list -----

  /** The ids `first .. first + count`. */
  function News(first: Id, count: nat): seq<Id> {
    seq(count, k => first + k)
  }

  lemma NewsElems(first: Id, count: nat, n: Id)
    ensures n in Elems(News(first, count)) <==> first <= n < first + count
    ensures n in News(first, count) <==> first <= n < first + count
  {
    ElemsAre(News(first, count), n);
    if first <= n < first + count { assert News(first, count)[n - first] == n; }
  }

  lemma {:induction false} NewsOrder(first: Id, count: nat, n: Id)
    requires first < n < first + count
    ensures Precedes(News(first, count), first, n)
  {
    var rest := News(first, count)[1..];
    assert rest[n - first - 1] == n;
    ElemsAre(rest, n);
  }

  function Extra(before: Id, first: Id, count: nat): map<Id, seq<Id>> {
    map[before := News(first, count) + [before]]
  }

  lemma OneMore(order: seq<Id>, before: Id, first: Id, count: nat)
    requires NoDup(order) && before in Elems(order) && before < first
    ensures InsertedBefore(Spliced(order, Extra(before, first, count)), before, first + count) ==
            Spliced(order, Extra(before, first, count + 1))
  {
    hide Elems, NoDup, Spliced;
    var (rep, pre) := (Extra(before, first, count), News(first, count));
    SpliceInsert(order, rep, before, first + count, pre);
    assert pre + [first + count, before] == News(first, count + 1) + [before];
    SplicedAgree(order, rep[before := pre + [first + count, before]], Extra(before, first, count + 1));
  }

  lemma {:induction false} ItemsOrder(g: Graph, s: Site, h: Graph, i: nat)
    requires g.Valid() && s.before in g.defs && s.car in g.defs && |g.defs[s.car].args| >= 1
    requires i <= OutputCount(s) && h.next == g.next + 1 + i && h.order == Spliced(g.order, Extra(s.before, g.next, 1 + i))
    ensures WithItems(g, s, h, i).order == Spliced(g.order, Extra(s.before, g.next, 1 + OutputCount(s)))
    decreases OutputCount(s) - i
  {
    hide Elems, NoDup, Spliced, Refs, Extra;
    if i < OutputCount(s) {
      OneMore(g.order, s.before, g.next, 1 + i);
      ItemsOrder(g, s, h.Inserted(s.before, ItemOf(g.New(), i, ItemMeta(g, s))), i + 1);
    }
  }

  lemma WithFusedOrder(cfg: Config, g: Graph, s: Site)
    requires g.Valid() && Matched(cfg, g, s)
    ensures WithFused(cfg, g, s).order == Spliced(g.order, Extra(s.before, g.next, 1 + OutputCount(s)))
  {
    hide Elems, NoDup, Spliced, Refs;
    SplicedNothing(g.order);
    assert News(g.next, 0) + [s.before] == [s.before];
    SplicedAgree(g.order, Extra(s.before, g.next, 0), map[]);
    OneMore(g.order, s.before, g.next, 0);
    ItemsOrder(g, s, g.Inserted(s.before, FusedNode(cfg, g, s)), 0);
  }

  lemma ErasedOrder(h: Graph, ns: set<Id>, n: Id)
    requires n in h.Erased(ns).defs && n !in h.Erased(ns).ErasedIfUnused(n).defs
    ensures h.Erased(ns).ErasedIfUnused(n) == h.Erased(ns + {n})
  {
    ErasedTwice(h, ns, {n});
  }

  /** A sweep that takes exactly the nodes of `Gone` erases them from the list. */
  lemma SweptOrder(s: Site, h: Graph)
    requires s.car in h.defs && s.car !in s.outs && s.husk != Some(s.car)
    requires s.husk.Some? ==> s.husk.value in h.defs && s.husk.value !in s.outs
    requires forall n :: n in Swept(s, h).defs <==> n in h.defs && n !in Gone(s)
    ensures Swept(s, h).order == Without(h.order, Gone(s)) && Swept(s, h).defs == h.defs - Gone(s)
  {
    hide Without, Refs;
    var (h2, h3) := (h.Erased(s.outs.Keys), HuskSwept(s, h));
    ghost var husks := s.outs.Keys + (if s.husk.Some? then {s.husk.value} else {});
    if s.husk.Some? {
      assert s.husk.value in Gone(s) && s.husk.value !in Swept(s, h).defs;
      assert s.husk.value !in h3.defs;
      ErasedOrder(h, s.outs.Keys, s.husk.value);
    } else {
      assert husks == s.outs.Keys;
    }
    assert h3 == h.Erased(husks);
    if s.residual == NodeArg(s.car) {
      assert s.car in Swept(s, h).defs;
      assert Gone(s) == husks;
    } else {
      ErasedOrder(h, husks, s.car);
      assert Gone(s) == husks + {s.car};
    }
  }

  /** Where the old nodes went. */
  function Places(g: Graph, s: Site): map<Id, seq<Id>> {
    map n | n in Gone(s) + {s.before} :: if n == s.before then News(g.next, 1 + OutputCount(s)) else []
  }

  lemma {:induction false} WithoutOthers(l: seq<Id>, ns: set<Id>)
    requires forall i | 0 <= i < |l| :: l[i] !in ns
    ensures Without(l, ns) == l
  {
    if l != [] {
      assert l[0] !in ns;
      WithoutOthers(l[1..], ns);
      assert l == [l[0]] + l[1..];
    }
  }

  lemma PlacesAre(g: Graph, s: Site, y: Id)
    requires s.before in Gone(s) && (forall n | n in Gone(s) :: n < g.next) && y < g.next
    ensures RepOf(Places(g, s), y) == Without(RepOf(Extra(s.before, g.next, 1 + OutputCount(s)), y), Gone(s))
  {
    var news := News(g.next, 1 + OutputCount(s));
    if y == s.before {
      assert forall i | 0 <= i < |news| :: news[i] !in Gone(s);
      WithoutBoth(news, [y], Gone(s));
      hide News;
      WithoutOthers(news, Gone(s));
      assert [y][1..] == [];
      assert Without([y], Gone(s)) == [];
      assert news + [] == news;
    } else {
      assert [y][1..] == [];
      assert [y] + [] == [y];
    }
  }

  /** A rewritten graph: where its nodes stand and what they are. */
  ghost predicate Rewrites(cfg: Config, g: Graph, s: Site, h: Graph) {
    && g.Valid() && h.Valid() && LintClean(g) && Matched(cfg, g, s) && s.before in Gone(s)
    && (forall n | n in Gone(s) :: n in g.defs)
    && h.order == Spliced(g.order, Places(g, s))
    && (forall n :: n in h.defs <==> (n in g.defs || g.next <= n < g.next + 1 + OutputCount(s)) && n !in Gone(s))
    && var w := WithFused(cfg, g, s);
       Extended(cfg, g, s, w, OutputCount(s)) && forall n | n in h.defs :: n in w.defs && h.defs[n] == Rewired(g, s, w).defs[n]
  }

  lemma FusedDefs(cfg: Config, g: Graph, s: Site)
    requires g.Valid() && Matched(cfg, g, s) && Readers(g, s) && !s.eps.NodeArg?
    ensures var h1 := Rewired(g, s, WithFused(cfg, g, s));
            && (forall n :: n in Fused(cfg, g, s).defs <==> n in h1.defs && n !in Gone(s))
            && (forall n :: n in h1.defs <==> n in g.defs || g.next <= n < g.next + 1 + OutputCount(s))
            && h1.order == WithFused(cfg, g, s).order
  {
    hide Graph.Valid, Readers, Trimmed;
    WithFusedExtended(cfg, g, s);
    var h := WithFused(cfg, g, s);
    RewiredTrimmed(cfg, g, s, h);
    RewiredNodes(cfg, g, s, h);
    hide Matched, Extended;
    SweptHere(g, s, Rewired(g, s, h));
    hide Rewired;
    assert forall n :: n in Swept(s, Rewired(g, s, h)).defs <==> n in Rewired(g, s, h).defs && n !in Gone(s);
  }

  lemma SweptHere(g: Graph, s: Site, h1: Graph)
    requires g.Valid() && Readers(g, s) && Trimmed(s, g.New(), h1)
    requires (forall u | u in s.outs :: u in g.defs) && forall n :: n in h1.defs <==> n in g.defs || g.next <= n < h1.next
    requires h1.next > g.next
    ensures forall n :: n in Swept(s, h1).defs <==> n in h1.defs && n !in Gone(s)
  {
    SweptNodes(s, g.New(), h1);
  }

  /** The two arms insert before the node that the fused operator replaces. */
  lemma SitePlace(cfg: Config, g: Graph, s: Site)
    requires g.Valid() && IsSite(cfg, g, s)
    ensures s.before in Gone(s) && forall n | n in Gone(s) :: n in g.defs
  {
    hide FusedAddSite, AddSite, Graph.Valid;
    SiteTargets(cfg, g, s);
    if f :| FusedAddSite(cfg, g, s.car, f) == Some(s) {
      FusedAddPlace(cfg, g, s, f);
    } else {
      var add, rms :| AddSite(cfg, g, s.car, add, rms) == Some(s);
      AddPlace(cfg, g, s, add, rms);
    }
  }

  lemma FusedAddPlace(cfg: Config, g: Graph, s: Site, f: Id)
    requires s.car in g.defs && FusedAddSite(cfg, g, s.car, f) == Some(s)
    ensures s.husk == Some(f) && s.before == f && f in g.defs && s.car in Refs(g.defs[f])
    ensures forall u | u in s.outs :: u in g.defs && f in Refs(g.defs[u])
    ensures ArgRefs(s.residual) + ArgRefs(s.weight) <= Refs(g.defs[f])
  {
    hide Supported;
    var node := g.defs[f];
    assert NodeArg(s.car) == node.args[0] && s.residual == node.args[1] && s.weight == node.args[2];
    PositionIsRef(node, 1);
    PositionIsRef(node, 2);
  }

  lemma AddPlace(cfg: Config, g: Graph, s: Site, add: Id, rms: Id)
    requires s.car in g.defs && AddSite(cfg, g, s.car, add, rms) == Some(s)
    ensures s.husk == None && s.before == rms && s.outs == map[rms := 0, add := 1] && add in g.defs && rms in g.defs
    ensures s.car in Refs(g.defs[add]) && add in Refs(g.defs[rms])
    ensures ArgRefs(s.residual) <= Refs(g.defs[add]) && ArgRefs(s.weight) <= Refs(g.defs[rms])
  {
    hide Supported;
    PositionIsRef(g.defs[add], 0);
    PositionIsRef(g.defs[add], 1);
  }

  lemma FusedRewrites(cfg: Config, g: Graph, s: Site)
    requires g.Valid() && LintClean(g) && IsSite(cfg, g, s) && !s.eps.NodeArg?
    ensures |g.defs[s.car].args| >= 1 && Rewrites(cfg, g, s, Fused(cfg, g, s))
  {
    SiteMatched(cfg, g, s);
    SiteReaders(cfg, g, s);
    SitePlace(cfg, g, s);
    FusedValid(cfg, g, s);
    hide IsSite, Matched, Readers, LintClean, Fused;
    FusedShape(cfg, g, s);
  }

  lemma FusedListed(cfg: Config, g: Graph, s: Site)
    requires g.Valid() && Matched(cfg, g, s) && Readers(g, s) && !s.eps.NodeArg?
    requires s.before in Gone(s) && forall n | n in Gone(s) :: n in g.defs
    ensures s.car in g.defs && |g.defs[s.car].args| >= 1
    ensures var h1 := Rewired(g, s, WithFused(cfg, g, s));
            && Fused(cfg, g, s).order == Spliced(g.order, Places(g, s)) && Fused(cfg, g, s).defs == h1.defs - Gone(s)
            && forall n :: n in h1.defs <==> n in g.defs || g.next <= n < g.next + 1 + OutputCount(s)
  {
    assert Matched(cfg, g, s) ==> s.car in g.defs && |g.defs[s.car].args| >= 1;
    hide Readers, Rewired, WithFused, Fused, Matched, Spliced, Places, Graph.Valid, Without, Gone, Refs;
    FusedDefs(cfg, g, s);
    var h1 := Rewired(g, s, WithFused(cfg, g, s));
    PartsOf(cfg, g, s, h1);
    FusedParts(cfg, g, s, h1);
    FusedOrder(cfg, g, s);
  }

  lemma FusedShape(cfg: Config, g: Graph, s: Site)
    requires g.Valid() && LintClean(g) && Matched(cfg, g, s) && Readers(g, s) && !s.eps.NodeArg?
    requires Fused(cfg, g, s).Valid() && s.before in Gone(s) && forall n | n in Gone(s) :: n in g.defs
    ensures Rewrites(cfg, g, s, Fused(cfg, g, s))
  {
    hide Readers, LintClean, Rewired, WithFused, Fused, Matched, Extended, Spliced, Places, Graph.Valid, Gone, Refs;
    FusedListed(cfg, g, s);
    WithFusedExtended(cfg, g, s);
    RewiredKeeps(g, s, WithFused(cfg, g, s));
  }

  lemma PartsOf(cfg: Config, g: Graph, s: Site, h1: Graph)
    requires Matched(cfg, g, s) && Readers(g, s) && forall n | n in g.defs :: n in h1.defs
    ensures s.car in h1.defs && s.car !in s.outs && s.husk != Some(s.car)
    ensures s.husk.Some? ==> s.husk.value in h1.defs && s.husk.value !in s.outs
  {
  }

  lemma FusedOrder(cfg: Config, g: Graph, s: Site)
    requires g.Valid() && Matched(cfg, g, s) && s.before in Gone(s) && forall n | n in Gone(s) :: n in g.defs
    ensures Without(WithFused(cfg, g, s).order, Gone(s)) == Spliced(g.order, Places(g, s))
  {
    WithFusedOrder(cfg, g, s);
    var extra := Extra(s.before, g.next, 1 + OutputCount(s));
    forall y | y in Elems(g.order)
      ensures RepOf(Places(g, s), y) == Without(RepOf(extra, y), Gone(s))
    {
      PlacesAre(g, s, y);
    }
    hide Matched, WithFused, Places, Spliced, Without, Gone, RepOf;
    SpliceWithout(g.order, extra, Gone(s), Places(g, s));
  }

  lemma FusedParts(cfg: Config, g: Graph, s: Site, h1: Graph)
    requires s.car in g.defs && |g.defs[s.car].args| >= 1 && h1 == Rewired(g, s, WithFused(cfg, g, s))
    requires s.car in h1.defs && s.car !in s.outs && s.husk != Some(s.car)
    requires s.husk.Some? ==> s.husk.value in h1.defs && s.husk.value !in s.outs
    requires forall n :: n in Fused(cfg, g, s).defs <==> n in h1.defs && n !in Gone(s)
    ensures Fused(cfg, g, s).order == Without(h1.order, Gone(s)) && Fused(cfg, g, s).defs == h1.defs - Gone(s)
  {
    hide Swept, Rewired, WithFused, Without, Gone;
    SweptOrder(s, h1);
  }

  // ----- the order of the rewritten list, node by node -----

  /** The old node at whose place a node of the rewritten list stands. */
  function Source(g: Graph, s: Site, n: Id): Id {
    if n >= g.next then s.before else n
  }

  lemma SourceHolds(cfg: Config, g: Graph, s: Site, h: Graph, n: Id)
    requires Rewrites(cfg, g, s, h) && n in h.defs
    ensures Source(g, s, n) in Elems(g.order) && n in Elems(RepOf(Places(g, s), Source(g, s, n)))
    ensures Owned(g.order, Places(g, s), n, Source(g, s, n))
  {
    hide Matched, Rewired, Extended, WithFused, Spliced, LintClean;
    var reps := Places(g, s);
    NewsElems(g.next, 1 + OutputCount(s), n);
    ElemsAre([n], n);
    forall z | z in Elems(g.order) && n in Elems(RepOf(reps, z))
      ensures z == Source(g, s, n)
    {
      assert z in g.defs;
      ElemsAre([z], n);
    }
  }

  lemma OrderKept(cfg: Config, g: Graph, s: Site, h: Graph, a: Id, b: Id)
    requires Rewrites(cfg, g, s, h) && a in h.defs && b in h.defs && Source(g, s, a) != Source(g, s, b)
    ensures Precedes(h.order, a, b) <==> Precedes(g.order, Source(g, s, a), Source(g, s, b))
  {
    SourceHolds(cfg, g, s, h, a);
    SourceHolds(cfg, g, s, h, b);
    hide Matched, Rewired, Extended, WithFused, LintClean, Owned, Places;
    PrecedesSpliced(g.order, Places(g, s), a, Source(g, s, a), b, Source(g, s, b));
  }

  /** The fused operator stands before its items. */
  lemma FusedFirst(cfg: Config, g: Graph, s: Site, h: Graph, n: Id)
    requires Rewrites(cfg, g, s, h) && n in h.defs && n > g.next
    ensures g.New() in h.defs && Precedes(h.order, g.New(), n)
  {
    assert g.New() in h.defs by { hide Spliced, Rewired, Extended, LintClean; }
    SourceHolds(cfg, g, s, h, g.New());
    NewsOrder(g.next, 1 + OutputCount(s), n);
    hide Matched, Rewired, Extended, WithFused, LintClean, Owned, News;
    PrecedesInside(g.order, Places(g, s), g.New(), n, s.before);
  }

  // ----- what the nodes read -----

  /** The name under which `m` reads what it read as `r`. */
  function NewName(g: Graph, s: Site, m: Id, r: Id): Id {
    if r in s.outs then Item(g, s.outs[r]) else if r == s.car && m in s.others then Item(g, 2) else r
  }

  lemma RenamedRefs(h: Graph, ms: set<Id>, sub: map<Id, Id>, m: Id, a: Id)
    requires m in h.defs
    ensures a in Refs(h.Renamed(ms, sub).defs[m]) <==>
            exists r :: r in Refs(h.defs[m]) && a == if m in ms && r in sub then sub[r] else r
  {
    RenameRefs(h.defs[m], sub);
    hide Refs;
  }

  lemma RewiredRefs(g: Graph, s: Site, h: Graph, m: Id, a: Id)
    requires m in h.defs && s.car !in s.outs && (forall u | u in s.outs :: Item(g, s.outs[u]) != s.car) && Item(g, 2) != s.car
    ensures a in Refs(Rewired(g, s, h).defs[m]) <==> exists r :: r in Refs(h.defs[m]) && a == NewName(g, s, m, r)
  {
    hide Refs, Graph.Renamed;
    var h1 := OutsRewired(g, s, h);
    assert m in h1.defs by { RenamedNodes(h, h.defs.Keys, Replacement(g, s)); }
    if UseRaw(s) { RenamedRefs(h1, s.others, map[s.car := Item(g, 2)], m, a); }
    forall r ensures r in Refs(h1.defs[m]) <==>
                     exists q :: q in Refs(h.defs[m]) && r == if q in s.outs then Item(g, s.outs[q]) else q {
      RenamedRefs(h, h.defs.Keys, Replacement(g, s), m, r);
    }
    if r :| r in Refs(h.defs[m]) && a == NewName(g, s, m, r) {
      var q := if r in s.outs then Item(g, s.outs[r]) else r;
      assert q in Refs(h1.defs[m]);
    }
  }

  /** What the fused operator reads: the all-reduce's input, the residual and the weight. */
  function FusedReads(g: Graph, s: Site): set<Id>
    requires s.car in g.defs && |g.defs[s.car].args| >= 1
  {
    ArgRefs(g.defs[s.car].args[0]) + ArgRefs(s.residual) + ArgRefs(s.weight)
  }

  /** All of it stands before the place of the new nodes. */
  lemma ReadsReady(cfg: Config, g: Graph, s: Site, a: Id)
    requires g.Valid() && LintClean(g) && IsSite(cfg, g, s) && |g.defs[s.car].args| >= 1 && a in FusedReads(g, s)
    ensures Precedes(g.order, a, s.before)
    ensures a in s.outs ==> a in ArgRefs(s.weight)
  {
    PositionIsRef(g.defs[s.car], 0);
    hide FusedAddSite, AddSite, Graph.Valid, Refs, LintClean;
    if f :| FusedAddSite(cfg, g, s.car, f) == Some(s) {
      FusedAddPlace(cfg, g, s, f);
      UsesPrecede(g, s.car, f);
      if a in ArgRefs(g.defs[s.car].args[0]) {
        UsesPrecede(g, a, s.car);
        ThenPrecedes(g, a, s.car, f);
      } else {
        UsesPrecede(g, a, f);
      }
      if a in s.outs { UsesPrecede(g, f, a); NotBoth(g, a, f); }
    } else {
      var add, rms :| AddSite(cfg, g, s.car, add, rms) == Some(s);
      AddPlace(cfg, g, s, add, rms);
      AddReady(g, s, add, rms, a);
    }
  }

  lemma ThenPrecedes(g: Graph, a: Id, b: Id, c: Id)
    requires g.Valid() && Precedes(g.order, a, b) && Precedes(g.order, b, c)
    ensures Precedes(g.order, a, c)
  {
    PrecedesTrans(g.order, a, b, c);
  }

  lemma NotBoth(g: Graph, a: Id, b: Id)
    requires g.Valid() && Precedes(g.order, a, b)
    ensures !Precedes(g.order, b, a) && a != b
  {
    PrecedesStrict(g.order, a, b);
  }

  lemma AddReady(g: Graph, s: Site, add: Id, rms: Id, a: Id)
    requires g.Valid() && LintClean(g) && s.car in g.defs && |g.defs[s.car].args| >= 1 && a in FusedReads(g, s)
    requires s.before == rms && s.outs == map[rms := 0, add := 1] && add in g.defs && rms in g.defs
    requires s.car in Refs(g.defs[add]) && add in Refs(g.defs[rms]) && ArgRefs(g.defs[s.car].args[0]) <= Refs(g.defs[s.car])
    requires ArgRefs(s.residual) <= Refs(g.defs[add]) && ArgRefs(s.weight) <= Refs(g.defs[rms])
    ensures Precedes(g.order, a, rms)
    ensures a in s.outs ==> a in ArgRefs(s.weight)
  {
    hide Graph.Valid, Refs, LintClean, Precedes;
    UsesPrecede(g, add, rms);
    if a in ArgRefs(s.weight) {
      UsesPrecede(g, a, rms);
    } else {
      if a in ArgRefs(s.residual) {
        UsesPrecede(g, a, add);
      } else {
        UsesPrecede(g, a, s.car);
        UsesPrecede(g, s.car, add);
        ThenPrecedes(g, a, s.car, add);
      }
      ThenPrecedes(g, a, add, rms);
      NotBoth(g, a, add);
      NotBoth(g, a, rms);
    }
  }

  // ----- the reads of a rewritten graph -----

  /** Reads of a node that was there before. */
  lemma OldReads(cfg: Config, g: Graph, s: Site, h: Graph, m: Id, a: Id)
    requires Rewrites(cfg, g, s, h) && m in h.defs && m in g.defs
    ensures a in Refs(h.defs[m]) <==> exists r :: r in Refs(g.defs[m]) && a == NewName(g, s, m, r)
  {
    hide LintClean, Spliced, Places, Refs, Rewired;
    RewiredRefs(g, s, WithFused(cfg, g, s), m, a);
  }

  /** Reads of the fused operator. */
  lemma NewReads(cfg: Config, g: Graph, s: Site, h: Graph, a: Id)
    requires Rewrites(cfg, g, s, h) && !s.eps.NodeArg? && g.New() in h.defs
    ensures a in Refs(h.defs[g.New()]) <==>
            exists r :: r in FusedReads(g, s) && a == if r in s.outs then Item(g, s.outs[r]) else r
  {
    hide LintClean, Spliced, Places, Refs, Rewired, FusedNode, WithFused, InsertedBefore, Gone;
    assert Rewrites(cfg, g, s, h) ==> s.car in g.defs && |g.defs[s.car].args| >= 1;
    NewNotOther(cfg, g, s, h);
    FusedRefs(cfg, g, s);
    RewiredRefs(g, s, WithFused(cfg, g, s), g.New(), a);
  }

  lemma NewNotOther(cfg: Config, g: Graph, s: Site, h: Graph)
    requires Rewrites(cfg, g, s, h)
    ensures g.New() !in s.others && g.New() !in s.outs
  {
    hide LintClean, Spliced, Places, Refs, Rewired, FusedNode, WithFused, Extended, Gone;
  }

  /** Reads of an item. */
  lemma ItemReads(cfg: Config, g: Graph, s: Site, h: Graph, m: Id, a: Id)
    requires Rewrites(cfg, g, s, h) && m in h.defs && m > g.next && a in Refs(h.defs[m])
    ensures a == g.New()
  {
    assert forall u | u in s.outs :: u in g.defs;
    hide LintClean, Spliced, Places, Refs, Rewired;
    RewiredRefs(g, s, WithFused(cfg, g, s), m, a);
    assert g.New() !in s.outs && g.New() != s.car;
  }

  // ----- the two directions -----

  lemma CleanBehind(cfg: Config, g: Graph, s: Site, h: Graph, m: Id, r: Id)
    requires Rewrites(cfg, g, s, h) && LintClean(h)
    requires m in g.defs && m !in Gone(s) && r in Refs(g.defs[m]) && Moved(s, m, r)
    ensures Precedes(g.order, s.before, m)
  {
    var a := NewName(g, s, m, r);
    InRewritten(cfg, g, s, h, m);
    OldReads(cfg, g, s, h, m, a);
    assert g.Valid() && h.Valid();
    MovedIsNew(cfg, g, s, h, m, r);
    hide Rewrites, LintClean, Precedes, Refs, NewName, Graph.Valid;
    UsesPrecede(h, a, m);
    ReadsExist(h, a, m);
    OrderKept(cfg, g, s, h, a, m);
  }

  lemma ReadsExist(h: Graph, a: Id, m: Id)
    requires h.Valid() && m in h.defs && a in Refs(h.defs[m])
    ensures a in h.defs
  {
  }

  lemma InRewritten(cfg: Config, g: Graph, s: Site, h: Graph, m: Id)
    requires Rewrites(cfg, g, s, h) && m in g.defs && m !in Gone(s)
    ensures m in h.defs && m < g.next && m != s.before
  {
  }

  lemma MovedIsNew(cfg: Config, g: Graph, s: Site, h: Graph, m: Id, r: Id)
    requires Rewrites(cfg, g, s, h) && Moved(s, m, r)
    ensures NewName(g, s, m, r) > g.next && Source(g, s, NewName(g, s, m, r)) == s.before
  {
  }

  lemma NewHere(cfg: Config, g: Graph, s: Site, h: Graph)
    requires Rewrites(cfg, g, s, h)
    ensures g.New() in h.defs && h.Valid() && forall u | u in s.outs :: Item(g, s.outs[u]) > g.next
  {
    hide LintClean, Extended, Rewired, WithFused, Spliced, Gone;
    forall n | n in Gone(s) ensures n < g.next {
      assert n in g.defs;
    }
  }

  lemma CleanWeight(cfg: Config, g: Graph, s: Site, h: Graph, r: Id)
    requires Rewrites(cfg, g, s, h) && !s.eps.NodeArg? && LintClean(h)
    requires r in ArgRefs(s.weight)
    ensures r !in s.outs
  {
    if r in s.outs {
      var a := Item(g, s.outs[r]);
      hide LintClean, Precedes, Refs, Graph.Valid, Rewrites;
      NewHere(cfg, g, s, h);
      NewReads(cfg, g, s, h, a);
      UsesPrecede(h, a, g.New());
      ReadsExist(h, a, g.New());
      FusedFirst(cfg, g, s, h, a);
      NotBoth(h, g.New(), a);
    }
  }

  /** With the readers behind, every argument precedes its reader. */
  lemma BehindPrecedes(cfg: Config, g: Graph, s: Site, h: Graph, b: Id, a: Id)
    requires Rewrites(cfg, g, s, h) && IsSite(cfg, g, s) && !s.eps.NodeArg? && ReadersBehind(g, s) && WeightApart(s)
    requires b in h.defs && a in Refs(h.defs[b])
    ensures Precedes(h.order, a, b)
  {
    assert g.Valid() && h.Valid() && LintClean(g) && Matched(cfg, g, s);
    ReadsExist(h, a, b);
    hide LintClean, Precedes, Refs, Graph.Valid, IsSite;
    if b > g.next {
      ItemReads(cfg, g, s, h, b, a);
      FusedFirst(cfg, g, s, h, b);
    } else if b == g.next {
      NewReads(cfg, g, s, h, a);
      var r :| r in FusedReads(g, s) && a == if r in s.outs then Item(g, s.outs[r]) else r;
      ReadsReady(cfg, g, s, r);
      OldBelow(g, s, r);
      OrderKept(cfg, g, s, h, a, b);
    } else {
      OldReads(cfg, g, s, h, b, a);
      var r :| r in Refs(g.defs[b]) && a == NewName(g, s, b, r);
      if Moved(s, b, r) {
        MovedIsNew(cfg, g, s, h, b, r);
      } else {
        UsesPrecede(g, r, b);
        OldBelow(g, s, r);
      }
      NotPlace(cfg, g, s, h, b);
      OrderKept(cfg, g, s, h, a, b);
    }
  }

  lemma OldBelow(g: Graph, s: Site, r: Id)
    requires g.Valid() && exists b :: Precedes(g.order, r, b)
    ensures r in g.defs && r < g.next
  {
    var b :| Precedes(g.order, r, b);
    PrecedesIn(g.order, r, b);
  }

  lemma NotPlace(cfg: Config, g: Graph, s: Site, h: Graph, b: Id)
    requires Rewrites(cfg, g, s, h) && b in h.defs && b < g.next
    ensures b in g.defs && b != s.before && b !in Gone(s)
  {
  }

  /** One rewrite of a lint-clean graph leaves a lint-clean graph if and only if every reader it
      redirects stands behind the place of the new nodes, and the norm's weight is not the add. */
  lemma FusedLintIff(cfg: Config, g: Graph, s: Site)
    requires g.Valid() && LintClean(g) && IsSite(cfg, g, s) && !s.eps.NodeArg?
    ensures |g.defs[s.car].args| >= 1
    ensures LintClean(Fused(cfg, g, s)) <==> ReadersBehind(g, s) && WeightApart(s)
  {
    FusedRewrites(cfg, g, s);
    var h := Fused(cfg, g, s);
    assert h.Valid();
    hide Fused, IsSite, Refs, Precedes, NewName, DefBeforeUse, Moved, Gone;
    if LintClean(h) {
      forall m, r | m in g.defs && m !in Gone(s) && r in Refs(g.defs[m]) && Moved(s, m, r)
        ensures Precedes(g.order, s.before, m)
      {
        CleanBehind(cfg, g, s, h, m, r);
      }
      forall r | r in ArgRefs(s.weight) ensures r !in s.outs { CleanWeight(cfg, g, s, h, r); }
    }
    if ReadersBehind(g, s) && WeightApart(s) {
      hide ReadersBehind, Rewrites, WeightApart;
      forall b, a | b in Elems(h.order) && a in Refs(h.defs[b])
        ensures Precedes(h.order, a, b)
      {
        BehindPrecedes(cfg, g, s, h, b, a);
      }
      PrecedesLint(h.order, h.defs, {});
    }
  }

  // ----- a whole pass -----

  /** The visit of `car` made `g'` of `g` by rewriting the site `s`. */
  ghost predicate Makes(cfg: Config, g: Graph, car: Id, s: Site, g': Graph) {
    s.car == car && IsSite(cfg, g, s) && |g.defs[car].args| >= 1 && g' == Fused(cfg, g, s)
  }

  /** The rewrite of a visit meets the condition. */
  ghost predicate Orderly(cfg: Config, g: Graph, car: Id, g': Graph) {
    forall s: Site | Makes(cfg, g, car, s, g') :: ReadersBehind(g, s) && WeightApart(s)
  }

  /** Its norm's epsilon is a number. */
  ghost predicate PlainEps(cfg: Config, g: Graph, car: Id, g': Graph) {
    forall s: Site | Makes(cfg, g, car, s, g') :: !s.eps.NodeArg?
  }

  lemma VisitSite(cfg: Config, g: Graph, car: Id, g': Graph) returns (s: Site)
    requires Visited(cfg, g, car, g') && g' != g
    ensures Makes(cfg, g, car, s, g')
  {
    hide FusedAddSite, AddSite, Fused, NoAddSite;
    forall f | FusedAddSite(cfg, g, car, f).Some?
      ensures FusedAddSite(cfg, g, car, f).value.car == car
    {
      FusedAddCar(cfg, g, car, f);
    }
    forall add, rms | AddSite(cfg, g, car, add, rms).Some?
      ensures AddSite(cfg, g, car, add, rms).value.car == car
    {
      AddCar(cfg, g, car, add, rms);
    }
    if exists f :: FusedAddSite(cfg, g, car, f).Some? {
      var f :| FusedAddSite(cfg, g, car, f).Some? && g' == Fused(cfg, g, FusedAddSite(cfg, g, car, f).value);
      s := FusedAddSite(cfg, g, car, f).value;
    } else {
      var add, rms :| AddSite(cfg, g, car, add, rms).Some? && g' == Fused(cfg, g, AddSite(cfg, g, car, add, rms).value);
      s := AddSite(cfg, g, car, add, rms).value;
    }
  }

  /** A run whose norms have numbers for their epsilons; the source's `float` call refuses others. */
  ghost predicate PlainRun(cfg: Config, snapshot: seq<Id>, trace: seq<Graph>) {
    && IsRun(cfg, snapshot, trace) && trace[0].Valid() && LintClean(trace[0])
    && forall i | 0 <= i < |snapshot| && trace[i + 1] != trace[i] :: PlainEps(cfg, trace[i], snapshot[i], trace[i + 1])
  }

  lemma VisitCleanIff(cfg: Config, g: Graph, car: Id, g': Graph)
    requires g.Valid() && LintClean(g) && Visited(cfg, g, car, g') && g' != g && PlainEps(cfg, g, car, g')
    ensures g'.Valid() && (LintClean(g') <==> Orderly(cfg, g, car, g'))
  {
    hide Visited, LintClean, IsSite, Fused, ReadersBehind, WeightApart, Graph.Valid;
    var s := VisitSite(cfg, g, car, g');
    FusedValid(cfg, g, s);
    forall s: Site | Makes(cfg, g, car, s, g')
      ensures LintClean(g') <==> ReadersBehind(g, s) && WeightApart(s)
    {
      FusedLintIff(cfg, g, s);
    }
    assert Makes(cfg, g, car, s, g');
  }

  lemma {:induction false} CleanSoFar(cfg: Config, snapshot: seq<Id>, trace: seq<Graph>, k: nat)
    requires PlainRun(cfg, snapshot, trace) && k <= |snapshot|
    requires forall i | 0 <= i < k && trace[i + 1] != trace[i] ::
               Orderly(cfg, trace[i], snapshot[i], trace[i + 1]) || LintClean(trace[i + 1])
    ensures trace[k].Valid() && LintClean(trace[k])
  {
    hide Graph.Valid, LintClean, Orderly, Visited, PlainEps;
    if k > 0 {
      CleanSoFar(cfg, snapshot, trace, k - 1);
      if trace[k] != trace[k - 1] { VisitCleanIff(cfg, trace[k - 1], snapshot[k - 1], trace[k]); }
    }
  }

  /** From a list that lint accepts, every list of the pass is one exactly when every rewrite meets
      the condition. */
  lemma RunCleanIff(cfg: Config, snapshot: seq<Id>, trace: seq<Graph>)
    requires PlainRun(cfg, snapshot, trace)
    ensures (forall i | 0 <= i < |trace| :: LintClean(trace[i])) <==>
            (forall i | 0 <= i < |snapshot| && trace[i + 1] != trace[i] :: Orderly(cfg, trace[i], snapshot[i], trace[i + 1]))
  {
    hide Graph.Valid, LintClean, Orderly, Visited, PlainEps;
    if forall i | 0 <= i < |trace| :: LintClean(trace[i]) {
      forall i: nat | i < |snapshot| && trace[i + 1] != trace[i]
        ensures Orderly(cfg, trace[i], snapshot[i], trace[i + 1])
      {
        CleanSoFar(cfg, snapshot, trace, i);
        VisitCleanIff(cfg, trace[i], snapshot[i], trace[i + 1]);
      }
    } else if forall i | 0 <= i < |snapshot| && trace[i + 1] != trace[i] :: Orderly(cfg, trace[i], snapshot[i], trace[i + 1]) {
      forall i: nat | i < |trace| { CleanSoFar(cfg, snapshot, trace, i); }
    }
  }

  // ----- the collectives of a whole pass -----

  /** The visit rewrote an all-reduce that is its own residual. */
  ghost predicate OwnResidual(cfg: Config, g: Graph, car: Id, g': Graph) {
    exists s: Site :: Makes(cfg, g, car, s, g') && s.residual == NodeArg(car)
  }

  ghost function OwnResiduals(cfg: Config, snapshot: seq<Id>, trace: seq<Graph>, k: nat): nat
    requires k <= |snapshot| < |trace|
  {
    if k == 0 then 0
    else OwnResiduals(cfg, snapshot, trace, k - 1) +
         (if trace[k] != trace[k - 1] && OwnResidual(cfg, trace[k - 1], snapshot[k - 1], trace[k]) then 1 else 0)
  }

  lemma VisitCollectives(cfg: Config, g: Graph, car: Id, g': Graph)
    requires g.Valid() && LintClean(g) && Visited(cfg, g, car, g') && g' != g && PlainEps(cfg, g, car, g')
    ensures |Collectives(g')| == |Collectives(g)| + (if OwnResidual(cfg, g, car, g') then 1 else 0)
  {
    hide Visited, LintClean, IsSite, Fused, Collectives, Graph.Valid;
    var s := VisitSite(cfg, g, car, g');
    if OwnResidual(cfg, g, car, g') {
      var t: Site :| Makes(cfg, g, car, t, g') && t.residual == NodeArg(car);
      CollectivesKept(cfg, g, t);
    } else {
      CollectivesKept(cfg, g, s);
    }
  }

  lemma {:induction false} CollectivesSoFar(cfg: Config, snapshot: seq<Id>, trace: seq<Graph>, k: nat)
    requires PlainRun(cfg, snapshot, trace) && k <= |snapshot|
    requires forall i | 0 <= i < k :: LintClean(trace[i])
    ensures |Collectives(trace[k])| == |Collectives(trace[0])| + OwnResiduals(cfg, snapshot, trace, k)
  {
    hide Graph.Valid, LintClean, Visited, PlainEps, Collectives, OwnResidual;
    if k > 0 {
      CollectivesSoFar(cfg, snapshot, trace, k - 1);
      CleanSoFar(cfg, snapshot, trace, k - 1);
      if trace[k] != trace[k - 1] { VisitCollectives(cfg, trace[k - 1], snapshot[k - 1], trace[k]); }
    }
  }

  /** A pass whose lists lint accepts ends with as many collectives as it began with, and one more
      for every all-reduce it rewrote that is its own residual. */
  lemma RunCollectives(cfg: Config, snapshot: seq<Id>, trace: seq<Graph>)
    requires PlainRun(cfg, snapshot, trace)
    requires forall i | 0 <= i < |snapshot| && trace[i + 1] != trace[i] :: Orderly(cfg, trace[i], snapshot[i], trace[i + 1])
    ensures |Collectives(trace[|trace| - 1])| == |Collectives(trace[0])| + OwnResiduals(cfg, snapshot, trace, |snapshot|)
  {
    hide PlainRun, Orderly, LintClean;
    RunCleanIff(cfg, snapshot, trace);
    RunLength(cfg, snapshot, trace);
    CollectivesSoFar(cfg, snapshot, trace, |snapshot|);
  }

  lemma RunLength(cfg: Config, snapshot: seq<Id>, trace: seq<Graph>)
    requires PlainRun(cfg, snapshot, trace)
    ensures |trace| == |snapshot| + 1
  {
  }

  // ----- the rewritten all-reduces -----

  /** What one visit does to the node `n`: no node comes back, and an all-reduce goes only by
      being rewritten itself. */
  lemma VisitFate(cfg: Config, g: Graph, car: Id, g': Graph, n: Id)
    requires g.Valid() && LintClean(g) && Visited(cfg, g, car, g') && g' != g && PlainEps(cfg, g, car, g') && n < g.next
    ensures g.next <= g'.next && (n !in g.defs ==> n !in g'.defs)
    ensures n in g.defs && g.defs[n].target.AllReduce? && n != car ==> n in g'.defs && g'.defs[n].target.AllReduce?
    ensures n == car ==> (n in g'.defs <==> OwnResidual(cfg, g, car, g')) && (n in g'.defs ==> g'.defs[n].target.AllReduce?)
  {
    hide Visited, LintClean, Fused, Graph.Valid, Makes, IsSite;
    var s := VisitSite(cfg, g, car, g');
    MadeErases(cfg, g, car, s, g');
    if OwnResidual(cfg, g, car, g') {
      var t: Site :| Makes(cfg, g, car, t, g') && t.residual == NodeArg(car);
      MadeErases(cfg, g, car, t, g');
    }
  }

  lemma MadeErases(cfg: Config, g: Graph, car: Id, s: Site, g': Graph)
    requires g.Valid() && LintClean(g) && Makes(cfg, g, car, s, g') && PlainEps(cfg, g, car, g')
    ensures ErasesExactly(g, s, g') && s.car == car && car in g.defs && g.defs[car].target.AllReduce?
    ensures car !in s.outs && s.husk != Some(car)
    ensures forall u | u in s.outs || s.husk == Some(u) :: u in g.defs && !g.defs[u].target.AllReduce?
  {
    assert IsTargetAllReduce(cfg, g.defs[car]) by { hide Fused; }
    hide LintClean, Fused, Graph.Valid, ErasesExactly;
    FusedErases(cfg, g, s);
    SiteTargets(cfg, g, s);
  }

  lemma {:induction false} FateSoFar(cfg: Config, snapshot: seq<Id>, trace: seq<Graph>, i: nat, k: nat)
    requires PlainRun(cfg, snapshot, trace) && forall j | 0 <= j < |trace| :: LintClean(trace[j])
    requires forall a, b | 0 <= a < b < |snapshot| :: snapshot[a] != snapshot[b]
    requires i < k <= |snapshot| && trace[i + 1] != trace[i]
    ensures var n := snapshot[i];
            && n < trace[k].next && trace[k].Valid()
            && (n in trace[k].defs <==> OwnResidual(cfg, trace[i], n, trace[i + 1]))
            && (n in trace[k].defs ==> trace[k].defs[n].target.AllReduce?)
    decreases k
  {
    hide LintClean, Visited, PlainEps, OwnResidual, Graph.Valid;
    var n := snapshot[i];
    CleanSoFar(cfg, snapshot, trace, k - 1);
    CleanSoFar(cfg, snapshot, trace, k);
    if k == i + 1 {
      CarOld(cfg, trace[i], n, trace[i + 1]);
      VisitFate(cfg, trace[i], n, trace[i + 1], n);
    } else {
      FateSoFar(cfg, snapshot, trace, i, k - 1);
      if trace[k] != trace[k - 1] { VisitFate(cfg, trace[k - 1], snapshot[k - 1], trace[k], n); }
    }
  }

  lemma CarOld(cfg: Config, g: Graph, car: Id, g': Graph)
    requires g.Valid() && Visited(cfg, g, car, g') && g' != g
    ensures car in g.defs && car < g.next
  {
    hide Visited, Fused;
    var s := VisitSite(cfg, g, car, g');
  }

  /** Of the all-reduces that such a pass rewrites, exactly those that are their own residual are
      still there at the end. */
  lemma RewrittenStayIff(cfg: Config, snapshot: seq<Id>, trace: seq<Graph>, i: nat)
    requires PlainRun(cfg, snapshot, trace)
    requires forall j | 0 <= j < |snapshot| && trace[j + 1] != trace[j] :: Orderly(cfg, trace[j], snapshot[j], trace[j + 1])
    requires forall a, b | 0 <= a < b < |snapshot| :: snapshot[a] != snapshot[b]
    requires i < |snapshot| && trace[i + 1] != trace[i]
    ensures snapshot[i] in trace[|trace| - 1].defs <==> OwnResidual(cfg, trace[i], snapshot[i], trace[i + 1])
  {
    hide PlainRun, Orderly, LintClean, OwnResidual, Graph.Valid;
    RunCleanIff(cfg, snapshot, trace);
    RunLength(cfg, snapshot, trace);
    FateSoFar(cfg, snapshot, trace, i, |snapshot|);
  }
}
