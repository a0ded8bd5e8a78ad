/** One layer of a Qwen2 graph whose KV update comes before its RoPE. The plan is accepted, lint
    accepts the rewritten graph, and the cache is another one. */
module Qwen2Example {
  import opened Options
  import opened FxGraph
  import opened EffectEval
  import opened Presplit
  import opened Qwen2Presplit
  import opened Qwen2Apply
  import opened Qwen2Meaning
  import opened Qwen2Outcome
  import opened Qwen2Order
  import opened Splice
  import opened Numbered

  function Shaped(shape: seq<int>): Option<TensorMeta> {
    Some(TensorMeta(true, Device("musa", 0), shape, BFloat16, true))
  }

  function Plain(target: Target, args: seq<Arg>): Node {
    Node(target, args, map[], None)
  }

  /** The packed tensor, positions, rotary cache and attention output; then the three parts and
      their views, and the calls. */
  function NodeAt(n: Id): Node {
    if n < 4 then Plain(Placeholder, [])
    else if n == 4 then Plain(SplitWithSizes, [NodeArg(0), IntsArg([896, 128, 128]), IntArg(-1)])
    else if n == 5 then Plain(GetItem, [NodeArg(4), IntArg(0)])
    else if n == 6 then Plain(GetItem, [NodeArg(4), IntArg(1)])
    else if n == 7 then Plain(GetItem, [NodeArg(4), IntArg(2)])
    else if n == 8 then Node(View, [NodeArg(5), IntsArg([5, 14, 64])], map[], Shaped([5, 14, 64]))
    else if n == 9 then Node(View, [NodeArg(6), IntsArg([5, 2, 64])], map[], Shaped([5, 2, 64]))
    else if n == 10 then Node(View, [NodeArg(7), IntsArg([5, 2, 64])], map[], Shaped([5, 2, 64]))
    else if n == 11 then Plain(KvUpdate, [NodeArg(9), NodeArg(10), StrArg("layer")])
    else if n == 12 then Plain(Rope, [NodeArg(1), NodeArg(5), NodeArg(6), IntArg(64), NodeArg(2), BoolArg(true)])
    else Plain(Attention, [NodeArg(8), NodeArg(9), NodeArg(10), NodeArg(3), StrArg("layer"), NoneArg, NoneArg, NodeArg(11)])
  }

  function Nodes(): seq<Node> {
    seq(14, n requires 0 <= n < 14 => NodeAt(n))
  }

  function Inputs(n: Id): set<Id> {
    if n == 4 then {0} else if n == 5 || n == 6 || n == 7 then {4}
    else if n == 8 then {5} else if n == 9 then {6} else if n == 10 then {7}
    else if n == 11 then {9, 10} else if n == 12 then {1, 5, 6, 2} else if n == 13 then {8, 9, 10, 3, 11} else {}
  }

  lemma InputsAre(n: nat, r: Id)
    requires n < 14
    ensures r in Refs(NodeAt(n)) <==> r in Inputs(n)
  {
    var args := NodeAt(n).args;
    assert r in Refs(NodeAt(n)) <==> exists i :: 0 <= i < |args| && args[i] == NodeArg(r);
    if r in Inputs(n) {
      assert args[0] == NodeArg(r) || args[1] == NodeArg(r) || args[2] == NodeArg(r) || args[3] == NodeArg(r)
             || args[4] == NodeArg(r) || args[7] == NodeArg(r);
    }
  }

  function Layer(): Graph {
    Listed(Nodes())
  }

  const SITE := Candidate(12, 11, 13, 8, 9, 10, 1, 2, true, "layer")
  const BASES := Bases(5, 6, 7, 4)

  lemma LayerIsClean()
    ensures Layer().Valid() && LintClean(Layer())
  {
    forall i: nat, r | i < 14 && r in Refs(Nodes()[i])
      ensures 0 <= r < i
    {
      assert Nodes()[i] == NodeAt(i);
      InputsAre(i, r);
    }
    ListedIsClean(Nodes());
  }

  lemma LayerAt(n: nat)
    requires n < 14
    ensures n in Layer().defs && At(Layer(), n) == Layer().defs[n] == NodeAt(n)
  {
  }

  lemma LayerIds(n: Id)
    ensures n in Layer().defs <==> 0 <= n < 14
  {
  }

  lemma UsersOf(n: Id, s: set<Id>)
    requires forall m :: m in s <==> 0 <= m < 14 && n in Inputs(m)
    ensures Layer().Users(n) == s
  {
    hide Inputs;
    forall m
      ensures m in Layer().Users(n) <==> m in s
    {
      LayerIds(m);
      if 0 <= m < 14 {
        LayerAt(m);
        InputsAre(m, n);
      }
      UsersAre(Layer(), n, m);
    }
    hide Layer;
    assert Layer().Users(n) == s;
  }

  lemma LayerPrivate()
    ensures Private(Layer(), SITE, BASES)
  {
    hide Layer, NodeAt, Graph.Users;
    UsersOf(11, {13});
    UsersOf(12, {});
    UsersOf(5, {8, 12});
    UsersOf(6, {9, 12});
    UsersOf(7, {10});
    UsersOf(8, {13});
    UsersOf(9, {11, 13});
    UsersOf(10, {11, 13});
  }

  lemma KvArgs()
    ensures var kv := NodeAt(11);
            && kv.target.KvUpdate? && ArgOf(kv, 0, "key") == Some(NodeArg(9)) && ArgOf(kv, 1, "value") == Some(NodeArg(10))
            && ArgOf(kv, 2, "layer_name") == Some(StrArg("layer"))
  {
  }

  lemma AttentionArgs()
    ensures var att := NodeAt(13);
            && att.target.Attention? && ArgOf(att, 0, "query") == Some(NodeArg(8)) && ArgOf(att, 1, "key") == Some(NodeArg(9))
            && ArgOf(att, 2, "value") == Some(NodeArg(10)) && ArgOf(att, 4, "layer_name") == Some(StrArg("layer"))
            && ArgOf(att, 7, "kv_cache_dummy_dep") == Some(NodeArg(11))
  {
  }

  lemma LayerReads()
    ensures ReadsLayer(Layer(), SITE)
  {
    hide Layer, At, NodeAt, ArgOf;
    LayerAt(11);
    LayerAt(13);
    KvArgs();
    AttentionArgs();
  }

  lemma LayerRotates()
    ensures RotatesBases(Layer(), SITE, BASES)
  {
    hide Layer, At;
    LayerAt(12);
  }

  lemma LayerHeads()
    ensures HeadView(Layer(), 8, 5, 14) && HeadView(Layer(), 9, 6, 2) && HeadView(Layer(), 10, 7, 2)
  {
    hide Layer, At;
    LayerAt(8);
    LayerAt(9);
    LayerAt(10);
  }

  lemma LayerSplit()
    ensures SplitItem(At(Layer(), 5), 0) == SplitItem(At(Layer(), 6), 1) == SplitItem(At(Layer(), 7), 2) == Some(4)
    ensures SplitSizes(At(Layer(), 4)) == Some([896, 128, 128])
  {
    hide Layer, At;
    LayerAt(4);
    LayerAt(5);
    LayerAt(6);
    LayerAt(7);
  }

  lemma LayerPacked()
    ensures Packed(Layer(), SITE, BASES)
  {
    LayerHeads();
    LayerSplit();
    hide Layer, At, HeadView, SplitItem, SplitSizes;
  }

  lemma LayerWired()
    ensures Wired(Layer(), SITE, BASES)
  {
    hide Private, ReadsLayer, RotatesBases, Packed, Layer;
    LayerPrivate();
    LayerReads();
    LayerRotates();
    LayerPacked();
    LayerIds(11);
  }

  // ----- the plan is accepted and applies -----

  lemma LayerElems()
    ensures NoDup(Layer().order) && Elems(Layer().order) <= Layer().defs.Keys
    ensures forall n :: n in Elems(Layer().order) <==> 0 <= n < 14
  {
    ListedOrder(Nodes());
    forall n { RangeElems(0, 14, n); }
  }

  lemma LayerTargets(n: Id)
    requires n in Elems(Layer().order)
    ensures 0 <= n < 14 && At(Layer(), n).target == NodeAt(n).target
  {
    RangeElems(0, 14, n);
    LayerAt(n);
  }

  predicate Inserts(node: Node) {
    node.target.KvUpdate? || node.target.FusedQwen2? || node.target.FusedQwen3?
  }

  lemma TargetsAre(n: Id)
    requires 0 <= n < 14
    ensures NodeAt(n).target == Rope <==> n == 12
    ensures NodeAt(n).target == KvUpdate <==> n == 11
    ensures Inserts(NodeAt(n)) <==> n == 11
  {
  }

  lemma LayerCalls()
    ensures Calls(Layer().order, Layer(), Rope) == [12] && Calls(Layer().order, Layer(), KvUpdate) == [11]
  {
    hide Layer, NodeAt, At;
    LayerElems();
    forall n | n in Elems(Layer().order)
      ensures At(Layer(), n).target == Rope <==> n == 12
      ensures At(Layer(), n).target == KvUpdate <==> n == 11
    {
      LayerTargets(n);
      TargetsAre(n);
    }
    OneCall(Layer().order, Layer(), Rope, 12);
    OneCall(Layer().order, Layer(), KvUpdate, 11);
  }

  lemma OneSite(g: Graph, c: Candidate)
    requires Calls(g.order, g, Rope) == [c.rope] && Calls(g.order, g, KvUpdate) == [c.kvUpdate] && Site(g, c)
    ensures IsPlan(g, 1, [c])
  {
    hide Calls, Site;
    assert SiteOf(g, c.kvUpdate, [c][0]);
    assert RopesOf([c])[0] == c.rope;
  }

  lemma LayerPlanned()
    ensures IsPlan(Layer(), 1, [SITE])
  {
    hide Layer, Wired, IsPlan, Calls;
    LayerCalls();
    LayerWired();
    OneSite(Layer(), SITE);
  }

  /** The rewritten graph. */
  function After(): Graph {
    if SITE.kvUpdate in Layer().defs then Qwen2Apply.Step(Layer(), SITE) else Layer()
  }

  lemma LayerUsable()
    ensures Applicable(Layer(), [SITE]) && Applied(Layer(), [SITE], 0, Layer()) && After() == Qwen2Apply.Step(Layer(), SITE)
  {
    hide Layer, IsPlan, Applicable, Graph.Valid, LintClean, Applied, Qwen2Apply.Step;
    LayerIsClean();
    LayerPlanned();
    LayerIds(11);
    PlanApplicable(Layer(), 1, [SITE]);
    NothingApplied(Layer(), [SITE]);
  }

  lemma NothingApplied(g: Graph, cs: seq<Candidate>)
    requires g.Valid()
    ensures Applied(g, cs, 0, g)
  {
    SplicedNothing(g.order);
  }

  lemma LayerOrder(a: Id, b: Id)
    ensures Precedes(Layer().order, a, b) <==> 0 <= a < b < 14
  {
    RangePrecedes(0, 14, a, b);
  }

  lemma LayerQuiet()
    ensures Layer().Valid() && Quiet(Layer(), AliasesOf(Layer()), SITE)
  {
    LayerIsClean();
    hide Layer, Harmless, NodeAt, Graph.Valid, LintClean;
    forall x
      ensures !(Precedes(Layer().order, SITE.rope, x) && Precedes(Layer().order, x, SITE.kvUpdate))
    {
      LayerOrder(SITE.rope, x);
      LayerOrder(x, SITE.kvUpdate);
    }
    LayerDummy();
    LayerElems();
  }

  lemma LayerDummy()
    ensures DummyOnly(Layer(), SITE)
  {
    LayerAt(13);
    AttentionShows();
    hide Layer, Visible, NodeAt;
  }

  lemma AttentionShows()
    ensures 11 !in Refs(Visible(NodeAt(13)))
  {
    var args := NodeAt(13).args;
    var shown := args[7 := NoneArg];
    assert shown[0] == NodeArg(8) && shown[1] == NodeArg(9) && shown[2] == NodeArg(10) && shown[3] == NodeArg(3);
    assert !shown[4].NodeArg? && !shown[5].NodeArg? && !shown[6].NodeArg? && !shown[7].NodeArg?;
    assert forall i | 0 <= i < 8 :: shown[i] != NodeArg(11);
    hide NodeAt;
  }

  lemma LayerReady()
    ensures Ready(Layer(), SITE)
  {
    hide Layer, Precedes;
    forall x | x in FusedArgs(SITE)
      ensures Precedes(Layer().order, x, SITE.kvUpdate)
    {
      LayerOrder(x, SITE.kvUpdate);
    }
  }

  /** Planning, applying and lint all accept the layer, though its KV update comes first. */
  lemma LateRopeAccepted()
    ensures QuietPlan(Layer(), 1, [SITE], After())
    ensures Precedes(Layer().order, SITE.kvUpdate, SITE.rope)
  {
    hide Layer, Quiet, IsPlan, Applicable, LintClean, Graph.Valid, Applied, After, Qwen2Apply.Step, Precedes, Ready, Usable;
    LayerIsClean();
    LayerPlanned();
    LayerUsable();
    LayerQuiet();
    LayerReady();
    LayerOrder(SITE.kvUpdate, SITE.rope);
    StepApplied(Layer(), [SITE], 0, Layer());
    assert [SITE][0] == SITE;
    StepValid(Layer(), SITE);
    LintPassesIff(Layer(), [SITE], After());
  }

  // ----- and the cache is another one -----

  /** Two tensors: RoPE turns the key into the other one, and a cache is the last key it took. */
  ghost function Flipping(layer: Key, d0: Data, d1: Data): Interp {
    Interp((path, d) => d,
           (path, d, v) => v,
           name => layer,
           (pos, q, k, head, cos, neox) => (d0, if k == d1 then d0 else d1),
           (x, shape, weight, eps) => d0,
           (l, c, k: Val, v: Val) => if k == Tensor(d1) then d1 else d0,
           (args, kwargs, c) => d0,
           (n, target, args, kwargs) => d0,
           (n, target, r, args, kwargs, d) => d0)
  }

  lemma CacheStays(I: Interp, al: Aliases, n: Id, node: Node, s: State)
    requires !Inserts(node)
    ensures Exec(I, al, n, node, s).cache == s.cache
  {
  }

  lemma {:induction false} CachesStay(I: Interp, al: Aliases, order: seq<Id>, defs: map<Id, Node>, s: State)
    requires Elems(order) <= defs.Keys && forall n | n in Elems(order) :: !Inserts(defs[n])
    ensures ExecAll(I, al, order, defs, s).cache == s.cache
  {
    hide Inserts, Exec;
    if order != [] {
      CacheStays(I, al, order[0], defs[order[0]], s);
      CachesStay(I, al, order[1..], defs, Exec(I, al, order[0], defs[order[0]], s));
    }
  }

  lemma RestIs(before: seq<Id>, rest: seq<Id>, x: Id)
    requires Layer().order == before + [11] + rest && x in Elems(rest)
    ensures x == 12 || x == 13
  {
    ListedOrder(Nodes());
    hide Listed, NoDup, Elems, Precedes;
    ElemsSplit(before, [11], 11);
    assert [11][0] == 11 && 11 in Elems([11]) by { ElemsAre([11], 11); }
    PrecedesAcross(before + [11], rest, 11, x);
    LayerOrder(11, x);
  }

  lemma NoMoreInserts(before: seq<Id>, rest: seq<Id>)
    requires Layer().order == before + [11] + rest && Elems(rest) <= Layer().defs.Keys
    requires Elems(Spliced(rest, Reps(Layer(), [SITE], 1))) <= After().defs.Keys
    ensures forall n | n in Elems(rest) :: !Inserts(Layer().defs[n])
    ensures forall n | n in Elems(Spliced(rest, Reps(Layer(), [SITE], 1))) :: !Inserts(After().defs[n])
  {
    hide Layer, After, Reps, Inserts, Spliced, Elems;
    forall n | n in Elems(rest)
      ensures !Inserts(Layer().defs[n])
    {
      RestIs(before, rest, n);
      LayerAt(n);
      TargetsAre(n);
    }
    forall n | n in Elems(Spliced(rest, Reps(Layer(), [SITE], 1)))
      ensures !Inserts(After().defs[n])
    {
      var x := SplicedIn(rest, Reps(Layer(), [SITE], 1), n);
      RestIs(before, rest, x);
      RepIs(n, x);
    }
  }

  lemma RepIs(n: Id, x: Id)
    requires x == 12 || x == 13
    requires n in Elems(RepOf(Reps(Layer(), [SITE], 1), x)) && n in After().defs
    ensures !Inserts(After().defs[n])
  {
    hide Layer, After, Reps, Applicable, LintClean, Graph.Valid, Applied, Quiet, IsPlan, NodeAt, RepOf;
    LateRopeAccepted();
    LayerUsable();
    LayerAt(x);
    TargetsAre(x);
    RepsExact(Layer(), [SITE], 1, 0);
    assert [SITE][0] == SITE;
    if x == 13 {
      NotYetGone(Layer(), [SITE], 0);
      RepsAre(Layer(), [SITE], 1, x, n);
      ElemsAre([x], n);
      TargetsKept(Layer(), [SITE], After(), x);
    }
  }

  lemma FlippingTells(layer: Key, d0: Data, d1: Data)
    requires d0 != d1
    ensures Telling(Flipping(layer, d0, d1), d => d == d1)
  {
  }

  lemma FlippedDiffer(layer: Key, d0: Data, d1: Data, a: State, b: State)
    requires d0 != d1 && Diverged(Flipping(layer, d0, d1), d => d == d1, layer, a, b)
    ensures a.cache(layer) != b.cache(layer)
  {
    var I := Flipping(layer, d0, d1);
    var c, ka, va, kb, vb :| (ka == d1) != (kb == d1) && Took(I, layer, c, ka, va, a) && Took(I, layer, c, kb, vb, b);
  }

  /** Given two tensors, the two runs end with different caches, whatever they start from. */
  lemma LateRopeDiffers(layer: Key, d0: Data, d1: Data, s: State)
    requires d0 != d1
    ensures Layer().Valid() && After().Valid()
    ensures var I := Flipping(layer, d0, d1); Execute(I, After(), s).cache != Execute(I, Layer(), s).cache
  {
    hide Layer, After, Reps, Applicable, LintClean, Telling, Diverged, Flipping, ExecAll, QuietPlan, Rewritten, Setting, Precedes;
    LateRopeAccepted();
    LayerOrder(SITE.rope, SITE.kvUpdate);
    QuietValid();
    var (g, h, I) := (Layer(), After(), Flipping(layer, d0, d1));
    var bs := PlanSetting(g, 1, [SITE], h);
    FlippingTells(layer, d0, d1);
    var k, before, rest, a, b := Part(I, d => d == d1, g, [SITE], bs, h, 0, s);
    NoMoreInserts(before, rest);
    CachesStay(I, AliasesOf(g), rest, g.defs, a);
    CachesStay(I, AliasesOf(g), Spliced(rest, Reps(g, [SITE], 1)), h.defs, b);
    OneLayer(layer, d0, d1);
    FlippedDiffer(layer, d0, d1, a, b);
  }

  lemma QuietValid()
    ensures QuietPlan(Layer(), 1, [SITE], After()) ==> Layer().Valid() && After().Valid()
  {
  }

  lemma OneLayer(layer: Key, d0: Data, d1: Data)
    ensures forall name :: Flipping(layer, d0, d1).layer(name) == layer
  {
  }
}
