/** One layer of a dense Qwen3 graph whose KV update comes before its RoPE. The plan is accepted,
    lint accepts the rewritten graph, and the cache is another one. */
module Qwen3Example {
  import opened Options
  import opened FxGraph
  import opened EffectEval
  import opened Presplit
  import opened Qwen3Presplit
  import opened Qwen3Apply
  import opened Qwen3Meaning
  import opened Qwen3Outcome
  import opened Qwen3Lint
  import opened Qwen3Order
  import opened Splice
  import opened Numbered

  function Shaped(shape: seq<int>): Option<TensorMeta> {
    Some(TensorMeta(true, Device("musa", 0), shape, BFloat16, true))
  }

  function Call(target: Target, args: seq<Arg>): Node {
    Node(target, args, map[], None)
  }

  function View3(base: Id, shape: seq<int>): Node {
    Node(View, [NodeArg(base), IntsArg(shape)], map[], Shaped(shape))
  }

  function Norm(head: Id, weight: Id): Node {
    Call(AtenRmsNorm, [NodeArg(head), IntsArg([128]), NodeArg(weight), RealArg(0.000001)])
  }

  /** The packed tensor, positions, attention output, rotary cache and norm weights; then the three
      parts and their heads, the two norms with their views, and the calls. */
  function NodeAt(h: int, n: Id): Node {
    if n < 3 then Call(Placeholder, [])
    else if n == 3 then Node(Placeholder, [], map[], Shaped([4096, 128]))
    else if n < 6 then Node(Placeholder, [], map[], Shaped([128]))
    else if n == 6 then Call(SplitWithSizes, [NodeArg(0), IntsArg([128 * h, 1024, 1024]), IntArg(-1)])
    else if n < 10 then Call(GetItem, [NodeArg(6), IntArg(n - 7)])
    else if n == 10 then View3(7, [5, h, 128])
    else if n == 11 then View3(8, [5, 8, 128])
    else if n == 12 then View3(9, [5, 8, 128])
    else if n == 13 then Norm(10, 4)
    else if n == 14 then Norm(11, 5)
    else if n == 15 then View3(13, [5, 128 * h])
    else if n == 16 then View3(14, [5, 1024])
    else if n == 17 then View3(15, [5, h, 128])
    else if n == 18 then View3(16, [5, 8, 128])
    else if n == 19 then Call(KvUpdate, [NodeArg(18), NodeArg(12), StrArg("layer")])
    else if n == 20 then Call(Rope, [NodeArg(1), NodeArg(15), NodeArg(16), IntArg(128), NodeArg(3), BoolArg(true)])
    else Call(Attention, [NodeArg(17), NodeArg(18), NodeArg(12), NodeArg(2), StrArg("layer"), NoneArg, NoneArg, NodeArg(19)])
  }

  function Nodes(h: int): seq<Node> {
    seq(22, n requires 0 <= n < 22 => NodeAt(h, n))
  }

  function Inputs(n: Id): set<Id> {
    if n == 6 then {0} else if 7 <= n < 10 then {6}
    else if n == 10 then {7} else if n == 11 then {8} else if n == 12 then {9}
    else if n == 13 then {10, 4} else if n == 14 then {11, 5}
    else if n == 15 then {13} else if n == 16 then {14} else if n == 17 then {15} else if n == 18 then {16}
    else if n == 19 then {18, 12} else if n == 20 then {1, 15, 16, 3} else if n == 21 then {17, 18, 12, 2, 19} else {}
  }

  lemma ArgsAre(node: Node, r: Id)
    requires node.kwargs == map[] && |node.args| <= 8
    ensures r in Refs(node) <==> exists i :: 0 <= i < |node.args| && node.args[i] == NodeArg(r)
  {
  }

  lemma CallInputs(h: int, n: nat, r: Id)
    requires 19 <= n < 22
    ensures r in Refs(NodeAt(h, n)) <==> r in Inputs(n)
  {
    var args := NodeAt(h, n).args;
    ArgsAre(NodeAt(h, n), r);
    hide Refs;
    if r in Inputs(n) {
      assert args[0] == NodeArg(r) || args[1] == NodeArg(r) || args[2] == NodeArg(r) || args[3] == NodeArg(r)
             || args[4] == NodeArg(r) || args[7] == NodeArg(r);
    }
  }

  lemma InputsAre(h: int, n: nat, r: Id)
    requires n < 22
    ensures r in Refs(NodeAt(h, n)) <==> r in Inputs(n)
  {
    if n >= 19 {
      CallInputs(h, n, r);
    } else {
      var args := NodeAt(h, n).args;
      ArgsAre(NodeAt(h, n), r);
      hide Refs;
      if r in Inputs(n) { assert args[0] == NodeArg(r) || args[2] == NodeArg(r); }
    }
  }

  function Layer(h: int): Graph {
    Listed(Nodes(h))
  }

  const QUERY := Chain(17, 15, 13, 10, 4)
  const KEY := Chain(18, 16, 14, 11, 5)
  const CANDIDATE := Candidate(20, 19, 21, 10, 11, 12, 4, 5, 1, 3, StrArg("layer"))
  const SITE := Site(CANDIDATE, QUERY, KEY, 7, 8, 9, 6)

  lemma LayerAt(h: int, n: nat)
    requires n < 22
    ensures n in Layer(h).defs && At(Layer(h), n) == Layer(h).defs[n] == NodeAt(h, n)
  {
  }

  lemma LayerIds(h: int, n: Id)
    ensures n in Layer(h).defs <==> 0 <= n < 22
  {
  }

  lemma LayerIsClean(h: int)
    ensures Layer(h).Valid() && LintClean(Layer(h))
  {
    forall i: nat, r | i < 22 && r in Refs(Nodes(h)[i])
      ensures 0 <= r < i
    {
      assert Nodes(h)[i] == NodeAt(h, i);
      InputsAre(h, i, r);
    }
    ListedIsClean(Nodes(h));
  }

  lemma LayerElems(h: int)
    ensures NoDup(Layer(h).order) && Elems(Layer(h).order) <= Layer(h).defs.Keys
    ensures forall n :: n in Elems(Layer(h).order) <==> 0 <= n < 22
  {
    ListedOrder(Nodes(h));
    forall n { RangeElems(0, 22, n); }
  }

  lemma UsersOf(h: int, n: Id, s: set<Id>)
    requires forall m :: m in s <==> 0 <= m < 22 && n in Inputs(m)
    ensures Layer(h).Users(n) == s
  {
    hide Inputs;
    forall m
      ensures m in Layer(h).Users(n) <==> m in s
    {
      LayerIds(h, m);
      if 0 <= m < 22 {
        LayerAt(h, m);
        InputsAre(h, m, n);
      }
      UsersAre(Layer(h), n, m);
    }
    hide Layer;
    assert Layer(h).Users(n) == s;
  }

  lemma CallUsers(h: int)
    ensures Layer(h).Users(19) == {21} && Layer(h).Users(20) == {} && Layer(h).Users(12) == {19, 21}
  {
    hide Layer, NodeAt, Graph.Users;
    UsersOf(h, 19, {21});
    UsersOf(h, 20, {});
    UsersOf(h, 12, {19, 21});
  }

  lemma QueryUsers(h: int)
    ensures Layer(h).Users(15) == {17, 20} && Layer(h).Users(13) == {15} && Layer(h).Users(10) == {13} && Layer(h).Users(17) == {21}
  {
    hide Layer, NodeAt, Graph.Users;
    UsersOf(h, 15, {17, 20});
    UsersOf(h, 13, {15});
    UsersOf(h, 10, {13});
    UsersOf(h, 17, {21});
  }

  lemma KeyUsers(h: int)
    ensures Layer(h).Users(16) == {18, 20} && Layer(h).Users(14) == {16} && Layer(h).Users(11) == {14} && Layer(h).Users(18) == {19, 21}
  {
    hide Layer, NodeAt, Graph.Users;
    UsersOf(h, 16, {18, 20});
    UsersOf(h, 14, {16});
    UsersOf(h, 11, {14});
    UsersOf(h, 18, {19, 21});
  }

  lemma LayerPrivate(h: int)
    ensures Private(Layer(h), SITE)
  {
    hide Layer, NodeAt, Graph.Users;
    CallUsers(h);
    QueryUsers(h);
    KeyUsers(h);
  }

  lemma KvArgs(h: int)
    ensures var kv := NodeAt(h, 19);
            && kv.target.KvUpdate? && ArgOf(kv, 0, "key") == Some(NodeArg(18)) && ArgOf(kv, 1, "value") == Some(NodeArg(12))
            && ArgOf(kv, 2, "layer_name") == Some(StrArg("layer"))
  {
  }

  lemma AttentionArgs(h: int)
    ensures var att := NodeAt(h, 21);
            && att.target.Attention? && ArgOf(att, 0, "query") == Some(NodeArg(17)) && ArgOf(att, 1, "key") == Some(NodeArg(18))
            && ArgOf(att, 2, "value") == Some(NodeArg(12)) && ArgOf(att, 4, "layer_name") == Some(StrArg("layer"))
            && ArgOf(att, 7, "kv_cache_dummy_dep") == Some(NodeArg(19))
  {
  }

  lemma LayerReads(h: int)
    ensures ReadsLayer(Layer(h), SITE)
  {
    hide Layer, At, NodeAt, ArgOf;
    LayerAt(h, 19);
    LayerAt(h, 21);
    KvArgs(h);
    AttentionArgs(h);
  }

  lemma LayerRotates(h: int)
    ensures Rotates(Layer(h), SITE)
  {
    hide Layer, At;
    LayerAt(h, 20);
    LayerAt(h, 3);
  }

  lemma NormIs(head: Id, weight: Id)
    ensures IsNorm(Norm(head, weight), head, weight)
  {
  }

  lemma ViewIs(base: Id, shape: seq<int>)
    ensures ViewBase(View3(base, shape)) == Some(base)
  {
  }

  lemma QueryChain(h: int)
    ensures IsChain(Layer(h), QUERY)
  {
    hide Layer, At, IsNorm, Norm, ViewBase, View3;
    LayerAt(h, 17);
    LayerAt(h, 15);
    LayerAt(h, 13);
    ViewIs(15, [5, h, 128]);
    ViewIs(13, [5, 128 * h]);
    NormIs(10, 4);
  }

  lemma KeyChain(h: int)
    ensures IsChain(Layer(h), KEY)
  {
    hide Layer, At, IsNorm, Norm, ViewBase, View3;
    LayerAt(h, 18);
    LayerAt(h, 16);
    LayerAt(h, 14);
    ViewIs(16, [5, 8, 128]);
    ViewIs(14, [5, 1024]);
    NormIs(11, 5);
  }

  lemma ShapeIs(node: Node, shape: seq<int>, heads: int)
    requires node.meta == Shaped(shape) && |shape| == 3 && shape[1] == heads && shape[2] == 128
    ensures HasTail(node, heads, 128) && IsBf16(node)
  {
  }

  lemma WeightIs(node: Node)
    requires node.meta == Shaped([128])
    ensures HasShape(node, [128]) && IsBf16(node)
  {
  }

  lemma ViewMeta(base: Id, shape: seq<int>)
    ensures View3(base, shape).meta == Shaped(shape)
  {
  }

  lemma HeadAt(h: int, n: nat, base: Id, heads: int)
    requires n < 22 && NodeAt(h, n) == View3(base, [5, heads, 128])
    ensures HasTail(At(Layer(h), n), heads, 128) && IsBf16(At(Layer(h), n)) && ViewBase(At(Layer(h), n)) == Some(base)
  {
    hide Layer, At, NodeAt, View3, ViewBase, Shaped, HasTail, IsBf16;
    LayerAt(h, n);
    ViewIs(base, [5, heads, 128]);
    ViewMeta(base, [5, heads, 128]);
    ShapeIs(NodeAt(h, n), [5, heads, 128], heads);
  }

  lemma WeightAt(h: int, n: nat)
    requires 4 <= n < 6
    ensures HasShape(At(Layer(h), n), [128]) && IsBf16(At(Layer(h), n))
  {
    hide Layer, At, HasShape, IsBf16;
    LayerAt(h, n);
    WeightIs(NodeAt(h, n));
  }

  lemma LayerSplit(h: int)
    ensures SplitItem(At(Layer(h), 7), 0) == SplitItem(At(Layer(h), 8), 1) == SplitItem(At(Layer(h), 9), 2) == Some(6)
    ensures SplitSizes(At(Layer(h), 6)) == Some([128 * h, 1024, 1024])
  {
    hide Layer, At;
    LayerAt(h, 6);
    LayerAt(h, 7);
    LayerAt(h, 8);
    LayerAt(h, 9);
  }

  lemma LayerPacked(h: int)
    requires h == 16 || h == 32
    ensures Packed(Layer(h), SITE)
  {
    hide Layer, At, IsChain, HasTail, HasShape, IsBf16, ViewBase, SplitItem, SplitSizes;
    QueryChain(h);
    KeyChain(h);
    HeadAt(h, 10, 7, h);
    HeadAt(h, 11, 8, 8);
    HeadAt(h, 12, 9, 8);
    WeightAt(h, 4);
    WeightAt(h, 5);
    LayerSplit(h);
  }

  lemma LayerWired(h: int)
    requires h == 16 || h == 32
    ensures Wired(Layer(h), SITE)
  {
    hide Private, ReadsLayer, Rotates, Packed, Layer;
    LayerPrivate(h);
    LayerReads(h);
    LayerRotates(h);
    LayerPacked(h);
    LayerIds(h, 19);
  }

  // ----- the plan is accepted and applies -----

  lemma TargetsAre(h: int, n: Id)
    requires 0 <= n < 22
    ensures NodeAt(h, n).target == Rope <==> n == 20
    ensures NodeAt(h, n).target == KvUpdate <==> n == 19
  {
  }

  lemma LayerCalls(h: int, order: seq<Id>)
    requires NoDup(order) && forall n :: n in Elems(order) <==> 0 <= n < 22
    ensures Calls(order, Layer(h), Rope) == [20] && Calls(order, Layer(h), KvUpdate) == [19]
  {
    hide Layer, NodeAt, At;
    forall n | n in Elems(order)
      ensures At(Layer(h), n).target == Rope <==> n == 20
      ensures At(Layer(h), n).target == KvUpdate <==> n == 19
    {
      LayerAt(h, n);
      TargetsAre(h, n);
    }
    OneCall(order, Layer(h), Rope, 20);
    OneCall(order, Layer(h), KvUpdate, 19);
  }

  lemma OneSite(g: Graph, x: Site)
    requires Calls(g.order, g, Rope) == [x.c.rope] && Calls(g.order, g, KvUpdate) == [x.c.kvUpdate] && Wired(g, x)
    ensures IsPlan(g, 1, [x.c]) && SitesIn(g, 1, [x.c]) == [x]
  {
    hide Calls, Wired;
    assert SiteOf(g, x.c.kvUpdate, [x.c][0]);
    assert RopesOf([x.c])[0] == x.c.rope;
    assert SitesOf(g, [x.c], [x]);
    SitesUnique(g, 1, [x.c], [x]);
  }

  lemma SameCalls(order: seq<Id>, g: Graph, h: Graph, target: Target)
    requires g.defs == h.defs
    ensures Calls(order, g, target) == Calls(order, h, target)
  {
  }

  /** The layer is planned, with either packing and whatever the order of its list. */
  lemma LayerPlanned(h: int, order: seq<Id>)
    requires h == 16 || h == 32
    requires NoDup(order) && forall n :: n in Elems(order) <==> 0 <= n < 22
    ensures var g := Layer(h).(order := order); IsPlan(g, 1, [CANDIDATE]) && SitesIn(g, 1, [CANDIDATE]) == [SITE]
  {
    hide Layer, Wired, IsPlan, Calls;
    var g := Layer(h).(order := order);
    LayerCalls(h, order);
    SameCalls(order, g, Layer(h), Rope);
    SameCalls(order, g, Layer(h), KvUpdate);
    LayerWired(h);
    SitesIgnoreOrder(Layer(h), g, SITE);
    OneSite(g, SITE);
  }

  /** The rewritten graph. */
  function After(h: int): Graph {
    Qwen3Apply.Step(Layer(h), SITE)
  }

  lemma LayerOrder(h: int, a: Id, b: Id)
    ensures Precedes(Layer(h).order, a, b) <==> 0 <= a < b < 22
  {
    RangePrecedes(0, 22, a, b);
  }

  lemma NothingApplied(g: Graph, xs: seq<Site>)
    requires g.Valid()
    ensures Applied(g, xs, 0, g)
  {
    SplicedNothing(g.order);
  }

  lemma OneApplied(g: Graph, x: Site)
    requires g.Valid() && LintClean(g) && IsPlan(g, 1, [x.c]) && SitesIn(g, 1, [x.c]) == [x]
    ensures PlanApplied(g, 1, [x.c], Qwen3Apply.Step(g, x))
  {
    hide IsPlan, Applicable, LintClean, Graph.Valid, Qwen3Apply.Step, Usable, Applied, SitesOf;
    PlanApplicable(g, 1, [x.c]);
    NothingApplied(g, [x]);
    StepApplied(g, [x], 0, g);
    assert [x][0] == x;
    StepValid(g, x);
  }

  lemma LayerApplied(h: int)
    requires h == 16 || h == 32
    ensures PlanApplied(Layer(h), 1, [CANDIDATE], After(h))
  {
    hide Layer, IsPlan, LintClean, Graph.Valid, PlanApplied, Qwen3Apply.Step;
    LayerIsClean(h);
    LayerElems(h);
    LayerPlanned(h, Layer(h).order);
    OneApplied(Layer(h), SITE);
  }

  lemma LayerReady(h: int)
    ensures Ready(Layer(h), SITE)
  {
    hide Layer, Precedes;
    forall m | FusedArg(CANDIDATE, m)
      ensures Precedes(Layer(h).order, m, CANDIDATE.kvUpdate)
    {
      LayerOrder(h, m, CANDIDATE.kvUpdate);
    }
  }

  // ----- every other premise holds -----

  lemma RootAt(h: int, al: Aliases, n: nat)
    requires Labels(Layer(h), al) && n < 22
    ensures RootOf(al, n) == if IsAlias(NodeAt(h, n)) then RootOf(al, NodeAt(h, n).args[0].n) else n
  {
    LayerAt(h, n);
    hide Layer, NodeAt;
    AliasRoot(al, n, NodeAt(h, n));
  }

  lemma LayerRoots(h: int, al: Aliases)
    requires Labels(Layer(h), al)
    ensures RootOf(al, 10) == RootOf(al, 11) == 0 && RootOf(al, 4) == 4 && RootOf(al, 5) == 5
  {
    hide Layer, Labels, RootOf;
    RootAt(h, al, 0);
    RootAt(h, al, 4);
    RootAt(h, al, 5);
    RootAt(h, al, 6);
    RootAt(h, al, 7);
    RootAt(h, al, 8);
    RootAt(h, al, 10);
    RootAt(h, al, 11);
  }

  lemma ViewWrites(al: Aliases, z: Id, base: Id, shape: seq<int>)
    ensures Writes(al, z, View3(base, shape)) == {}
  {
  }

  lemma NormWrites(al: Aliases, z: Id, head: Id, weight: Id)
    ensures Writes(al, z, Norm(head, weight)) == {z}
  {
  }

  lemma NormsWrite(h: int, al: Aliases, z: nat)
    requires 13 <= z < 19
    ensures Writes(al, z, At(Layer(h), z)) <= {13, 14}
  {
    hide Layer, At, View3, Norm, Writes;
    LayerAt(h, z);
    NormWrites(al, 13, 10, 4);
    NormWrites(al, 14, 11, 5);
    ViewWrites(al, 15, 13, [5, 128 * h]);
    ViewWrites(al, 16, 14, [5, 1024]);
    ViewWrites(al, 17, 15, [5, h, 128]);
    ViewWrites(al, 18, 16, [5, 8, 128]);
  }

  lemma LayerUnwritten(h: int, al: Aliases, from: nat, a: Id, b: Id)
    requires Labels(Layer(h), al) && 13 <= from
    requires from >= 19 || (RootOf(al, a) < 13 && RootOf(al, b) < 13)
    ensures Unwritten(Layer(h), al, from, CANDIDATE.kvUpdate, a, b)
  {
    hide Layer, Labels, Writes, Precedes, At;
    forall z | Precedes(Layer(h).order, from, z) && Precedes(Layer(h).order, z, CANDIDATE.kvUpdate)
      ensures WritesNeither(Layer(h), al, z, a, b)
    {
      LayerOrder(h, from, z);
      LayerOrder(h, z, CANDIDATE.kvUpdate);
      NormsWrite(h, al, z);
    }
  }

  /** The attention as it is once its query, key and ordering argument are taken out. */
  const BARE := [NoneArg, NoneArg, NodeArg(12), NodeArg(2), StrArg("layer"), NoneArg, NoneArg]

  lemma AttentionStripped(h: int)
    ensures Stripped(NodeAt(h, 21)) == Call(Attention, BARE + [NodeArg(19)])
    ensures Visible(Stripped(NodeAt(h, 21))) == Call(Attention, BARE + [NoneArg])
  {
    assert Stripped(NodeAt(h, 21)).args == BARE + [NodeArg(19)];
    assert Visible(Stripped(NodeAt(h, 21))).args == BARE + [NoneArg];
  }

  lemma BareUses(last: Arg, n: Id)
    ensures Uses(Call(Attention, BARE + [last]), n) <==> n == 12 || n == 2 || last == NodeArg(n)
  {
    var args := BARE + [last];
    assert args[2] == NodeArg(12) && args[3] == NodeArg(2) && args[7] == last;
    assert forall i | 0 <= i < 8 && i != 2 && i != 3 && i != 7 :: !args[i].NodeArg?;
  }

  lemma LayerPlain(h: int)
    ensures Plain(Layer(h), SITE)
  {
    LayerAt(h, 21);
    AttentionStripped(h);
    BareUses(NodeArg(19), 17);
    BareUses(NodeArg(19), 18);
    BareUses(NoneArg, 19);
    hide Layer, NodeAt, Uses, Visible, Stripped, At;
  }

  lemma LayerSettled(h: int)
    ensures Layer(h).Valid() && Elems(Layer(h).order) <= Layer(h).defs.Keys && Settled(Layer(h), AliasesOf(Layer(h)), SITE)
  {
    hide Layer, Labels, LintClean, Graph.Valid, Plain, Unwritten;
    LayerIsClean(h);
    LayerElems(h);
    var al := AliasesOf(Layer(h));
    AliasesLabel(Layer(h));
    LayerRoots(h, al);
    LayerUnwritten(h, al, 13, 10, 4);
    LayerUnwritten(h, al, 14, 11, 5);
    LayerUnwritten(h, al, 20, 1, 3);
    LayerPlain(h);
  }

  /** Planning, applying and lint all accept the layer, and all else the rewrite needs is true of it,
      though its KV update comes first. */
  lemma LateRopeAccepted(h: int)
    requires h == 16 || h == 32
    ensures SettledPlan(Layer(h), 1, [CANDIDATE], After(h))
    ensures Precedes(Layer(h).order, CANDIDATE.kvUpdate, CANDIDATE.rope)
  {
    hide Layer, LintClean, PlanApplied, Ready, IsPlan, Rewritten, After, Precedes, Settled;
    LayerApplied(h);
    LayerElems(h);
    LayerPlanned(h, Layer(h).order);
    LayerReady(h);
    LayerSettled(h);
    LayerOrder(h, CANDIDATE.kvUpdate, CANDIDATE.rope);
    PlanIs(h);
    PlanRewritten(Layer(h), 1, [CANDIDATE], After(h));
    LintPassesIff(Layer(h), [SITE], After(h));
  }

  lemma PlanIs(h: int)
    ensures PlanApplied(Layer(h), 1, [CANDIDATE], After(h)) ==>
              IsPlan(Layer(h), 1, [CANDIDATE]) && Layer(h).Valid() && After(h).Valid()
  {
  }

  /** Given two tensors, the two runs end with different caches. */
  lemma LateRopeDiffers(h: int, layer: Key, plain: Data, mark: Data)
    requires h == 16 || h == 32
    requires plain != mark
    ensures Layer(h).Valid() && After(h).Valid()
    ensures var (I, s) := (Marking(layer, plain, mark), Start(plain, mark));
            Execute(I, After(h), s).cache != Execute(I, Layer(h), s).cache
  {
    hide Layer, After, LintClean, Precedes, Execute, Marking, PlanApplied, Settled, Ready, Rewritten, IsPlan;
    LateRopeAccepted(h);
    PlanIs(h);
    LateRopeDisagrees(Layer(h), 1, [CANDIDATE], After(h), 0, layer, plain, mark);
  }
}
