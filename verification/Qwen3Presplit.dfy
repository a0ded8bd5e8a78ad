/** The all-or-nothing rewrite of every layer of a dense Qwen3 graph: RMSNorm of query and key,
    RoPE and the KV update become one operator with fresh outputs. */
module Qwen3Presplit {
  import opened Options
  import opened FxGraph
  import opened EffectEval
  import opened Presplit

  datatype Candidate = Candidate(rope: Id, kvUpdate: Id, attention: Id, qHead: Id, kHead: Id, value: Id,
                                 qWeight: Id, kWeight: Id, positions: Id, cosSin: Id, layer: Arg)

  /** The path from an attention argument back to its head: two views and a norm. */
  datatype Chain = Chain(arg: Id, flat: Id, norm: Id, head: Id, weight: Id)

  /** A candidate with the nodes around it. */
  datatype Site = Site(c: Candidate, q: Chain, k: Chain, qBase: Id, kBase: Id, vBase: Id, split: Id)

  // ----- what a site is -----

  predicate ReadsLayer(g: Graph, x: Site) {
    var (kv, attention) := (At(g, x.c.kvUpdate), At(g, x.c.attention));
    && kv.target.KvUpdate? && attention.target.Attention?
    && ArgOf(attention, 0, "query") == Some(NodeArg(x.q.arg))
    && ArgOf(attention, 1, "key") == Some(NodeArg(x.k.arg)) == ArgOf(kv, 0, "key")
    && ArgOf(attention, 2, "value") == Some(NodeArg(x.c.value)) == ArgOf(kv, 1, "value")
    && ArgOf(attention, 4, "layer_name") == Some(x.c.layer) == ArgOf(kv, 2, "layer_name")
    && (x.c.layer.StrArg? || x.c.layer.NodeArg?)
    && ArgOf(attention, 7, "kv_cache_dummy_dep") == Some(NodeArg(x.c.kvUpdate))
  }

  predicate IsNorm(node: Node, head: Id, weight: Id) {
    && node.target.AtenRmsNorm?
    && ArgOf(node, 0, "input") == Some(NodeArg(head))
    && ArgOf(node, 1, "normalized_shape") == Some(IntsArg([128]))
    && ArgOf(node, 2, "weight") == Some(NodeArg(weight))
    && ArgOf(node, 3, "eps") == Some(RealArg(0.000001))
  }

  predicate IsChain(g: Graph, w: Chain) {
    && ViewBase(At(g, w.arg)) == Some(w.flat)
    && ViewBase(At(g, w.flat)) == Some(w.norm)
    && IsNorm(At(g, w.norm), w.head, w.weight)
  }

  predicate GoodHead(g: Graph, w: Chain, heads: int) {
    && HasTail(At(g, w.head), heads, 128) && HasShape(At(g, w.weight), [128])
    && IsBf16(At(g, w.head)) && IsBf16(At(g, w.weight))
  }

  /** The numbers of query and KV heads that the kernel supports. */
  function Heads(sizes: seq<int>): Option<(int, int)> {
    if sizes == [2048, 1024, 1024] then Some((16, 8))
    else if sizes == [4096, 1024, 1024] then Some((32, 8))
    else None
  }

  /** Query, key and value are the parts of one packed tensor of a supported shape. */
  predicate Packed(g: Graph, x: Site) {
    && IsChain(g, x.q) && IsChain(g, x.k)
    && ViewBase(At(g, x.q.head)) == Some(x.qBase)
    && ViewBase(At(g, x.k.head)) == Some(x.kBase)
    && ViewBase(At(g, x.c.value)) == Some(x.vBase)
    && SplitItem(At(g, x.qBase), 0) == SplitItem(At(g, x.kBase), 1) == SplitItem(At(g, x.vBase), 2) == Some(x.split)
    && SplitSizes(At(g, x.split)).Some?
    && var heads := Heads(SplitSizes(At(g, x.split)).value);
    && heads.Some? && GoodHead(g, x.q, heads.value.0) && GoodHead(g, x.k, heads.value.1)
    && HasTail(At(g, x.c.value), heads.value.1, 128) && IsBf16(At(g, x.c.value))
  }

  predicate Rotates(g: Graph, x: Site) {
    var rope := At(g, x.c.rope);
    && rope.target.Rope?
    && ArgOf(rope, 0, "positions") == Some(NodeArg(x.c.positions))
    && ArgOf(rope, 1, "query") == Some(NodeArg(x.q.flat))
    && ArgOf(rope, 2, "key") == Some(NodeArg(x.k.flat))
    && ArgOf(rope, 3, "head_size").Some? && ByValue(ArgOf(rope, 3, "head_size").value) == ByValue(IntArg(128))
    && ArgOf(rope, 4, "cos_sin_cache") == Some(NodeArg(x.c.cosSin)) && IsBf16(At(g, x.c.cosSin))
    && ArgOf(rope, 5, "is_neox") == Some(BoolArg(true))
  }

  /** Nothing else uses what the rewrite takes apart. */
  ghost predicate Private(g: Graph, x: Site) {
    && g.Users(x.c.kvUpdate) == {x.c.attention}
    && g.Users(x.c.rope) == {}
    && g.Users(x.q.flat) == {x.q.arg, x.c.rope} && g.Users(x.k.flat) == {x.k.arg, x.c.rope}
    && g.Users(x.q.norm) == {x.q.flat} && g.Users(x.k.norm) == {x.k.flat}
    && g.Users(x.q.head) == {x.q.norm} && g.Users(x.k.head) == {x.k.norm}
    && g.Users(x.q.arg) == {x.c.attention}
    && g.Users(x.k.arg) == {x.c.kvUpdate, x.c.attention} && g.Users(x.c.value) == {x.c.kvUpdate, x.c.attention}
  }

  /** The candidate names the heads of its chains. */
  predicate Names(x: Site) {
    x.c.qHead == x.q.head && x.c.kHead == x.k.head && x.c.qWeight == x.q.weight && x.c.kWeight == x.k.weight
  }

  ghost predicate Wired(g: Graph, x: Site) {
    x.c.kvUpdate in g.defs && ReadsLayer(g, x) && Packed(g, x) && Rotates(g, x) && Private(g, x) && Names(x)
  }

  /** The packings accepted, and that the heads of each part fill it. */
  lemma HeadsFillParts(sizes: seq<int>)
    ensures Heads(sizes).Some? <==> sizes == [2048, 1024, 1024] || sizes == [4096, 1024, 1024]
    ensures Heads(sizes).Some? ==> var (q, kv) := Heads(sizes).value; q * 128 == sizes[0] && kv * 128 == sizes[1] == sizes[2]
  {
  }

  /** Query, key and value of a site show the three parts of one cut, as 16 or 32 query heads and
      8 key and value heads of 128. */
  lemma PackedIff(g: Graph, x: Site)
    ensures Packed(g, x) <==>
            && IsChain(g, x.q) && IsChain(g, x.k)
            && HasShape(At(g, x.q.weight), [128]) && HasShape(At(g, x.k.weight), [128])
            && IsBf16(At(g, x.q.weight)) && IsBf16(At(g, x.k.weight))
            && ((Cuts(At(g, x.split), [2048, 1024, 1024]) && IsPart(g, x.q.head, x.qBase, x.split, 0, 16, 128))
                || (Cuts(At(g, x.split), [4096, 1024, 1024]) && IsPart(g, x.q.head, x.qBase, x.split, 0, 32, 128)))
            && IsPart(g, x.k.head, x.kBase, x.split, 1, 8, 128) && IsPart(g, x.c.value, x.vBase, x.split, 2, 8, 128)
  {
    hide At, IsChain, ViewBase, SplitItem, SplitSizes, HasTail, HasShape, IsBf16, Cuts, IsPart;
    CutsInto(At(g, x.split), [2048, 1024, 1024]);
    CutsInto(At(g, x.split), [4096, 1024, 1024]);
    PartIs(g, x.q.head, x.qBase, x.split, 0, 16, 128);
    PartIs(g, x.q.head, x.qBase, x.split, 0, 32, 128);
    PartIs(g, x.k.head, x.kBase, x.split, 1, 8, 128);
    PartIs(g, x.c.value, x.vBase, x.split, 2, 8, 128);
  }

  // ----- the planner -----

  function MatchNorm(node: Node): Option<(Id, Id)> {
    if !node.target.AtenRmsNorm? then None else
    var (tensor, shape, weight, eps) :=
      (NodeOf(ArgOf(node, 0, "input")), ArgOf(node, 1, "normalized_shape"), NodeOf(ArgOf(node, 2, "weight")), ArgOf(node, 3, "eps"));
    if tensor.None? || weight.None? || shape != Some(IntsArg([128])) || eps != Some(RealArg(0.000001)) then None
    else Some((tensor.value, weight.value))
  }

  function MatchChain(g: Graph, arg: Id): Option<Chain> {
    var flat := ViewBase(At(g, arg));
    if flat.None? then None else
    var norm := ViewBase(At(g, flat.value));
    if norm.None? then None else
    var parts := MatchNorm(At(g, norm.value));
    if parts.None? then None else
    Some(Chain(arg, flat.value, norm.value, parts.value.0, parts.value.1))
  }

  lemma ChainMatches(g: Graph, w: Chain)
    ensures IsChain(g, w) <==> MatchChain(g, w.arg) == Some(w)
  {
  }

  /** The tests on a KV update and its one user. */
  function MatchLayer(g: Graph, kvUpdate: Id, attention: Id): Option<(Id, Id, Id, Arg)> {
    var (kv, att) := (At(g, kvUpdate), At(g, attention));
    if !att.target.Attention? then None else
    var (query, key, value) := (NodeOf(ArgOf(att, 0, "query")), NodeOf(ArgOf(att, 1, "key")), NodeOf(ArgOf(att, 2, "value")));
    var layer := ArgOf(att, 4, "layer_name");
    if query.None? || key.None? || value.None? || ArgOf(att, 7, "kv_cache_dummy_dep") != Some(NodeArg(kvUpdate))
       || layer.None? || !(layer.value.StrArg? || layer.value.NodeArg?)
       || ArgOf(kv, 0, "key") != Some(NodeArg(key.value)) || ArgOf(kv, 1, "value") != Some(NodeArg(value.value))
       || ArgOf(kv, 2, "layer_name") != layer then None
    else Some((query.value, key.value, value.value, layer.value))
  }

  /** The tests on the paths back to the packed tensor. */
  function MatchPacked(g: Graph, kvUpdate: Id, attention: Id, query: Id, key: Id, value: Id, layer: Arg): Option<Site> {
    var (q, k) := (MatchChain(g, query), MatchChain(g, key));
    if q.None? || k.None? then None else
    var (qBase, kBase, vBase) := (ViewBase(At(g, q.value.head)), ViewBase(At(g, k.value.head)), ViewBase(At(g, value)));
    if qBase.None? || kBase.None? || vBase.None? then None else
    var split := SplitItem(At(g, qBase.value), 0);
    if split.None? || split != SplitItem(At(g, kBase.value), 1) || split != SplitItem(At(g, vBase.value), 2) then None else
    var sizes := SplitSizes(At(g, split.value));
    var heads := if sizes.None? then None else Heads(sizes.value);
    if heads.None? || !GoodHead(g, q.value, heads.value.0) || !GoodHead(g, k.value, heads.value.1)
       || !HasTail(At(g, value), heads.value.1, 128) || !IsBf16(At(g, value)) then None
    else Some(Site(Candidate(-1, kvUpdate, attention, q.value.head, k.value.head, value, q.value.weight, k.value.weight, -1, -1, layer),
                   q.value, k.value, qBase.value, kBase.value, vBase.value, split.value))
  }

  /** The tests on the RoPE node and on the users. */
  function MatchRope(g: Graph, x: Site, rope: Id): Option<Site> {
    var node := At(g, rope);
    var (positions, cosSin) := (NodeOf(ArgOf(node, 0, "positions")), NodeOf(ArgOf(node, 4, "cos_sin_cache")));
    var head := ArgOf(node, 3, "head_size");
    if g.Users(rope) != {} || positions.None? || cosSin.None?
       || ArgOf(node, 1, "query") != Some(NodeArg(x.q.flat)) || ArgOf(node, 2, "key") != Some(NodeArg(x.k.flat))
       || head.None? || ByValue(head.value) != ByValue(IntArg(128)) || ArgOf(node, 5, "is_neox") != Some(BoolArg(true))
       || !IsBf16(At(g, cosSin.value))
       || g.Users(x.q.flat) != {x.q.arg, rope} || g.Users(x.k.flat) != {x.k.arg, rope}
       || g.Users(x.q.norm) != {x.q.flat} || g.Users(x.k.norm) != {x.k.flat}
       || g.Users(x.q.head) != {x.q.norm} || g.Users(x.k.head) != {x.k.norm}
       || g.Users(x.q.arg) != {x.c.attention} || g.Users(x.k.arg) != {x.c.kvUpdate, x.c.attention}
       || g.Users(x.c.value) != {x.c.kvUpdate, x.c.attention} then None
    else Some(x.(c := x.c.(rope := rope, positions := positions.value, cosSin := cosSin.value)))
  }

  function Half(x: Site): Site {
    x.(c := x.c.(rope := -1, positions := -1, cosSin := -1))
  }

  lemma PackedMatches(g: Graph, x: Site)
    requires Packed(g, x) && Names(x)
    ensures MatchPacked(g, x.c.kvUpdate, x.c.attention, x.q.arg, x.k.arg, x.c.value, x.c.layer) == Some(Half(x))
  {
    ChainMatches(g, x.q);
    ChainMatches(g, x.k);
    hide MatchChain, IsChain, GoodHead, HasTail, IsBf16, Heads;
  }

  lemma RopesAre(g: Graph, x: Site)
    requires Wired(g, x)
    ensures RopeUsers(g, x.q.flat) * RopeUsers(g, x.k.flat) == {x.c.rope}
  {
    hide GoodHead, SplitItem, SplitSizes, Heads, HasTail, IsNorm;
    assert At(g, x.q.arg).target.View?;
    forall m | m in RopeUsers(g, x.q.flat) * RopeUsers(g, x.k.flat)
      ensures m == x.c.rope
    {
      assert m in {x.q.arg, x.c.rope};
    }
    assert x.c.rope in g.Users(x.q.flat) && x.c.rope in g.Users(x.k.flat);
    assert RopeUsers(g, x.q.flat) * RopeUsers(g, x.k.flat) == {x.c.rope};
  }

  lemma SiteMatches(g: Graph, x: Site)
    requires Wired(g, x)
    ensures MatchLayer(g, x.c.kvUpdate, x.c.attention) == Some((x.q.arg, x.k.arg, x.c.value, x.c.layer))
    ensures MatchPacked(g, x.c.kvUpdate, x.c.attention, x.q.arg, x.k.arg, x.c.value, x.c.layer) == Some(Half(x))
    ensures MatchRope(g, Half(x), x.c.rope) == Some(x)
  {
    hide Packed, MatchPacked;
    PackedMatches(g, x);
  }

  lemma MatchedPacked(g: Graph, kvUpdate: Id, attention: Id, query: Id, key: Id, value: Id, layer: Arg, x: Site)
    requires MatchPacked(g, kvUpdate, attention, query, key, value, layer) == Some(x)
    ensures Packed(g, x) && Names(x) && x.q.arg == query && x.k.arg == key && x.c.value == value
    ensures x.c.kvUpdate == kvUpdate && x.c.attention == attention && x.c.layer == layer
  {
    ChainMatches(g, x.q);
    ChainMatches(g, x.k);
    hide IsChain, GoodHead, HasTail, IsBf16, Heads, MatchNorm;
  }

  lemma MatchedIsWired(g: Graph, kvUpdate: Id, attention: Id, query: Id, key: Id, value: Id, layer: Arg,
                       x: Site, rope: Id, out: Site)
    requires kvUpdate in g.defs && At(g, kvUpdate).target.KvUpdate? && g.Users(kvUpdate) == {attention}
    requires MatchLayer(g, kvUpdate, attention) == Some((query, key, value, layer))
    requires MatchPacked(g, kvUpdate, attention, query, key, value, layer) == Some(x)
    requires RopeUsers(g, x.q.flat) * RopeUsers(g, x.k.flat) == {rope} && MatchRope(g, x, rope) == Some(out)
    ensures Wired(g, out) && out.c.kvUpdate == kvUpdate
  {
    hide Packed, MatchPacked, GoodHead, HasTail, IsBf16;
    MatchedPacked(g, kvUpdate, attention, query, key, value, layer, x);
    PackedSame(g, x, out);
    assert rope in RopeUsers(g, x.q.flat);
  }

  lemma PackedSame(g: Graph, x: Site, y: Site)
    requires Packed(g, x) && y == x.(c := y.c) && y.c.value == x.c.value
    ensures Packed(g, y)
  {
    hide IsChain, GoodHead, HasTail, IsBf16, Heads;
  }

  /** One KV update has at most one site. */
  lemma SiteUnique(g: Graph, x: Site, y: Site)
    requires Wired(g, x) && Wired(g, y) && x.c.kvUpdate == y.c.kvUpdate
    ensures x == y
  {
    SiteMatches(g, x);
    SiteMatches(g, y);
    RopesAre(g, x);
    RopesAre(g, y);
    assert x.c.attention in g.Users(y.c.kvUpdate);
    hide Packed, MatchPacked, MatchLayer, MatchRope, Rotates, RopeUsers;
    assert Half(x) == Half(y);
    assert x.c.rope in RopeUsers(g, x.q.flat) * RopeUsers(g, x.k.flat);
  }

  ghost predicate SiteOf(g: Graph, kvUpdate: Id, c: Candidate) {
    c.kvUpdate == kvUpdate && exists x :: Wired(g, x) && x.c == c
  }

  method MatchSite(g: Graph, kvUpdate: Id) returns (r: Option<Candidate>)
    requires kvUpdate in g.defs && At(g, kvUpdate).target.KvUpdate?
    ensures r.Some? ==> SiteOf(g, kvUpdate, r.value)
    ensures r.None? ==> forall c :: !SiteOf(g, kvUpdate, c)
  {
    forall x | Wired(g, x)
      ensures MatchLayer(g, x.c.kvUpdate, x.c.attention) == Some((x.q.arg, x.k.arg, x.c.value, x.c.layer))
      ensures MatchPacked(g, x.c.kvUpdate, x.c.attention, x.q.arg, x.k.arg, x.c.value, x.c.layer) == Some(Half(x))
      ensures MatchRope(g, Half(x), x.c.rope) == Some(x)
      ensures RopeUsers(g, x.q.flat) * RopeUsers(g, x.k.flat) == {x.c.rope} && g.Users(x.c.kvUpdate) == {x.c.attention}
    {
      SiteMatches(g, x);
      RopesAre(g, x);
    }
    hide Wired, MatchLayer, MatchPacked, MatchRope, RopeUsers;
    var attention := Only(g.Users(kvUpdate));
    if attention.None? { return None; }
    assert forall a :: g.Users(kvUpdate) == {a} ==> a in {attention.value};
    var layer := MatchLayer(g, kvUpdate, attention.value);
    if layer.None? { return None; }
    var (query, key, value, name) := layer.value;
    var packed := MatchPacked(g, kvUpdate, attention.value, query, key, value, name);
    if packed.None? { return None; }
    var x := packed.value;
    var rope := Only(RopeUsers(g, x.q.flat) * RopeUsers(g, x.k.flat));
    if rope.None? { return None; }
    assert forall a :: RopeUsers(g, x.q.flat) * RopeUsers(g, x.k.flat) == {a} ==> a in {rope.value};
    var site := MatchRope(g, x, rope.value);
    if site.None? { return None; }
    MatchedIsWired(g, kvUpdate, attention.value, query, key, value, name, x, rope.value, site.value);
    return Some(site.value.c);
  }

  /** The sites of the first KV updates. */
  ghost predicate Sites(g: Graph, kvs: seq<Id>, cs: seq<Candidate>) {
    |cs| <= |kvs| && forall i | 0 <= i < |cs| :: SiteOf(g, kvs[i], cs[i])
  }

  function RopesOf(cs: seq<Candidate>): seq<Id> {
    seq(|cs|, i requires 0 <= i < |cs| => cs[i].rope)
  }

  function LayersOf(cs: seq<Candidate>): seq<Arg> {
    seq(|cs|, i requires 0 <= i < |cs| => cs[i].layer)
  }

  predicate Distinct(cs: seq<Candidate>) {
    AllDiffer(RopesOf(cs)) && AllDiffer(LayersOf(cs))
  }

  predicate Covers(cs: seq<Candidate>, ropes: seq<Id>) {
    forall r | r in ropes :: r in RopesOf(cs)
  }

  /** A plan covers every RoPE and every KV update, each by its own site. */
  ghost predicate IsPlan(g: Graph, expected: int, cs: seq<Candidate>) {
    && |Calls(g.order, g, Rope)| == |Calls(g.order, g, KvUpdate)| == |cs| == expected
    && Sites(g, Calls(g.order, g, KvUpdate), cs) && Distinct(cs) && Covers(cs, Calls(g.order, g, Rope))
  }

  lemma SameSite(g: Graph, kvUpdate: Id, c: Candidate, d: Candidate)
    requires SiteOf(g, kvUpdate, c) && SiteOf(g, kvUpdate, d)
    ensures c == d
  {
    var x :| Wired(g, x) && x.c == c;
    var y :| Wired(g, y) && y.c == d;
    SiteUnique(g, x, y);
  }

  /** What the planner found so far begins any plan there is. */
  lemma PlanExtends(g: Graph, expected: int, cs: seq<Candidate>, plan: seq<Candidate>)
    requires Sites(g, Calls(g.order, g, KvUpdate), cs) && IsPlan(g, expected, plan)
    ensures cs <= plan
  {
    forall i | 0 <= i < |cs|
      ensures cs[i] == plan[i]
    {
      SameSite(g, Calls(g.order, g, KvUpdate)[i], cs[i], plan[i]);
    }
  }

  /** The planner's four reasons to refuse. */
  ghost predicate Refused(g: Graph, expected: int, ropes: seq<Id>, kvs: seq<Id>, cs: seq<Candidate>) {
    || |kvs| != expected || |ropes| != expected
    || (|cs| < |kvs| && forall c :: !SiteOf(g, kvs[|cs|], c))
    || !Distinct(cs)
    || (|cs| == expected && !Covers(cs, ropes))
  }

  lemma PrefixDistinct(cs: seq<Candidate>, plan: seq<Candidate>)
    requires cs <= plan && Distinct(plan)
    ensures Distinct(cs)
  {
    forall i | 0 <= i < |cs|
      ensures RopesOf(cs)[i] == RopesOf(plan)[i] && LayersOf(cs)[i] == LayersOf(plan)[i]
    {
      assert cs[i] == plan[i];
    }
    PrefixDiffers(RopesOf(cs), RopesOf(plan));
    PrefixDiffers(LayersOf(cs), LayersOf(plan));
  }

  lemma NotRefused(g: Graph, expected: int, cs: seq<Candidate>, plan: seq<Candidate>)
    requires IsPlan(g, expected, plan) && cs <= plan
    ensures !Refused(g, expected, Calls(g.order, g, Rope), Calls(g.order, g, KvUpdate), cs)
  {
    hide Calls, SiteOf;
    var kvs := Calls(g.order, g, KvUpdate);
    PrefixDistinct(cs, plan);
    hide Distinct, Covers;
    if |cs| < |kvs| { assert SiteOf(g, kvs[|cs|], plan[|cs|]); }
    if |cs| == expected { assert cs == plan; }
  }

  lemma NoPlan(g: Graph, expected: int, cs: seq<Candidate>)
    requires Sites(g, Calls(g.order, g, KvUpdate), cs)
    requires Refused(g, expected, Calls(g.order, g, Rope), Calls(g.order, g, KvUpdate), cs)
    ensures forall plan :: !IsPlan(g, expected, plan)
  {
    hide SiteOf;
    forall plan
      ensures !IsPlan(g, expected, plan)
    {
      if IsPlan(g, expected, plan) {
        PlanExtends(g, expected, cs, plan);
        NotRefused(g, expected, cs, plan);
      }
    }
  }

  /** The planner finds the plan if there is one; there is never a second. */
  method Plan(g: Graph, expected: int) returns (plan: Option<seq<Candidate>>)
    requires g.Valid()
    ensures plan.Some? ==> IsPlan(g, expected, plan.value)
    ensures plan.None? ==> forall cs :: !IsPlan(g, expected, cs)
  {
    hide Wired, SiteOf, IsPlan, Sites, Distinct, Covers, Calls;
    var ropes, kvs := Calls(g.order, g, Rope), Calls(g.order, g, KvUpdate);
    if |ropes| != expected || |kvs| != expected {
      NothingFound(g, kvs);
      NoPlan(g, expected, []);
      return None;
    }
    var cs: seq<Candidate> := [];
    NothingFound(g, kvs);
    var seenRope: set<Id>, seenLayers: set<Arg> := {}, {};
    for n := 0 to |kvs|
      invariant |cs| == n && Sites(g, kvs, cs) && Distinct(cs)
      invariant seenRope == Seen(RopesOf(cs)) && seenLayers == Seen(LayersOf(cs))
    {
      CallsAre(g.order, g, KvUpdate, kvs[n]);
      var c := MatchSite(g, kvs[n]);
      if c.None? {
        NoPlan(g, expected, cs);
        return None;
      }
      SeenBoth(cs, c.value);
      SitesMore(g, kvs, cs, c.value);
      if c.value.rope in seenRope || c.value.layer in seenLayers {
        NoPlan(g, expected, cs + [c.value]);
        return None;
      }
      cs := cs + [c.value];
      seenRope, seenLayers := seenRope + {c.value.rope}, seenLayers + {c.value.layer};
    }
    CoversSeen(cs, ropes);
    if exists r :: r in ropes && r !in seenRope {
      NoPlan(g, expected, cs);
      return None;
    }
    Planned(g, expected, cs);
    return Some(cs);
  }

  lemma NothingFound(g: Graph, kvs: seq<Id>)
    ensures Sites(g, kvs, []) && Distinct([])
  {
  }

  lemma SitesMore(g: Graph, kvs: seq<Id>, cs: seq<Candidate>, c: Candidate)
    requires Sites(g, kvs, cs) && |cs| < |kvs| && SiteOf(g, kvs[|cs|], c)
    ensures Sites(g, kvs, cs + [c])
  {
    hide SiteOf;
    var longer := cs + [c];
    forall i | 0 <= i < |longer|
      ensures SiteOf(g, kvs[i], longer[i])
    {
      if i < |cs| { assert longer[i] == cs[i]; } else { assert longer[i] == c; }
    }
  }

  lemma Planned(g: Graph, expected: int, cs: seq<Candidate>)
    requires |Calls(g.order, g, Rope)| == |Calls(g.order, g, KvUpdate)| == |cs| == expected
    requires Sites(g, Calls(g.order, g, KvUpdate), cs) && Distinct(cs) && Covers(cs, Calls(g.order, g, Rope))
    ensures IsPlan(g, expected, cs)
  {
  }

  lemma OneMore(cs: seq<Candidate>, c: Candidate)
    ensures RopesOf(cs + [c]) == RopesOf(cs) + [c.rope] && LayersOf(cs + [c]) == LayersOf(cs) + [c.layer]
  {
    var longer := cs + [c];
    assert forall i | 0 <= i < |cs| :: longer[i] == cs[i];
    assert RopesOf(longer) == RopesOf(cs) + [c.rope];
    assert LayersOf(longer) == LayersOf(cs) + [c.layer];
  }

  /** The two seen sets catch exactly the candidates that clash with an earlier one. */
  lemma SeenBoth(cs: seq<Candidate>, c: Candidate)
    requires Distinct(cs)
    ensures Distinct(cs + [c]) <==> c.rope !in Seen(RopesOf(cs)) && c.layer !in Seen(LayersOf(cs))
    ensures Seen(RopesOf(cs + [c])) == Seen(RopesOf(cs)) + {c.rope}
    ensures Seen(LayersOf(cs + [c])) == Seen(LayersOf(cs)) + {c.layer}
  {
    OneMore(cs, c);
    SeenMore(RopesOf(cs), c.rope);
    SeenMore(LayersOf(cs), c.layer);
    SeenClashes(RopesOf(cs), c.rope);
    SeenClashes(LayersOf(cs), c.layer);
    if !AllDiffer(RopesOf(cs) + [c.rope]) { assert c.rope in Seen(RopesOf(cs)); }
  }

  lemma CoversSeen(cs: seq<Candidate>, ropes: seq<Id>)
    ensures Covers(cs, ropes) <==> forall r | r in ropes :: r in Seen(RopesOf(cs))
  {
    forall r { SeenIs(RopesOf(cs), r); }
  }
}
