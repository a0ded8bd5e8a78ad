/** The all-or-nothing rewrite of every layer of a Qwen2 graph: RoPE and the KV update become
    one operator. */
module Qwen2Presplit {
  import opened Options
  import opened FxGraph
  import opened EffectEval
  import opened Presplit

  datatype Candidate = Candidate(rope: Id, kvUpdate: Id, attention: Id, query: Id, key: Id, value: Id,
                                 positions: Id, cosSin: Id, isNeox: bool, layer: string)

  /** The nodes behind a candidate's query, key and value. */
  datatype Bases = Bases(query: Id, key: Id, value: Id, split: Id)

  // ----- what a site is -----

  predicate ReadsLayer(g: Graph, c: Candidate) {
    var (kv, attention) := (At(g, c.kvUpdate), At(g, c.attention));
    && kv.target.KvUpdate? && attention.target.Attention?
    && ArgOf(attention, 0, "query") == Some(NodeArg(c.query))
    && ArgOf(attention, 1, "key") == Some(NodeArg(c.key)) == ArgOf(kv, 0, "key")
    && ArgOf(attention, 2, "value") == Some(NodeArg(c.value)) == ArgOf(kv, 1, "value")
    && ArgOf(attention, 4, "layer_name") == Some(StrArg(c.layer)) == ArgOf(kv, 2, "layer_name")
    && ArgOf(attention, 7, "kv_cache_dummy_dep") == Some(NodeArg(c.kvUpdate))
  }

  predicate HeadView(g: Graph, n: Id, base: Id, heads: int) {
    ViewBase(At(g, n)) == Some(base) && HasTail(At(g, n), heads, 64) && IsBf16(At(g, n))
  }

  /** Query, key and value are the parts of one packed tensor. */
  predicate Packed(g: Graph, c: Candidate, b: Bases) {
    && HeadView(g, c.query, b.query, 14) && HeadView(g, c.key, b.key, 2) && HeadView(g, c.value, b.value, 2)
    && SplitItem(At(g, b.query), 0) == SplitItem(At(g, b.key), 1) == SplitItem(At(g, b.value), 2) == Some(b.split)
    && SplitSizes(At(g, b.split)) == Some([896, 128, 128])
  }

  predicate RotatesBases(g: Graph, c: Candidate, b: Bases) {
    var rope := At(g, c.rope);
    && rope.target.Rope? && c.isNeox
    && ArgOf(rope, 0, "positions") == Some(NodeArg(c.positions))
    && ArgOf(rope, 1, "query") == Some(NodeArg(b.query))
    && ArgOf(rope, 2, "key") == Some(NodeArg(b.key))
    && ArgOf(rope, 3, "head_size").Some? && ByValue(ArgOf(rope, 3, "head_size").value) == ByValue(IntArg(64))
    && ArgOf(rope, 4, "cos_sin_cache") == Some(NodeArg(c.cosSin))
    && ArgOf(rope, 5, "is_neox") == Some(BoolArg(true))
  }

  /** Nothing else uses what the rewrite takes apart. */
  ghost predicate Private(g: Graph, c: Candidate, b: Bases) {
    && g.Users(c.kvUpdate) == {c.attention}
    && g.Users(c.rope) == {}
    && g.Users(b.query) == {c.query, c.rope} && g.Users(b.key) == {c.key, c.rope} && g.Users(b.value) == {c.value}
    && g.Users(c.query) == {c.attention}
    && g.Users(c.key) == {c.kvUpdate, c.attention} && g.Users(c.value) == {c.kvUpdate, c.attention}
  }

  ghost predicate Wired(g: Graph, c: Candidate, b: Bases) {
    c.kvUpdate in g.defs && ReadsLayer(g, c) && Packed(g, c, b) && RotatesBases(g, c, b) && Private(g, c, b)
  }

  ghost predicate Site(g: Graph, c: Candidate) {
    exists b :: Wired(g, c, b)
  }

  /** Query, key and value of a site show the three parts of one cut, as 14 query heads and 2 key
      and value heads of 64. */
  lemma PackedIff(g: Graph, c: Candidate, b: Bases)
    ensures Packed(g, c, b) <==>
            && Cuts(At(g, b.split), [14 * 64, 2 * 64, 2 * 64])
            && IsPart(g, c.query, b.query, b.split, 0, 14, 64) && IsPart(g, c.key, b.key, b.split, 1, 2, 64)
            && IsPart(g, c.value, b.value, b.split, 2, 2, 64)
  {
    hide At, ViewBase, SplitItem, SplitSizes, HasTail, IsBf16, Cuts, IsPart;
    CutsInto(At(g, b.split), [896, 128, 128]);
    PartIs(g, c.query, b.query, b.split, 0, 14, 64);
    PartIs(g, c.key, b.key, b.split, 1, 2, 64);
    PartIs(g, c.value, b.value, b.split, 2, 2, 64);
  }

  // ----- the planner -----

  /** The tests on a KV update and its one user. */
  function MatchLayer(g: Graph, kvUpdate: Id, attention: Id): Option<(Candidate, Bases)> {
    var (kv, att) := (At(g, kvUpdate), At(g, attention));
    if !att.target.Attention? then None else
    var (query, key, value) := (NodeOf(ArgOf(att, 0, "query")), NodeOf(ArgOf(att, 1, "key")), NodeOf(ArgOf(att, 2, "value")));
    var layer := ArgOf(att, 4, "layer_name");
    if query.None? || key.None? || value.None? || ArgOf(att, 7, "kv_cache_dummy_dep") != Some(NodeArg(kvUpdate))
       || layer.None? || !layer.value.StrArg?
       || ArgOf(kv, 0, "key") != Some(NodeArg(key.value)) || ArgOf(kv, 1, "value") != Some(NodeArg(value.value))
       || ArgOf(kv, 2, "layer_name") != layer then None else
    var (q, k, v) := (MatchView(g, query.value, 14), MatchView(g, key.value, 2), MatchView(g, value.value, 2));
    if q.None? || k.None? || v.None? then None else
    var split := SplitItem(At(g, q.value), 0);
    if split.None? || split != SplitItem(At(g, k.value), 1) || split != SplitItem(At(g, v.value), 2)
       || SplitSizes(At(g, split.value)) != Some([896, 128, 128])
       || !IsBf16(At(g, query.value)) || !IsBf16(At(g, key.value)) || !IsBf16(At(g, value.value)) then None else
    Some((Candidate(-1, kvUpdate, attention, query.value, key.value, value.value, -1, -1, true, layer.value.s),
          Bases(q.value, k.value, v.value, split.value)))
  }

  function MatchView(g: Graph, n: Id, heads: int): Option<Id> {
    if HasTail(At(g, n), heads, 64) then ViewBase(At(g, n)) else None
  }

  /** The tests on the RoPE node and on the users. */
  function MatchRope(g: Graph, c: Candidate, b: Bases, rope: Id): Option<Candidate> {
    var node := At(g, rope);
    var (positions, cosSin) := (NodeOf(ArgOf(node, 0, "positions")), NodeOf(ArgOf(node, 4, "cos_sin_cache")));
    var head := ArgOf(node, 3, "head_size");
    if g.Users(rope) != {} || positions.None? || cosSin.None?
       || ArgOf(node, 1, "query") != Some(NodeArg(b.query)) || ArgOf(node, 2, "key") != Some(NodeArg(b.key))
       || head.None? || ByValue(head.value) != ByValue(IntArg(64)) || ArgOf(node, 5, "is_neox") != Some(BoolArg(true))
       || g.Users(b.query) != {c.query, rope} || g.Users(b.key) != {c.key, rope} || g.Users(b.value) != {c.value}
       || g.Users(c.query) != {c.attention} || g.Users(c.key) != {c.kvUpdate, c.attention}
       || g.Users(c.value) != {c.kvUpdate, c.attention} then None else
    Some(c.(rope := rope, positions := positions.value, cosSin := cosSin.value))
  }

  function Half(c: Candidate): Candidate {
    c.(rope := -1, positions := -1, cosSin := -1)
  }

  lemma RopesAre(g: Graph, c: Candidate, b: Bases)
    requires Wired(g, c, b)
    ensures RopeUsers(g, b.query) * RopeUsers(g, b.key) == {c.rope}
  {
    hide ReadsLayer, HasTail, IsBf16, SplitSizes, SplitItem;
    assert At(g, c.query).target.View?;
    forall m | m in RopeUsers(g, b.query) * RopeUsers(g, b.key)
      ensures m == c.rope
    {
      assert m in {c.query, c.rope};
    }
    assert c.rope in g.Users(b.query) && c.rope in g.Users(b.key);
    assert RopeUsers(g, b.query) * RopeUsers(g, b.key) == {c.rope};
  }

  lemma LayerMatches(g: Graph, c: Candidate, b: Bases)
    requires Wired(g, c, b)
    ensures MatchLayer(g, c.kvUpdate, c.attention) == Some((Half(c), b))
    ensures MatchRope(g, Half(c), b, c.rope) == Some(c)
    ensures RopeUsers(g, b.query) * RopeUsers(g, b.key) == {c.rope}
  {
    RopesAre(g, c, b);
    hide RopeUsers, HasTail, IsBf16, SplitSizes, SplitItem, ViewBase, Graph.Users;
  }

  lemma MatchedIsWired(g: Graph, kvUpdate: Id, attention: Id, c: Candidate, b: Bases, rope: Id, out: Candidate)
    requires kvUpdate in g.defs && At(g, kvUpdate).target.KvUpdate? && g.Users(kvUpdate) == {attention}
    requires MatchLayer(g, kvUpdate, attention) == Some((c, b))
    requires RopeUsers(g, b.query) * RopeUsers(g, b.key) == {rope} && MatchRope(g, c, b, rope) == Some(out)
    ensures Wired(g, out, b) && out.kvUpdate == kvUpdate
  {
    assert rope in RopeUsers(g, b.query);
  }

  /** One KV update has at most one site. */
  lemma SiteUnique(g: Graph, c: Candidate, b: Bases, d: Candidate, e: Bases)
    requires Wired(g, c, b) && Wired(g, d, e) && c.kvUpdate == d.kvUpdate
    ensures c == d && b == e
  {
    assert c.attention in g.Users(d.kvUpdate);
    LayerMatches(g, c, b);
    LayerMatches(g, d, e);
    assert c.rope in RopeUsers(g, e.query) * RopeUsers(g, e.key);
  }

  method MatchSite(g: Graph, kvUpdate: Id) returns (r: Option<Candidate>)
    requires kvUpdate in g.defs && At(g, kvUpdate).target.KvUpdate?
    ensures r.Some? ==> Site(g, r.value) && r.value.kvUpdate == kvUpdate
    ensures r.None? ==> forall c :: Site(g, c) ==> c.kvUpdate != kvUpdate
  {
    forall c, b | Wired(g, c, b)
      ensures MatchLayer(g, c.kvUpdate, c.attention) == Some((Half(c), b)) && MatchRope(g, Half(c), b, c.rope) == Some(c)
      ensures RopeUsers(g, b.query) * RopeUsers(g, b.key) == {c.rope} && g.Users(c.kvUpdate) == {c.attention}
    {
      LayerMatches(g, c, b);
    }
    hide Wired, MatchLayer, MatchRope, RopeUsers, Half;
    var attention := Only(g.Users(kvUpdate));
    if attention.None? { return None; }
    assert forall a :: g.Users(kvUpdate) == {a} ==> a in {attention.value};
    var layer := MatchLayer(g, kvUpdate, attention.value);
    if layer.None? { return None; }
    var (c, b) := layer.value;
    var rope := Only(RopeUsers(g, b.query) * RopeUsers(g, b.key));
    if rope.None? { return None; }
    assert forall a :: RopeUsers(g, b.query) * RopeUsers(g, b.key) == {a} ==> a in {rope.value};
    r := MatchRope(g, c, b, rope.value);
    if r.Some? { MatchedIsWired(g, kvUpdate, attention.value, c, b, rope.value, r.value); }
  }

  /** The sites of the first KV updates. */
  ghost predicate Sites(g: Graph, kvs: seq<Id>, cs: seq<Candidate>) {
    |cs| <= |kvs| && forall i | 0 <= i < |cs| :: SiteOf(g, kvs[i], cs[i])
  }

  ghost predicate SiteOf(g: Graph, kvUpdate: Id, c: Candidate) {
    c.kvUpdate == kvUpdate && Site(g, c)
  }

  function RopesOf(cs: seq<Candidate>): seq<Id> {
    seq(|cs|, i requires 0 <= i < |cs| => cs[i].rope)
  }

  function LayersOf(cs: seq<Candidate>): seq<string> {
    seq(|cs|, i requires 0 <= i < |cs| => cs[i].layer)
  }

  predicate Distinct(cs: seq<Candidate>) {
    AllDiffer(RopesOf(cs)) && AllDiffer(LayersOf(cs))
  }

  predicate Covers(cs: seq<Candidate>, ropes: seq<Id>) {
    forall r | r in ropes :: r in RopesOf(cs)
  }

  /** A plan covers every RoPE and every KV update, each by its own site. */
  ghost predicate IsPlan(g: Graph, expected: int, cs: seq<Candidate>) {
    && |Calls(g.order, g, Rope)| == |Calls(g.order, g, KvUpdate)| == |cs| == expected
    && Sites(g, Calls(g.order, g, KvUpdate), cs) && Distinct(cs) && Covers(cs, Calls(g.order, g, Rope))
  }

  lemma SameSite(g: Graph, kvUpdate: Id, c: Candidate, d: Candidate)
    requires SiteOf(g, kvUpdate, c) && SiteOf(g, kvUpdate, d)
    ensures c == d
  {
    var b :| Wired(g, c, b);
    var e :| Wired(g, d, e);
    SiteUnique(g, c, b, d, e);
  }

  /** What the planner found so far begins any plan there is. */
  lemma PlanExtends(g: Graph, expected: int, cs: seq<Candidate>, plan: seq<Candidate>)
    requires Sites(g, Calls(g.order, g, KvUpdate), cs) && IsPlan(g, expected, plan)
    ensures cs <= plan
  {
    forall i | 0 <= i < |cs|
      ensures cs[i] == plan[i]
    {
      SameSite(g, Calls(g.order, g, KvUpdate)[i], cs[i], plan[i]);
    }
  }

  /** The planner's four reasons to refuse. */
  ghost predicate Refused(g: Graph, expected: int, ropes: seq<Id>, kvs: seq<Id>, cs: seq<Candidate>) {
    || |kvs| != expected || |ropes| != expected
    || (|cs| < |kvs| && forall c :: !SiteOf(g, kvs[|cs|], c))
    || !Distinct(cs)
    || (|cs| == expected && !Covers(cs, ropes))
  }

  lemma PrefixDistinct(cs: seq<Candidate>, plan: seq<Candidate>)
    requires cs <= plan && Distinct(plan)
    ensures Distinct(cs)
  {
    forall i | 0 <= i < |cs|
      ensures RopesOf(cs)[i] == RopesOf(plan)[i] && LayersOf(cs)[i] == LayersOf(plan)[i]
    {
      assert cs[i] == plan[i];
    }
    PrefixDiffers(RopesOf(cs), RopesOf(plan));
    PrefixDiffers(LayersOf(cs), LayersOf(plan));
  }

  lemma NotRefused(g: Graph, expected: int, cs: seq<Candidate>, plan: seq<Candidate>)
    requires IsPlan(g, expected, plan) && cs <= plan
    ensures !Refused(g, expected, Calls(g.order, g, Rope), Calls(g.order, g, KvUpdate), cs)
  {
    hide Calls, Site;
    var kvs := Calls(g.order, g, KvUpdate);
    PrefixDistinct(cs, plan);
    hide Distinct, Covers;
    if |cs| < |kvs| { assert SiteOf(g, kvs[|cs|], plan[|cs|]); }
    if |cs| == expected { assert cs == plan; }
  }

  lemma NoPlan(g: Graph, expected: int, cs: seq<Candidate>)
    requires Sites(g, Calls(g.order, g, KvUpdate), cs)
    requires Refused(g, expected, Calls(g.order, g, Rope), Calls(g.order, g, KvUpdate), cs)
    ensures forall plan :: !IsPlan(g, expected, plan)
  {
    hide SiteOf;
    forall plan
      ensures !IsPlan(g, expected, plan)
    {
      if IsPlan(g, expected, plan) {
        PlanExtends(g, expected, cs, plan);
        NotRefused(g, expected, cs, plan);
      }
    }
  }

  /** The planner finds the plan if there is one; there is never a second. */
  method Plan(g: Graph, expected: int) returns (plan: Option<seq<Candidate>>)
    requires g.Valid()
    ensures plan.Some? ==> IsPlan(g, expected, plan.value)
    ensures plan.None? ==> forall cs :: !IsPlan(g, expected, cs)
  {
    hide Wired, Site, SiteOf, IsPlan, Sites, Distinct, Covers, Calls;
    var ropes, kvs := Calls(g.order, g, Rope), Calls(g.order, g, KvUpdate);
    if |ropes| != expected || |kvs| != expected {
      NothingFound(g, kvs);
      NoPlan(g, expected, []);
      return None;
    }
    var cs: seq<Candidate> := [];
    NothingFound(g, kvs);
    var seenRope: set<Id>, seenLayers: set<string> := {}, {};
    for n := 0 to |kvs|
      invariant |cs| == n && Sites(g, kvs, cs) && Distinct(cs)
      invariant seenRope == Seen(RopesOf(cs)) && seenLayers == Seen(LayersOf(cs))
    {
      CallsAre(g.order, g, KvUpdate, kvs[n]);
      var c := MatchSite(g, kvs[n]);
      if c.None? {
        NoSite(g, kvs[n]);
        NoPlan(g, expected, cs);
        return None;
      }
      SiteFound(g, kvs[n], c.value);
      SeenBoth(cs, c.value);
      SitesMore(g, kvs, cs, c.value);
      if c.value.rope in seenRope || c.value.layer in seenLayers {
        NoPlan(g, expected, cs + [c.value]);
        return None;
      }
      cs := cs + [c.value];
      seenRope, seenLayers := seenRope + {c.value.rope}, seenLayers + {c.value.layer};
    }
    CoversSeen(cs, ropes);
    if exists r :: r in ropes && r !in seenRope {
      NoPlan(g, expected, cs);
      return None;
    }
    Planned(g, expected, cs);
    return Some(cs);
  }

  lemma NothingFound(g: Graph, kvs: seq<Id>)
    ensures Sites(g, kvs, []) && Distinct([])
  {
  }

  lemma SitesMore(g: Graph, kvs: seq<Id>, cs: seq<Candidate>, c: Candidate)
    requires Sites(g, kvs, cs) && |cs| < |kvs| && SiteOf(g, kvs[|cs|], c)
    ensures Sites(g, kvs, cs + [c])
  {
    var longer := cs + [c];
    forall i | 0 <= i < |longer|
      ensures SiteOf(g, kvs[i], longer[i])
    {
      if i < |cs| { assert longer[i] == cs[i]; } else { assert longer[i] == c; }
    }
  }

  lemma Planned(g: Graph, expected: int, cs: seq<Candidate>)
    requires |Calls(g.order, g, Rope)| == |Calls(g.order, g, KvUpdate)| == |cs| == expected
    requires Sites(g, Calls(g.order, g, KvUpdate), cs) && Distinct(cs) && Covers(cs, Calls(g.order, g, Rope))
    ensures IsPlan(g, expected, cs)
  {
  }

  lemma NoSite(g: Graph, kvUpdate: Id)
    requires forall c :: Site(g, c) ==> c.kvUpdate != kvUpdate
    ensures forall c :: !SiteOf(g, kvUpdate, c)
  {
  }

  lemma SiteFound(g: Graph, kvUpdate: Id, c: Candidate)
    requires Site(g, c) && c.kvUpdate == kvUpdate
    ensures SiteOf(g, kvUpdate, c)
  {
  }

  lemma OneMore(cs: seq<Candidate>, c: Candidate)
    ensures RopesOf(cs + [c]) == RopesOf(cs) + [c.rope] && LayersOf(cs + [c]) == LayersOf(cs) + [c.layer]
  {
    var longer := cs + [c];
    assert forall i | 0 <= i < |cs| :: longer[i] == cs[i];
    assert RopesOf(longer) == RopesOf(cs) + [c.rope];
    assert LayersOf(longer) == LayersOf(cs) + [c.layer];
  }

  /** The two seen sets catch exactly the candidates that clash with an earlier one. */
  lemma SeenBoth(cs: seq<Candidate>, c: Candidate)
    requires Distinct(cs)
    ensures Distinct(cs + [c]) <==> c.rope !in Seen(RopesOf(cs)) && c.layer !in Seen(LayersOf(cs))
    ensures Seen(RopesOf(cs + [c])) == Seen(RopesOf(cs)) + {c.rope}
    ensures Seen(LayersOf(cs + [c])) == Seen(LayersOf(cs)) + {c.layer}
  {
    OneMore(cs, c);
    SeenMore(RopesOf(cs), c.rope);
    SeenMore(LayersOf(cs), c.layer);
    SeenClashes(RopesOf(cs), c.rope);
    SeenClashes(LayersOf(cs), c.layer);
    if !AllDiffer(RopesOf(cs) + [c.rope]) { assert c.rope in Seen(RopesOf(cs)); }
  }

  lemma CoversSeen(cs: seq<Candidate>, ropes: seq<Id>)
    ensures Covers(cs, ropes) <==> forall r | r in ropes :: r in Seen(RopesOf(cs))
  {
    forall r { SeenIs(RopesOf(cs), r); }
  }
}
