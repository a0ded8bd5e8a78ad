/** Applying a Qwen2 plan to the graph. */
module Qwen2Apply {
  import opened Options
  import opened FxGraph
  import opened EffectEval
  import opened Presplit
  import opened Qwen2Presplit
  import opened Splice

  // ----- what applying needs of the sites -----

  /** The facts about users that make a site replaceable. */
  ghost predicate Usable(g: Graph, c: Candidate) {
    && c.kvUpdate in g.defs && c.rope in g.defs && c.attention in g.defs
    && g.defs[c.kvUpdate].target.KvUpdate? && g.defs[c.rope].target.Rope? && g.defs[c.attention].target.Attention?
    && (forall m | m in g.defs :: c.rope !in Refs(g.defs[m]))
    && (forall m | m in g.defs :: c.kvUpdate in Refs(g.defs[m]) <==> m == c.attention)
    && Needs(g.defs[c.attention], [c.query, c.key, c.value]) && c.kvUpdate !in [c.query, c.key, c.value]
    && Needs(g.defs[c.rope], [c.positions, c.cosSin])
  }

  predicate Needs(node: Node, ms: seq<Id>) {
    forall m | m in ms :: m in Refs(node)
  }

  lemma AttentionNeeds(g: Graph, c: Candidate)
    requires ReadsLayer(g, c)
    ensures Needs(At(g, c.attention), [c.query, c.key, c.value])
  {
    hide Refs;
    ArgIsRef(At(g, c.attention), 0, "query", c.query);
    ArgIsRef(At(g, c.attention), 1, "key", c.key);
    ArgIsRef(At(g, c.attention), 2, "value", c.value);
  }

  lemma RopeNeeds(g: Graph, c: Candidate, b: Bases)
    requires RotatesBases(g, c, b)
    ensures Needs(At(g, c.rope), [c.positions, c.cosSin])
  {
    hide Refs;
    ArgIsRef(At(g, c.rope), 0, "positions", c.positions);
    ArgIsRef(At(g, c.rope), 4, "cos_sin_cache", c.cosSin);
  }

  lemma NotViews(g: Graph, c: Candidate, b: Bases)
    requires ReadsLayer(g, c) && Packed(g, c, b)
    ensures c.kvUpdate !in [c.query, c.key, c.value]
  {
    assert At(g, c.query).target.View? && At(g, c.key).target.View? && At(g, c.value).target.View?;
  }

  lemma WiredTargets(g: Graph, c: Candidate, b: Bases)
    requires Wired(g, c, b)
    ensures c.kvUpdate in g.defs && c.rope in g.defs && c.attention in g.defs
    ensures g.defs[c.kvUpdate].target.KvUpdate? && g.defs[c.rope].target.Rope? && g.defs[c.attention].target.Attention?
  {
    hide Packed, Private;
  }

  lemma WiredUsable(g: Graph, c: Candidate, b: Bases)
    requires g.Valid() && Wired(g, c, b)
    ensures Usable(g, c)
  {
    hide Packed, ReadsLayer, RotatesBases, Private, Refs, Graph.Valid, Needs;
    WiredTargets(g, c, b);
    AttentionNeeds(g, c);
    RopeNeeds(g, c, b);
    NotViews(g, c, b);
    forall m | m in g.defs
      ensures c.rope !in Refs(g.defs[m]) && (c.kvUpdate in Refs(g.defs[m]) <==> m == c.attention)
    {
      WiredUsers(g, c, b, m);
    }
  }

  lemma WiredUsers(g: Graph, c: Candidate, b: Bases, m: Id)
    requires Wired(g, c, b) && m in g.defs
    ensures c.rope !in Refs(g.defs[m]) && (c.kvUpdate in Refs(g.defs[m]) <==> m == c.attention)
  {
    hide Packed, ReadsLayer, RotatesBases;
    UsersAre(g, c.rope, m);
    UsersAre(g, c.kvUpdate, m);
  }

  /** The RoPE node or the attention tells the site. */
  lemma SharedParts(g: Graph, c: Candidate, b: Bases, d: Candidate, e: Bases)
    requires Wired(g, c, b) && Wired(g, d, e)
    ensures c.attention == d.attention ==> c.kvUpdate == d.kvUpdate
    ensures c.rope == d.rope ==> c.kvUpdate == d.kvUpdate
  {
    if c.rope == d.rope {
      assert b.query == e.query;
      assert c.query in {d.query, d.rope};
      assert At(g, c.query).target.View?;
      assert c.attention in g.Users(d.query);
    }
  }

  /** A set of sites that can be rewritten together. */
  ghost predicate Applicable(g: Graph, cs: seq<Candidate>) {
    && (forall i | 0 <= i < |cs| :: Usable(g, cs[i]))
    && (forall i, j | 0 <= i < j < |cs| ::
          cs[i].kvUpdate != cs[j].kvUpdate && cs[i].rope != cs[j].rope && cs[i].attention != cs[j].attention)
  }

  lemma PlanApplicable(g: Graph, expected: int, cs: seq<Candidate>)
    requires g.Valid() && IsPlan(g, expected, cs)
    ensures Applicable(g, cs)
  {
    hide Usable, Wired, Calls;
    var kvs := Calls(g.order, g, KvUpdate);
    forall i | 0 <= i < |cs|
      ensures Usable(g, cs[i])
    {
      assert SiteOf(g, kvs[i], cs[i]);
      var b :| Wired(g, cs[i], b);
      WiredUsable(g, cs[i], b);
    }
    forall i, j | 0 <= i < j < |cs|
      ensures cs[i].kvUpdate != cs[j].kvUpdate && cs[i].rope != cs[j].rope && cs[i].attention != cs[j].attention
    {
      CallsDistinct(g.order, g, KvUpdate, i, j);
      assert SiteOf(g, kvs[i], cs[i]) && SiteOf(g, kvs[j], cs[j]);
      var b :| Wired(g, cs[i], b);
      var e :| Wired(g, cs[j], e);
      SharedParts(g, cs[i], b, cs[j], e);
    }
  }

  // ----- one rewrite -----

  function FusedNode(c: Candidate, meta: Option<TensorMeta>): Node {
    Node(FusedQwen2, [],
         map["query" := NodeArg(c.query), "key" := NodeArg(c.key), "value" := NodeArg(c.value),
             "positions" := NodeArg(c.positions), "cos_sin_cache" := NodeArg(c.cosSin),
             "is_neox" := BoolArg(c.isNeox), "layer_name" := StrArg(c.layer)], meta)
  }

  lemma FusedRefs(c: Candidate, meta: Option<TensorMeta>)
    ensures forall m :: m in Refs(FusedNode(c, meta)) <==> m in {c.query, c.key, c.value, c.positions, c.cosSin}
  {
    var kwargs := FusedNode(c, meta).kwargs;
    assert kwargs["query"] == NodeArg(c.query) && kwargs["key"] == NodeArg(c.key) && kwargs["value"] == NodeArg(c.value);
    assert kwargs["positions"] == NodeArg(c.positions) && kwargs["cos_sin_cache"] == NodeArg(c.cosSin);
  }

  function Fuse(g: Graph, c: Candidate): Graph
    requires c.kvUpdate in g.defs
  {
    g.Inserted(c.kvUpdate, FusedNode(c, g.defs[c.kvUpdate].meta))
  }

  function Rewire(g: Graph, c: Candidate, fused: Id): Graph {
    g.Renamed(g.Users(c.kvUpdate), map[c.kvUpdate := fused])
  }

  method ApplyOne(graph: FxGraph, c: Candidate)
    requires graph.g.Valid() && Usable(graph.g, c)
    modifies graph
    ensures var was := old(graph.g);
            graph.g == Rewire(Fuse(was, c), c, was.New()).Erased({c.kvUpdate}).Erased({c.rope})
    ensures graph.g.Valid()
  {
    hide Graph.Valid;
    ghost var was := graph.g;
    FuseLegal(was, c);
    var fused := graph.InsertBefore(c.kvUpdate, FusedNode(c, graph.g.defs[c.kvUpdate].meta));
    ghost var g1 := graph.g;
    RewireLegal(was, c);
    graph.ReplaceInput(graph.g.Users(c.kvUpdate), c.kvUpdate, fused);
    EraseLegal(was, c);
    graph.Erase(c.kvUpdate);
    // the RoPE node gained no user
    graph.Erase(c.rope);
  }

  lemma FuseLegal(g: Graph, c: Candidate)
    requires g.Valid() && Usable(g, c)
    ensures Refs(FusedNode(c, g.defs[c.kvUpdate].meta)) <= g.defs.Keys
  {
    FusedRefs(c, g.defs[c.kvUpdate].meta);
  }

  /** Once fused, the KV update still has one user and the RoPE node none. */
  lemma RewireLegal(g: Graph, c: Candidate)
    requires g.Valid() && Usable(g, c)
    ensures g.New() in Fuse(g, c).defs
    ensures forall m | m in Fuse(g, c).defs :: c.rope !in Refs(Fuse(g, c).defs[m])
    ensures forall m | m in Fuse(g, c).defs :: c.kvUpdate in Refs(Fuse(g, c).defs[m]) <==> m == c.attention
    ensures c.attention != g.New() && c.attention != c.kvUpdate && c.attention != c.rope && c.rope != c.kvUpdate
  {
    FusedRefs(c, g.defs[c.kvUpdate].meta);
    assert c.positions in Refs(g.defs[c.rope]) && c.cosSin in Refs(g.defs[c.rope]);
  }

  /** Rewired, the KV update has no user left, and erasing it the RoPE node still none. */
  lemma EraseLegal(g: Graph, c: Candidate)
    requires g.Valid() && Usable(g, c)
    ensures var h := Rewire(Fuse(g, c), c, g.New());
            c.kvUpdate in h.defs && h.Users(c.kvUpdate) == {}
            && c.rope in h.Erased({c.kvUpdate}).defs && h.Erased({c.kvUpdate}).Users(c.rope) == {}
  {
    RewireLegal(g, c);
    var g1 := Fuse(g, c);
    var sub := map[c.kvUpdate := g.New()];
    var h := Rewire(g1, c, g.New());
    forall m | m in h.defs
      ensures c.kvUpdate !in Refs(h.defs[m]) && c.rope !in Refs(h.defs[m])
    {
      RenameRefs(g1.defs[m], sub);
      UsersAre(g1, c.kvUpdate, m);
    }
    assert forall m :: m !in h.Users(c.kvUpdate);
    assert h.Users(c.kvUpdate) == {};
    var h' := h.Erased({c.kvUpdate});
    assert forall m :: m !in h'.Users(c.rope);
    assert h'.Users(c.rope) == {};
  }

  // ----- all of them -----

  function FusedId(g: Graph, i: int): Id {
    g.next + i
  }

  /** The nodes that the first `k` rewrites erase. */
  function Gone(cs: seq<Candidate>, k: nat): set<Id>
    requires k <= |cs|
  {
    if k == 0 then {} else Gone(cs, k - 1) + {cs[k - 1].rope, cs[k - 1].kvUpdate}
  }

  function Attended(cs: seq<Candidate>, k: nat): set<Id>
    requires k <= |cs|
  {
    if k == 0 then {} else Attended(cs, k - 1) + {cs[k - 1].attention}
  }

  /** Each KV update gives way to its fused call, each RoPE call to nothing. */
  function Reps(g: Graph, cs: seq<Candidate>, k: nat): map<Id, seq<Id>>
    requires k <= |cs|
  {
    if k == 0 then map[]
    else Reps(g, cs, k - 1)[cs[k - 1].kvUpdate := [FusedId(g, k - 1)]][cs[k - 1].rope := []]
  }

  function Redirected(g: Graph, c: Candidate, i: int): Node {
    Rename(At(g, c.attention), map[c.kvUpdate := FusedId(g, i)])
  }

  /** What the graph `g` has become after the first `k` rewrites. */
  ghost predicate Applied(g: Graph, cs: seq<Candidate>, k: nat, h: Graph)
    requires k <= |cs|
  {
    && h.next == g.next + k
    && h.order == Spliced(g.order, Reps(g, cs, k))
    && (forall n | n in g.defs && n !in Gone(cs, k) :: n in h.defs)
    && (forall n | n in h.defs :: (n in g.defs && n !in Gone(cs, k)) || g.next <= n < g.next + k)
    && (forall i | 0 <= i < k :: FusedAt(g, cs[i], i, h))
    && (forall n | n in g.defs && n !in Gone(cs, k) && n !in Attended(cs, k) :: h.defs[n] == g.defs[n])
  }

  predicate FusedAt(g: Graph, c: Candidate, i: int, h: Graph) {
    && FusedId(g, i) in h.defs && h.defs[FusedId(g, i)] == FusedNode(c, At(g, c.kvUpdate).meta)
    && c.attention in h.defs && h.defs[c.attention] == Redirected(g, c, i)
  }

  lemma {:induction false} GoneIs(cs: seq<Candidate>, k: nat, n: Id) returns (i: nat)
    requires k <= |cs| && n in Gone(cs, k)
    ensures i < k && (n == cs[i].rope || n == cs[i].kvUpdate)
  {
    i := k - 1;
    if n != cs[i].rope && n != cs[i].kvUpdate { i := GoneIs(cs, k - 1, n); }
  }

  lemma {:induction false} IsGone(cs: seq<Candidate>, k: nat, i: nat)
    requires i < k <= |cs|
    ensures cs[i].rope in Gone(cs, k) && cs[i].kvUpdate in Gone(cs, k) && cs[i].attention in Attended(cs, k)
  {
    if i < k - 1 { IsGone(cs, k - 1, i); }
  }

  lemma {:induction false} AttendedIs(cs: seq<Candidate>, k: nat, n: Id) returns (i: nat)
    requires k <= |cs| && n in Attended(cs, k)
    ensures i < k && n == cs[i].attention
  {
    i := k - 1;
    if n != cs[i].attention { i := AttendedIs(cs, k - 1, n); }
  }

  lemma {:induction false} RepsAre(g: Graph, cs: seq<Candidate>, k: nat, x: Id, n: Id)
    requires k <= |cs| && Applicable(g, cs)
    ensures x in Gone(cs, k) || RepOf(Reps(g, cs, k), x) == [x]
    ensures n in RepOf(Reps(g, cs, k), x) ==> n == x || n >= g.next
  {
    if k > 0 {
      RepsAre(g, cs, k - 1, x, n);
      assert Usable(g, cs[k - 1]);
      var before := Reps(g, cs, k - 1);
      assert RepOf(Reps(g, cs, k), x) ==
             if x == cs[k - 1].rope then [] else if x == cs[k - 1].kvUpdate then [FusedId(g, k - 1)] else RepOf(before, x);
    }
  }

  /** The parts of two sites are different nodes. */
  lemma PartsDiffer(g: Graph, cs: seq<Candidate>, i: nat, k: nat)
    requires i < |cs| && k < |cs| && i != k && Applicable(g, cs)
    ensures var (c, d) := (cs[i], cs[k]);
            && c.kvUpdate != d.kvUpdate && c.rope != d.rope && c.attention != d.attention
            && c.kvUpdate !in {d.rope, d.attention} && c.rope !in {d.kvUpdate, d.attention}
            && c.attention !in {d.rope, d.kvUpdate}
  {
    assert Usable(g, cs[i]) && Usable(g, cs[k]);
  }

  lemma NotYetGone(g: Graph, cs: seq<Candidate>, k: nat)
    requires g.Valid() && k < |cs| && Applicable(g, cs)
    ensures cs[k].kvUpdate !in Gone(cs, k) && cs[k].rope !in Gone(cs, k) && cs[k].attention !in Gone(cs, |cs|)
    ensures cs[k].attention !in Gone(cs, k) && cs[k].attention !in Attended(cs, k)
    ensures cs[k].kvUpdate !in Attended(cs, k) && cs[k].rope !in Attended(cs, k)
  {
    var c := cs[k];
    Basics(g, cs, k);
    forall n, m: nat | m <= |cs| && n in Gone(cs, m)
      ensures m <= k ==> n != c.kvUpdate && n != c.rope
      ensures n != c.attention
    {
      var i := GoneIs(cs, m, n);
      if i != k { PartsDiffer(g, cs, i, k); }
    }
    forall n | n in Attended(cs, k)
      ensures n != c.attention && n != c.kvUpdate && n != c.rope
    {
      var i := AttendedIs(cs, k, n);
      PartsDiffer(g, cs, i, k);
    }
  }

  /** No rewrite gives a later site's KV update or RoPE node a user. */
  lemma NoNewUser(g: Graph, cs: seq<Candidate>, k: nat, h: Graph, m: Id, t: Id)
    requires g.Valid() && k < |cs| && Applicable(g, cs) && Applied(g, cs, k, h) && m in h.defs
    requires t == cs[k].rope || t == cs[k].kvUpdate
    requires t in Refs(h.defs[m])
    ensures m in g.defs && t in Refs(g.defs[m])
  {
    hide Usable, Refs, Rename;
    if m in Attended(cs, k) {
      var i := AttendedIs(cs, k, m);
      assert FusedAt(g, cs[i], i, h);
      AttentionReads(g, cs, i, k, t);
    } else if m !in g.defs {
      var i := m - g.next;
      assert FusedAt(g, cs[i], i, h);
      FusedRefs(cs[i], At(g, cs[i].kvUpdate).meta);
      NotRead(g, cs, i, k, t);
    }
  }

  lemma AttentionReads(g: Graph, cs: seq<Candidate>, i: nat, k: nat, t: Id)
    requires g.Valid() && i < k < |cs| && Applicable(g, cs) && (t == cs[k].rope || t == cs[k].kvUpdate)
    ensures cs[i].attention in g.defs
    ensures t in Refs(Redirected(g, cs[i], i)) ==> t in Refs(g.defs[cs[i].attention])
  {
    assert Usable(g, cs[i]) && Usable(g, cs[k]);
    RenameRefs(g.defs[cs[i].attention], map[cs[i].kvUpdate := FusedId(g, i)]);
  }

  lemma NotRead(g: Graph, cs: seq<Candidate>, i: nat, k: nat, t: Id)
    requires g.Valid() && i < k < |cs| && Applicable(g, cs) && (t == cs[k].rope || t == cs[k].kvUpdate)
    ensures t !in {cs[i].query, cs[i].key, cs[i].value, cs[i].positions, cs[i].cosSin}
  {
    var (c, d) := (cs[i], cs[k]);
    assert Usable(g, c) && Usable(g, d);
    assert t !in Refs(g.defs[c.rope]) && t !in Refs(g.defs[c.attention]);
    assert c.query in Refs(g.defs[c.attention]) && c.key in Refs(g.defs[c.attention]) && c.value in Refs(g.defs[c.attention]);
    assert c.positions in Refs(g.defs[c.rope]) && c.cosSin in Refs(g.defs[c.rope]);
  }

  /** Rewriting some sites leaves every other one as it was. */
  lemma StillUsable(g: Graph, cs: seq<Candidate>, k: nat, h: Graph)
    requires g.Valid() && k < |cs| && Applicable(g, cs) && Applied(g, cs, k, h)
    ensures Usable(h, cs[k])
    ensures h.defs[cs[k].kvUpdate] == g.defs[cs[k].kvUpdate] && h.defs[cs[k].attention] == g.defs[cs[k].attention]
  {
    var c := cs[k];
    assert Usable(g, c);
    NotYetGone(g, cs, k);
    forall m | m in h.defs
      ensures c.rope !in Refs(h.defs[m]) && (c.kvUpdate in Refs(h.defs[m]) <==> m == c.attention)
    {
      if c.rope in Refs(h.defs[m]) { NoNewUser(g, cs, k, h, m, c.rope); }
      if c.kvUpdate in Refs(h.defs[m]) { NoNewUser(g, cs, k, h, m, c.kvUpdate); }
    }
  }

  // ----- one more rewrite -----

  function Step(h: Graph, c: Candidate): Graph
    requires c.kvUpdate in h.defs
  {
    Rewire(Fuse(h, c), c, h.New()).Erased({c.kvUpdate}).Erased({c.rope})
  }

  lemma StepValid(h: Graph, c: Candidate)
    requires h.Valid() && Usable(h, c)
    ensures Step(h, c).Valid()
  {
    FuseLegal(h, c);
    InsertedValid(h, c.kvUpdate, FusedNode(c, h.defs[c.kvUpdate].meta));
    RewireLegal(h, c);
    EraseLegal(h, c);
    var fused := Fuse(h, c);
    hide Graph.Valid, Usable, Fuse, FusedNode;
    RenamedValid(fused, fused.Users(c.kvUpdate), map[c.kvUpdate := h.New()]);
    ErasedValid(Rewire(fused, c, h.New()), {c.kvUpdate});
    ErasedValid(Rewire(fused, c, h.New()).Erased({c.kvUpdate}), {c.rope});
  }

  lemma RepsOwn(g: Graph, cs: seq<Candidate>, k: nat, x: Id)
    requires g.Valid() && k <= |cs| && Applicable(g, cs) && x in g.defs && x !in Gone(cs, k)
    ensures OnlyOwn(g.order, Reps(g, cs, k), x) && RepOf(Reps(g, cs, k), x) == [x]
  {
    RepsAre(g, cs, k, x, x);
    forall y | y in Elems(g.order) && y != x
      ensures x !in RepOf(Reps(g, cs, k), y)
    {
      RepsAre(g, cs, k, y, x);
    }
  }

  lemma UsableBasics(g: Graph, c: Candidate)
    requires g.Valid() && Usable(g, c)
    ensures c.kvUpdate in g.defs && c.rope in g.defs && c.attention in g.defs && g.next !in g.defs
    ensures c.kvUpdate < g.next && c.rope < g.next && c.attention < g.next
    ensures c.kvUpdate != c.rope && c.attention != c.rope && c.attention != c.kvUpdate
  {
  }

  lemma Basics(g: Graph, cs: seq<Candidate>, k: nat)
    requires g.Valid() && k < |cs| && Applicable(g, cs)
    ensures var c := cs[k];
            && c.kvUpdate in g.defs && c.rope in g.defs && c.attention in g.defs
            && c.kvUpdate < g.next && c.rope < g.next && c.attention < g.next
            && c.kvUpdate != c.rope && c.attention != c.rope && c.attention != c.kvUpdate
  {
    UsableBasics(g, cs[k]);
  }

  lemma StepOrder(g: Graph, cs: seq<Candidate>, k: nat, h: Graph)
    requires g.Valid() && k < |cs| && Applicable(g, cs) && Applied(g, cs, k, h) && cs[k].kvUpdate in h.defs
    ensures Step(h, cs[k]).order == Spliced(g.order, Reps(g, cs, k + 1))
  {
    hide Refs, Rename, OnlyOwn, Applicable, NoDup, Elems, Usable, Gone, Attended, Spliced, FusedAt, FusedNode, Graph.Users;
    var c := cs[k];
    NotYetGone(g, cs, k);
    Basics(g, cs, k);
    RepsOwn(g, cs, k, c.kvUpdate);
    RepsOwn(g, cs, k, c.rope);
    SpliceFused(g.order, Reps(g, cs, k), c.kvUpdate, c.rope, h.New());
  }

  /** `after` is `h` with the site `c` rewritten. */
  ghost predicate Stepped(h: Graph, c: Candidate, after: Graph) {
    && after.next == h.next + 1
    && (forall n | n in h.defs && n != c.kvUpdate && n != c.rope :: n in after.defs)
    && (forall n | n in after.defs :: n == h.next || (n in h.defs && n != c.kvUpdate && n != c.rope))
    && h.next in after.defs && after.defs[h.next] == FusedNode(c, At(h, c.kvUpdate).meta)
    && c.attention in after.defs
    && after.defs[c.attention] == Rename(At(h, c.attention), map[c.kvUpdate := h.next])
    && (forall n | n in after.defs && n != h.next && n != c.attention :: n in h.defs && after.defs[n] == h.defs[n])
  }

  lemma RewireDefs(h: Graph, c: Candidate, fused: Id)
    requires forall m | m in h.defs :: c.kvUpdate in Refs(h.defs[m]) <==> m == c.attention
    ensures forall n | n in h.defs :: Rewire(h, c, fused).defs[n] ==
              if n == c.attention then Rename(h.defs[n], map[c.kvUpdate := fused]) else h.defs[n]
  {
    hide Refs, Rename;
  }

  lemma StepDefs(h: Graph, c: Candidate)
    requires h.Valid() && Usable(h, c)
    ensures Stepped(h, c, Step(h, c))
  {
    hide Refs, Rename, Graph.Valid, Usable, FusedNode, Graph.Users, InsertedBefore, Without;
    UsableBasics(h, c);
    RewireLegal(h, c);
    RewireDefs(Fuse(h, c), c, h.New());
  }

  lemma StepApplied(g: Graph, cs: seq<Candidate>, k: nat, h: Graph)
    requires g.Valid() && h.Valid() && k < |cs| && Applicable(g, cs) && Applied(g, cs, k, h)
    ensures Usable(h, cs[k]) && Applied(g, cs, k + 1, Step(h, cs[k]))
  {
    StillUsable(g, cs, k, h);
    StepOrder(g, cs, k, h);
    StepDefs(h, cs[k]);
    AfterStep(g, cs, k, h, Step(h, cs[k]));
  }

  lemma AfterStep(g: Graph, cs: seq<Candidate>, k: nat, h: Graph, h': Graph)
    requires g.Valid() && k < |cs| && Applicable(g, cs) && Applied(g, cs, k, h) && Stepped(h, cs[k], h')
    requires At(h, cs[k].kvUpdate) == At(g, cs[k].kvUpdate) && At(h, cs[k].attention) == At(g, cs[k].attention)
    requires h'.order == Spliced(g.order, Reps(g, cs, k + 1))
    ensures Applied(g, cs, k + 1, h')
  {
    hide Refs, Rename, Applicable, Usable, FusedNode, Spliced, Reps, NoDup, Elems;
    NotYetGone(g, cs, k);
    Basics(g, cs, k);
    forall i | 0 <= i < k + 1
      ensures FusedAt(g, cs[i], i, h')
    {
      if i < k { KeepsFused(g, cs, k, h, h', i); }
    }
  }

  lemma KeepsFused(g: Graph, cs: seq<Candidate>, k: nat, h: Graph, h': Graph, i: nat)
    requires g.Valid() && i < k < |cs| && Applicable(g, cs) && Applied(g, cs, k, h) && Stepped(h, cs[k], h')
    ensures FusedAt(g, cs[i], i, h')
  {
    assert Usable(g, cs[i]) && Usable(g, cs[k]) && FusedAt(g, cs[i], i, h);
    assert cs[i].attention != cs[k].attention;
    hide Refs, Rename, Graph.Valid, FusedNode, Needs, Applied, Applicable;
  }

  /** Applies a plan: every site in turn, then lint. No step before lint can fail. */
  method Apply(graph: FxGraph, cs: seq<Candidate>) returns (n: Option<int>)
    requires graph.g.Valid() && Applicable(graph.g, cs)
    modifies graph
    ensures graph.g.Valid() && Applied(old(graph.g), cs, |cs|, graph.g)
    ensures n == if LintClean(graph.g) then Some(|cs|) else None
  {
    ghost var g := graph.g;
    SplicedNothing(g.order);
    for i := 0 to |cs|
      invariant graph.g.Valid() && Applied(g, cs, i, graph.g)
    {
      StepApplied(g, cs, i, graph.g);
      ApplyOne(graph, cs[i]);
    }
    var ok := graph.Lint();
    return if ok then Some(|cs|) else None;
  }
}
