/** Applying a Qwen3 plan to the graph. */
module Qwen3Apply {
  import opened Options
  import opened FxGraph
  import opened EffectEval
  import opened Presplit
  import opened Qwen3Presplit
  import opened Splice

  // ----- what applying needs of the sites -----

  /** The nodes that a rewrite takes apart; only these and the attention use them. */
  predicate Own(x: Site, n: Id) {
    n == x.c.kvUpdate || n == x.c.rope || n == x.q.arg || n == x.k.arg || n == x.q.flat || n == x.k.flat
    || n == x.q.norm || n == x.k.norm
  }

  predicate Targets(g: Graph, x: Site) {
    && x.c.kvUpdate in g.defs && x.c.rope in g.defs && x.c.attention in g.defs
    && x.q.arg in g.defs && x.k.arg in g.defs && x.q.flat in g.defs && x.k.flat in g.defs
    && x.q.norm in g.defs && x.k.norm in g.defs
    && g.defs[x.c.kvUpdate].target.KvUpdate? && g.defs[x.c.rope].target.Rope? && g.defs[x.c.attention].target.Attention?
    && g.defs[x.q.arg].target.View? && g.defs[x.k.arg].target.View?
    && g.defs[x.q.flat].target.View? && g.defs[x.k.flat].target.View?
    && g.defs[x.q.norm].target.AtenRmsNorm? && g.defs[x.k.norm].target.AtenRmsNorm?
  }

  predicate Uses(node: Node, n: Id) {
    n in Refs(node)
  }

  /** Who uses the nodes of a site. */
  ghost predicate UsedAsWired(g: Graph, x: Site, m: Id)
    requires m in g.defs
  {
    var node := g.defs[m];
    && !Uses(node, x.c.rope)
    && (Uses(node, x.c.kvUpdate) <==> m == x.c.attention)
    && (Uses(node, x.q.arg) <==> m == x.c.attention)
    && (Uses(node, x.k.arg) <==> m == x.c.kvUpdate || m == x.c.attention)
    && (Uses(node, x.q.flat) <==> m == x.q.arg || m == x.c.rope)
    && (Uses(node, x.k.flat) <==> m == x.k.arg || m == x.c.rope)
    && (Uses(node, x.q.norm) <==> m == x.q.flat)
    && (Uses(node, x.k.norm) <==> m == x.k.flat)
  }

  /** Where the fused call's arguments were used before. */
  predicate Reads(g: Graph, x: Site)
    requires Targets(g, x)
  {
    && Uses(g.defs[x.q.norm], x.q.head) && Uses(g.defs[x.q.norm], x.q.weight)
    && Uses(g.defs[x.k.norm], x.k.head) && Uses(g.defs[x.k.norm], x.k.weight)
    && Uses(g.defs[x.c.rope], x.c.positions) && Uses(g.defs[x.c.rope], x.c.cosSin)
    && Uses(g.defs[x.c.kvUpdate], x.c.value) && x.c.value != x.k.arg
    && (x.c.layer.NodeArg? ==> Uses(g.defs[x.c.kvUpdate], x.c.layer.n))
  }

  /** What the attention's arguments lead to. */
  predicate Leads(g: Graph, x: Site) {
    && ArgOf(At(g, x.c.attention), 0, "query") == Some(NodeArg(x.q.arg))
    && ArgOf(At(g, x.c.attention), 1, "key") == Some(NodeArg(x.k.arg))
    && ArgOf(At(g, x.c.attention), 4, "layer_name") == Some(x.c.layer)
    && ViewBase(At(g, x.q.arg)) == Some(x.q.flat) && ViewBase(At(g, x.k.arg)) == Some(x.k.flat)
    && ViewBase(At(g, x.q.flat)) == Some(x.q.norm) && ViewBase(At(g, x.k.flat)) == Some(x.k.norm)
  }

  ghost predicate Usable(g: Graph, x: Site) {
    && Targets(g, x) && Reads(g, x) && Leads(g, x) && Names(x)
    && forall m | m in g.defs :: UsedAsWired(g, x, m)
  }

  lemma ViewUsed(g: Graph, n: Id, base: Id)
    requires ViewBase(At(g, n)) == Some(base)
    ensures n in g.defs && g.defs[n].target.View? && Uses(g.defs[n], base)
  {
  }

  lemma NormUsed(g: Graph, n: Id, head: Id, weight: Id)
    requires IsNorm(At(g, n), head, weight)
    ensures n in g.defs && g.defs[n].target.AtenRmsNorm? && Uses(g.defs[n], head) && Uses(g.defs[n], weight)
  {
    ArgIsRef(At(g, n), 0, "input", head);
    ArgIsRef(At(g, n), 2, "weight", weight);
  }

  lemma WiredTargets(g: Graph, x: Site)
    requires Wired(g, x)
    ensures Targets(g, x)
  {
    hide Refs, Private, Uses;
    ViewUsed(g, x.q.arg, x.q.flat);
    ViewUsed(g, x.k.arg, x.k.flat);
    ViewUsed(g, x.q.flat, x.q.norm);
    ViewUsed(g, x.k.flat, x.k.norm);
    NormUsed(g, x.q.norm, x.q.head, x.q.weight);
    NormUsed(g, x.k.norm, x.k.head, x.k.weight);
  }

  lemma KvReads(g: Graph, x: Site)
    requires ReadsLayer(g, x)
    ensures x.c.kvUpdate in g.defs && Uses(g.defs[x.c.kvUpdate], x.c.value)
    ensures x.c.layer.NodeArg? ==> Uses(g.defs[x.c.kvUpdate], x.c.layer.n)
  {
    ArgIsRef(At(g, x.c.kvUpdate), 1, "value", x.c.value);
    if x.c.layer.NodeArg? { ArgIsRef(At(g, x.c.kvUpdate), 2, "layer_name", x.c.layer.n); }
  }

  lemma RopeReads(g: Graph, x: Site)
    requires Rotates(g, x)
    ensures x.c.rope in g.defs && Uses(g.defs[x.c.rope], x.c.positions) && Uses(g.defs[x.c.rope], x.c.cosSin)
  {
    ArgIsRef(At(g, x.c.rope), 0, "positions", x.c.positions);
    ArgIsRef(At(g, x.c.rope), 4, "cos_sin_cache", x.c.cosSin);
  }

  lemma ValueIsNoKey(g: Graph, x: Site)
    requires Packed(g, x)
    ensures x.c.value != x.k.arg
  {
    assert At(g, x.k.flat).target.View? && At(g, x.vBase).target.GetItem?;
  }

  lemma WiredUses(g: Graph, x: Site, m: Id)
    requires Private(g, x) && m in g.defs
    ensures UsedAsWired(g, x, m)
  {
    hide Refs;
    UsersAre(g, x.c.rope, m);
    UsersAre(g, x.c.kvUpdate, m);
    UsersAre(g, x.q.arg, m);
    UsersAre(g, x.k.arg, m);
    UsersAre(g, x.q.flat, m);
    UsersAre(g, x.k.flat, m);
    UsersAre(g, x.q.norm, m);
    UsersAre(g, x.k.norm, m);
  }

  lemma WiredUsable(g: Graph, x: Site)
    requires Wired(g, x)
    ensures Usable(g, x)
  {
    hide Refs, Uses, GoodHead, SplitItem, SplitSizes, Heads, Private;
    WiredTargets(g, x);
    NormUsed(g, x.q.norm, x.q.head, x.q.weight);
    NormUsed(g, x.k.norm, x.k.head, x.k.weight);
    KvReads(g, x);
    RopeReads(g, x);
    ValueIsNoKey(g, x);
    forall m | m in g.defs { WiredUses(g, x, m); }
    hide Packed, ReadsLayer, Rotates;
  }

  // ----- one rewrite -----

  function EmptyNode(head: Id, meta: Option<TensorMeta>): Node {
    Node(EmptyLike, [NodeArg(head)], map[], meta)
  }

  function FusedNode(c: Candidate, qOut: Id, kOut: Id, meta: Option<TensorMeta>): Node {
    Node(FusedQwen3, [],
         map["q" := NodeArg(c.qHead), "k" := NodeArg(c.kHead), "v" := NodeArg(c.value),
             "q_weight" := NodeArg(c.qWeight), "k_weight" := NodeArg(c.kWeight),
             "positions" := NodeArg(c.positions), "cos_sin_cache" := NodeArg(c.cosSin),
             "q_out" := NodeArg(qOut), "k_out" := NodeArg(kOut),
             "is_neox" := BoolArg(true), "mrope_section_t" := IntArg(64), "mrope_section_h" := IntArg(0),
             "mrope_section_w" := IntArg(0), "is_interleaved" := BoolArg(false), "eps" := RealArg(0.000001),
             "gemma" := BoolArg(false), "layer_name" := c.layer], meta)
  }

  predicate FusedArg(c: Candidate, m: Id) {
    m == c.qHead || m == c.kHead || m == c.value || m == c.qWeight || m == c.kWeight
    || m == c.positions || m == c.cosSin || c.layer == NodeArg(m)
  }

  lemma FusedRefs(c: Candidate, qOut: Id, kOut: Id, meta: Option<TensorMeta>, m: Id)
    ensures Uses(FusedNode(c, qOut, kOut, meta), m) <==> FusedArg(c, m) || m == qOut || m == kOut
  {
    var kwargs := FusedNode(c, qOut, kOut, meta).kwargs;
    assert kwargs["q"] == NodeArg(c.qHead) && kwargs["k"] == NodeArg(c.kHead) && kwargs["v"] == NodeArg(c.value);
    assert kwargs["q_weight"] == NodeArg(c.qWeight) && kwargs["k_weight"] == NodeArg(c.kWeight);
    assert kwargs["positions"] == NodeArg(c.positions) && kwargs["cos_sin_cache"] == NodeArg(c.cosSin);
    assert kwargs["q_out"] == NodeArg(qOut) && kwargs["k_out"] == NodeArg(kOut) && kwargs["layer_name"] == c.layer;
  }

  lemma EmptyRefs(head: Id, meta: Option<TensorMeta>, m: Id)
    ensures Uses(EmptyNode(head, meta), m) <==> m == head
  {
    assert EmptyNode(head, meta).args[0] == NodeArg(head);
  }

  /** `_replace_arg`: where the argument stands, keyword or position. */
  function ReplaceArg(node: Node, i: nat, name: string, v: Arg): Node {
    if name in node.kwargs then node.(kwargs := node.kwargs[name := v])
    else if i < |node.args| then node.(args := node.args[i := v])
    else node
  }

  function Replaced(attention: Node, query: Arg, key: Arg): Node {
    ReplaceArg(ReplaceArg(attention, 0, "query", query), 1, "key", key)
  }

  /** The attention without its query and key. */
  function Stripped(attention: Node): Node {
    Replaced(attention, NoneArg, NoneArg)
  }

  lemma ReplaceRefs(node: Node, i: nat, name: string, v: Arg, m: Id)
    ensures Uses(ReplaceArg(node, i, name, v), m) ==> Uses(node, m) || v == NodeArg(m)
    ensures v != NodeArg(m) ==> (Uses(ReplaceArg(node, i, name, v), m) <==> Uses(ReplaceArg(node, i, name, NoneArg), m))
  {
    var (a, b) := (ReplaceArg(node, i, name, v), ReplaceArg(node, i, name, NoneArg));
    assert forall k | k in node.kwargs && k != name :: a.kwargs[k] == b.kwargs[k] == node.kwargs[k];
    assert forall j | 0 <= j < |node.args| && j != i :: a.args[j] == b.args[j] == node.args[j];
  }

  lemma ReplacedRefs(attention: Node, query: Arg, key: Arg, m: Id)
    ensures Uses(Replaced(attention, query, key), m) ==> Uses(attention, m) || query == NodeArg(m) || key == NodeArg(m)
    ensures query != NodeArg(m) && key != NodeArg(m) ==>
              (Uses(Replaced(attention, query, key), m) <==> Uses(Stripped(attention), m))
  {
    ReplaceRefs(attention, 0, "query", query, m);
    ReplaceRefs(ReplaceArg(attention, 0, "query", query), 1, "key", key, m);
    ReplaceSwap(attention, query);
    ReplaceRefs(ReplaceArg(attention, 1, "key", NoneArg), 0, "query", query, m);
  }

  lemma ReplaceSwap(attention: Node, query: Arg)
    ensures Replaced(attention, query, NoneArg) == ReplaceArg(ReplaceArg(attention, 1, "key", NoneArg), 0, "query", query)
    ensures Stripped(attention) == ReplaceArg(ReplaceArg(attention, 1, "key", NoneArg), 0, "query", NoneArg)
  {
  }

  /** A layer node that is also the key stays an argument. */
  lemma LayerStays(g: Graph, x: Site)
    requires Usable(g, x) && x.c.layer == NodeArg(x.k.arg)
    ensures Uses(Stripped(At(g, x.c.attention)), x.k.arg)
  {
    hide UsedAsWired, Targets, Reads, Refs, Stripped;
    var att := At(g, x.c.attention);
    LayerArgStays(att, x.c.layer);
    ArgIsRef(Stripped(att), 4, "layer_name", x.k.arg);
  }

  lemma LayerArgStays(att: Node, layer: Arg)
    requires ArgOf(att, 4, "layer_name") == Some(layer)
    ensures ArgOf(Stripped(att), 4, "layer_name") == Some(layer)
  {
  }

  /** The two outputs and the fused call, inserted before the KV update. */
  function Made(h: Graph, x: Site): Graph {
    h.Inserted(x.c.kvUpdate, EmptyNode(x.c.qHead, At(h, x.c.qHead).meta))
     .Inserted(x.c.kvUpdate, EmptyNode(x.c.kHead, At(h, x.c.kHead).meta))
     .Inserted(x.c.kvUpdate, FusedNode(x.c, h.next, h.next + 1, At(h, x.c.kvUpdate).meta))
  }

  /** The attention reads the new outputs. */
  function Pointed(h: Graph, x: Site): Graph {
    var g := Made(h, x);
    g.(defs := g.defs[x.c.attention := Replaced(At(h, x.c.attention), NodeArg(h.next), NodeArg(h.next + 1))])
  }

  function Rewired(h: Graph, x: Site): Graph {
    var g := Pointed(h, x);
    g.Renamed(g.Users(x.c.kvUpdate), map[x.c.kvUpdate := h.next + 2])
  }

  function Bare(h: Graph, x: Site): Graph {
    Rewired(h, x).Erased({x.c.kvUpdate}).Erased({x.c.rope})
  }

  /** The nodes the rewrite tries to erase, in its order. */
  function OldNodes(x: Site): seq<Option<Id>> {
    [Some(x.q.arg), Some(x.k.arg), Some(x.q.flat), Some(x.k.flat), Some(x.q.norm), Some(x.k.norm)]
  }

  function ErasedInTurn(h: Graph, ns: seq<Option<Id>>): Graph {
    if ns == [] then h
    else
      var before := ErasedInTurn(h, ns[..|ns| - 1]);
      match ns[|ns| - 1]
      case None => before
      case Some(n) => before.ErasedIfUnused(n)
  }

  function Step(h: Graph, x: Site): Graph {
    ErasedInTurn(Bare(h, x), OldNodes(x))
  }

  /** The attention once its query, key and ordering argument are redirected. */
  function Redirected(g: Graph, x: Site, first: Id): Node {
    Rename(Replaced(At(g, x.c.attention), NodeArg(first), NodeArg(first + 1)), map[x.c.kvUpdate := first + 2])
  }

  ghost predicate IsRewired(h: Graph, x: Site, r: Graph) {
    && r.next == h.next + 3
    && (forall n | n in h.defs :: n in r.defs)
    && (forall n | n in r.defs :: n in h.defs || h.next <= n < h.next + 3)
    && h.next in r.defs && h.next + 1 in r.defs && h.next + 2 in r.defs && x.c.attention in r.defs
    && r.defs[h.next] == EmptyNode(x.c.qHead, At(h, x.c.qHead).meta)
    && r.defs[h.next + 1] == EmptyNode(x.c.kHead, At(h, x.c.kHead).meta)
    && r.defs[h.next + 2] == FusedNode(x.c, h.next, h.next + 1, At(h, x.c.kvUpdate).meta)
    && r.defs[x.c.attention] == Redirected(h, x, h.next)
    && (forall n | n in h.defs && n != x.c.attention :: r.defs[n] == h.defs[n])
  }

  lemma ArgDefined(h: Graph, x: Site, n: Id)
    requires h.Valid() && Targets(h, x) && Reads(h, x) && Names(x) && FusedArg(x.c, n)
    ensures n in h.defs
  {
    UseDefined(h, x.q.norm, n);
    UseDefined(h, x.k.norm, n);
    UseDefined(h, x.c.rope, n);
    UseDefined(h, x.c.kvUpdate, n);
  }

  lemma UseDefined(h: Graph, m: Id, n: Id)
    requires h.Valid() && m in h.defs
    ensures Uses(h.defs[m], n) ==> n in h.defs
  {
  }

  /** Of the nodes of its site, a fused call can use the key, as its layer, and the two flat
      views, as what RoPE reads. */
  lemma FusedArgsOutside(h: Graph, x: Site, n: Id)
    requires Usable(h, x) && FusedArg(x.c, n) && Own(x, n)
    ensures (n == x.k.arg && x.c.layer == NodeArg(x.k.arg)) || n == x.q.flat || n == x.k.flat
  {
    hide Refs, Uses, Leads;
    assert UsedAsWired(h, x, x.q.norm) && UsedAsWired(h, x, x.k.norm);
    assert UsedAsWired(h, x, x.c.rope) && UsedAsWired(h, x, x.c.kvUpdate);
  }

  ghost predicate IsMade(h: Graph, x: Site, r: Graph) {
    && r.next == h.next + 3
    && (forall n | n in h.defs :: n in r.defs && r.defs[n] == h.defs[n])
    && (forall n | n in r.defs :: n in h.defs || h.next <= n < h.next + 3)
    && h.next in r.defs && h.next + 1 in r.defs && h.next + 2 in r.defs
    && r.defs[h.next] == EmptyNode(x.c.qHead, At(h, x.c.qHead).meta)
    && r.defs[h.next + 1] == EmptyNode(x.c.kHead, At(h, x.c.kHead).meta)
    && r.defs[h.next + 2] == FusedNode(x.c, h.next, h.next + 1, At(h, x.c.kvUpdate).meta)
  }

  lemma MadeDefs(h: Graph, x: Site)
    requires h.next !in h.defs && h.next + 1 !in h.defs && h.next + 2 !in h.defs
    ensures IsMade(h, x, Made(h, x))
  {
    hide EmptyNode, FusedNode, InsertedBefore;
  }

  /** After the insertions only the attention uses the KV update, and nothing RoPE. */
  lemma MadeUses(h: Graph, x: Site, r: Graph, m: Id, n: Id)
    requires h.Valid() && Usable(h, x) && IsMade(h, x, r) && m in r.defs
    requires (n == x.c.kvUpdate && m != x.c.attention) || n == x.c.rope
    ensures !Uses(r.defs[m], n)
  {
    hide Usable, Refs, Uses, Graph.Valid, FusedNode, EmptyNode, FusedArg;
    NewIds(h, x);
    NotFusedArg(h, x);
    assert Own(x, n);
    if m in h.defs {
      AsWired(h, x, m);
    } else {
      NewUses(h, x, r, m, n);
    }
  }

  lemma NewUses(h: Graph, x: Site, r: Graph, m: Id, n: Id)
    requires IsMade(h, x, r) && m in r.defs && m !in h.defs && n < h.next
    ensures Uses(r.defs[m], n) ==> FusedArg(x.c, n)
  {
    hide Refs, Uses, FusedNode, EmptyNode;
    EmptyRefs(x.c.qHead, At(h, x.c.qHead).meta, n);
    EmptyRefs(x.c.kHead, At(h, x.c.kHead).meta, n);
    FusedRefs(x.c, h.next, h.next + 1, At(h, x.c.kvUpdate).meta, n);
  }

  lemma AsWired(h: Graph, x: Site, m: Id)
    requires Usable(h, x) && m in h.defs
    ensures UsedAsWired(h, x, m)
  {
  }

  lemma NotFusedArg(h: Graph, x: Site)
    requires Usable(h, x)
    ensures !FusedArg(x.c, x.c.kvUpdate) && !FusedArg(x.c, x.c.rope)
    ensures !FusedArg(x.c, x.q.arg) && !FusedArg(x.c, x.q.norm) && !FusedArg(x.c, x.k.norm)
    ensures FusedArg(x.c, x.k.arg) ==> x.c.layer == NodeArg(x.k.arg)
    ensures x.c.qHead != x.k.arg && x.c.kHead != x.k.arg
    ensures x.c.qHead !in {x.q.flat, x.k.flat, x.q.arg, x.k.arg} && x.c.kHead !in {x.q.flat, x.k.flat, x.q.arg, x.k.arg}
  {
    hide Refs, Uses, Leads;
    assert UsedAsWired(h, x, x.q.norm) && UsedAsWired(h, x, x.k.norm);
    assert UsedAsWired(h, x, x.c.rope) && UsedAsWired(h, x, x.c.kvUpdate);
  }

  lemma NewIds(h: Graph, x: Site)
    requires h.Valid() && Usable(h, x)
    ensures h.next !in h.defs && h.next + 1 !in h.defs && h.next + 2 !in h.defs
    ensures forall n | Own(x, n) || n == x.c.attention :: n in h.defs && n < h.next
    ensures !Own(x, x.c.attention)
  {
    hide UsedAsWired, Leads, Reads;
  }

  lemma RewiredDefs(h: Graph, x: Site)
    requires h.Valid() && Usable(h, x)
    ensures IsRewired(h, x, Rewired(h, x))
  {
    NewIds(h, x);
    MadeDefs(h, x);
    RewiredFrom(h, x, Made(h, x));
  }

  lemma RewiredFrom(h: Graph, x: Site, r: Graph)
    requires h.Valid() && Usable(h, x) && IsMade(h, x, r) && x.c.attention in h.defs && x.c.attention < h.next
    ensures var g := r.(defs := r.defs[x.c.attention := Replaced(At(h, x.c.attention), NodeArg(h.next), NodeArg(h.next + 1))]);
            IsRewired(h, x, g.Renamed(g.Users(x.c.kvUpdate), map[x.c.kvUpdate := h.next + 2]))
  {
    hide Refs, Uses, Usable, Graph.Valid, FusedNode, EmptyNode, Replaced;
    var g := r.(defs := r.defs[x.c.attention := Replaced(At(h, x.c.attention), NodeArg(h.next), NodeArg(h.next + 1))]);
    forall m | m in g.defs && m != x.c.attention
      ensures !Uses(g.defs[m], x.c.kvUpdate)
    {
      MadeUses(h, x, r, m, x.c.kvUpdate);
    }
    RenamedAt(g, x, h.next + 2);
    hide Rename;
  }

  /** Renaming the users renames the attention and nothing else. */
  lemma RenamedAt(g: Graph, x: Site, fused: Id)
    requires x.c.attention in g.defs
    requires forall m | m in g.defs && m != x.c.attention :: !Uses(g.defs[m], x.c.kvUpdate)
    ensures var r := g.Renamed(g.Users(x.c.kvUpdate), map[x.c.kvUpdate := fused]);
            && (forall n | n in g.defs && n != x.c.attention :: r.defs[n] == g.defs[n])
            && r.defs[x.c.attention] == Rename(g.defs[x.c.attention], map[x.c.kvUpdate := fused])
  {
    if !Uses(g.defs[x.c.attention], x.c.kvUpdate) {
      NothingToRename(g.defs[x.c.attention], x.c.kvUpdate, fused);
    }
    hide Refs, Rename;
  }

  lemma NothingToRename(node: Node, a: Id, b: Id)
    requires !Uses(node, a)
    ensures Rename(node, map[a := b]) == node
  {
    RenameNothing(node, map[a := b]);
  }

  // ----- which old nodes go -----

  /** The attention reads the chain's end in another argument too. */
  predicate KeepsArg(attention: Node, w: Chain) {
    Uses(Stripped(attention), w.arg)
  }

  predicate KeepsFlat(attention: Node, c: Candidate, w: Chain) {
    KeepsArg(attention, w) || FusedArg(c, w.flat)
  }

  function DeadSide(attention: Node, c: Candidate, w: Chain): set<Id> {
    (if KeepsArg(attention, w) then {} else {w.arg}) + (if KeepsFlat(attention, c, w) then {} else {w.flat, w.norm})
  }

  function DeadChains(attention: Node, x: Site): set<Id> {
    DeadSide(attention, x.c, x.q) + DeadSide(attention, x.c, x.k)
  }

  /** Who uses a chain when the KV update and RoPE are gone. */
  ghost predicate ChainUsed(r: Graph, gone: set<Id>, attention: Id, fused: Id, w: Chain, keepsArg: bool, fusedFlat: bool) {
    && w.arg in r.defs && w.flat in r.defs && w.norm in r.defs && attention in r.defs && fused in r.defs
    && (if keepsArg then Uses(r.defs[attention], w.arg)
        else forall m | m in r.defs && m !in gone :: !Uses(r.defs[m], w.arg))
    && Uses(r.defs[w.arg], w.flat) && (fusedFlat <==> Uses(r.defs[fused], w.flat))
    && (forall m | m in r.defs && m !in gone && Uses(r.defs[m], w.flat) :: m == w.arg || m == fused)
    && Uses(r.defs[w.flat], w.norm)
    && (forall m | m in r.defs && m !in gone && Uses(r.defs[m], w.norm) :: m == w.flat)
  }

  /** Nodes that play different parts are different nodes. */
  predicate AllApart(gone: set<Id>, attention: Id, fused: Id, q: Chain, k: Chain) {
    var ns := [attention, fused, q.arg, k.arg, q.flat, k.flat, q.norm, k.norm];
    (forall n | n in ns :: n !in gone) && AllDiffer(ns)
  }

  lemma EraseNext(b: Graph, gone: set<Id>, n: Id)
    requires n in b.defs && n !in gone
    ensures b.Erased(gone).ErasedIfUnused(n) ==
            if exists m :: m in b.defs && m !in gone && Uses(b.defs[m], n) then b.Erased(gone) else b.Erased(gone + {n})
  {
    hide Refs;
    var h := b.Erased(gone);
    if exists m :: m in b.defs && m !in gone && Uses(b.defs[m], n) {
      var m :| m in b.defs && m !in gone && Uses(b.defs[m], n);
      UsersAre(h, n, m);
      assert m in h.Users(n);
    } else {
      forall m
        ensures m !in h.Users(n)
      {
        UsersAre(h, n, m);
      }
      assert h.Users(n) == {};
      WithoutTwice(b.order, gone, {n});
      assert b.defs - gone - {n} == b.defs - (gone + {n});
    }
  }

  function Plus(gone: set<Id>, keep: bool, n: Id): set<Id> {
    if keep then gone else gone + {n}
  }

  /** One node of the list goes unless something still uses it. */
  lemma EraseStep(r: Graph, gone: set<Id>, n: Id, keep: bool)
    requires n in r.defs && n !in gone
    requires keep ==> exists m :: m in r.defs && m !in gone && Uses(r.defs[m], n)
    requires !keep ==> forall m | m in r.defs && m !in gone :: !Uses(r.defs[m], n)
    ensures r.Erased(gone).ErasedIfUnused(n) == r.Erased(Plus(gone, keep, n))
  {
    EraseNext(r, gone, n);
  }

  lemma SixSteps(r: Graph, s0: set<Id>, attention: Id, fused: Id, x: Site, qa: bool, ka: bool, qf: bool, kf: bool)
    returns (s6: set<Id>)
    requires ChainUsed(r, s0, attention, fused, x.q, qa, qf) && ChainUsed(r, s0, attention, fused, x.k, ka, kf)
    requires AllApart(s0, attention, fused, x.q, x.k)
    ensures ErasedInTurn(r.Erased(s0), OldNodes(x)) == r.Erased(s6)
    ensures s6 == Plus(Plus(Plus(Plus(Plus(Plus(s0, qa, x.q.arg), ka, x.k.arg), qa || qf, x.q.flat), ka || kf, x.k.flat),
                            qa || qf, x.q.norm), ka || kf, x.k.norm)
  {
    hide ChainUsed, ErasedInTurn, AllApart, Graph.Erased, Graph.ErasedIfUnused;
    ApartFacts(s0, attention, fused, x.q, x.k);
    var s1 := Plus(s0, qa, x.q.arg);
    ArgStep(r, s0, s0, attention, fused, x.q, qa, qf);
    var s2 := Plus(s1, ka, x.k.arg);
    ArgStep(r, s0, s1, attention, fused, x.k, ka, kf);
    var s3 := Plus(s2, qa || qf, x.q.flat);
    FlatStep(r, s0, s2, attention, fused, x.q, qa, qf);
    var s4 := Plus(s3, ka || kf, x.k.flat);
    FlatStep(r, s0, s3, attention, fused, x.k, ka, kf);
    var s5 := Plus(s4, qa || qf, x.q.norm);
    NormStep(r, s0, s4, attention, fused, x.q, qa, qf);
    s6 := Plus(s5, ka || kf, x.k.norm);
    NormStep(r, s0, s5, attention, fused, x.k, ka, kf);
    TurnsUnrolled(r.Erased(s0), x);
  }

  lemma ApartFacts(gone: set<Id>, attention: Id, fused: Id, q: Chain, k: Chain)
    requires AllApart(gone, attention, fused, q, k)
    ensures attention !in gone && fused !in gone && q.arg !in gone && k.arg !in gone
    ensures q.flat !in gone && k.flat !in gone && q.norm !in gone && k.norm !in gone
    ensures attention !in {q.arg, k.arg, q.flat, k.flat, q.norm, k.norm}
    ensures fused !in {q.arg, k.arg, q.flat, k.flat, q.norm, k.norm}
    ensures q.arg !in {k.arg, q.flat, k.flat, q.norm, k.norm} && k.arg !in {q.flat, k.flat, q.norm, k.norm}
    ensures q.flat !in {k.flat, q.norm, k.norm} && k.flat !in {q.norm, k.norm} && q.norm != k.norm
  {
    var ns := [attention, fused, q.arg, k.arg, q.flat, k.flat, q.norm, k.norm];
    assert ns[0] == attention && ns[1] == fused && ns[2] == q.arg && ns[3] == k.arg
           && ns[4] == q.flat && ns[5] == k.flat && ns[6] == q.norm && ns[7] == k.norm;
  }

  lemma ArgStep(r: Graph, s0: set<Id>, gone: set<Id>, attention: Id, fused: Id, w: Chain, ka: bool, ff: bool)
    requires ChainUsed(r, s0, attention, fused, w, ka, ff)
    requires (forall n | n in s0 :: n in gone) && attention !in gone && w.arg !in gone
    ensures r.Erased(gone).ErasedIfUnused(w.arg) == r.Erased(Plus(gone, ka, w.arg))
  {
    hide Uses;
    EraseStep(r, gone, w.arg, ka);
  }

  lemma FlatStep(r: Graph, s0: set<Id>, gone: set<Id>, attention: Id, fused: Id, w: Chain, ka: bool, ff: bool)
    requires ChainUsed(r, s0, attention, fused, w, ka, ff)
    requires (forall n | n in s0 :: n in gone) && fused !in gone && w.flat !in gone && (w.arg in gone <==> !ka)
    ensures r.Erased(gone).ErasedIfUnused(w.flat) == r.Erased(Plus(gone, ka || ff, w.flat))
  {
    hide Uses;
    EraseStep(r, gone, w.flat, ka || ff);
  }

  lemma NormStep(r: Graph, s0: set<Id>, gone: set<Id>, attention: Id, fused: Id, w: Chain, ka: bool, ff: bool)
    requires ChainUsed(r, s0, attention, fused, w, ka, ff)
    requires (forall n | n in s0 :: n in gone) && w.norm !in gone && (w.flat in gone <==> !(ka || ff))
    ensures r.Erased(gone).ErasedIfUnused(w.norm) == r.Erased(Plus(gone, ka || ff, w.norm))
  {
    hide Uses;
    EraseStep(r, gone, w.norm, ka || ff);
  }

  lemma TurnsUnrolled(h: Graph, x: Site)
    ensures ErasedInTurn(h, OldNodes(x)) ==
            h.ErasedIfUnused(x.q.arg).ErasedIfUnused(x.k.arg).ErasedIfUnused(x.q.flat).ErasedIfUnused(x.k.flat)
             .ErasedIfUnused(x.q.norm).ErasedIfUnused(x.k.norm)
  {
    hide Graph.ErasedIfUnused;
    var ns := OldNodes(x);
    assert ns[..5][..4] == ns[..4] && ns[..4][..3] == ns[..3] && ns[..3][..2] == ns[..2] && ns[..2][..1] == ns[..1] && ns[..1][..0] == [];
    assert ErasedInTurn(h, ns[..1]) == h.ErasedIfUnused(x.q.arg);
    assert ErasedInTurn(h, ns[..2]) == ErasedInTurn(h, ns[..1]).ErasedIfUnused(x.k.arg);
    assert ErasedInTurn(h, ns[..3]) == ErasedInTurn(h, ns[..2]).ErasedIfUnused(x.q.flat);
    assert ErasedInTurn(h, ns[..4]) == ErasedInTurn(h, ns[..3]).ErasedIfUnused(x.k.flat);
    assert ErasedInTurn(h, ns[..5]) == ErasedInTurn(h, ns[..4]).ErasedIfUnused(x.q.norm);
  }

  // ----- what one rewrite does -----

  function Dead(g: Graph, x: Site): set<Id> {
    {x.c.kvUpdate, x.c.rope} + DeadChains(At(g, x.c.attention), x)
  }

  lemma RenamedUses(node: Node, a: Id, b: Id, n: Id)
    requires n != a && n != b
    ensures Uses(Rename(node, map[a := b]), n) <==> Uses(node, n)
  {
    RenameRefs(node, map[a := b]);
  }

  /** The redirected attention keeps exactly its other uses of old nodes. */
  lemma RedirectedUses(h: Graph, x: Site, n: Id)
    requires n < h.next && n != x.c.kvUpdate
    ensures Uses(Redirected(h, x, h.next), n) <==> Uses(Stripped(At(h, x.c.attention)), n)
    ensures Uses(Stripped(At(h, x.c.attention)), n) ==> Uses(At(h, x.c.attention), n)
  {
    hide Uses, Rename, Replaced, Stripped;
    var att := At(h, x.c.attention);
    ReplacedRefs(att, NodeArg(h.next), NodeArg(h.next + 1), n);
    StrippedUses(att, n);
    RenamedUses(Replaced(att, NodeArg(h.next), NodeArg(h.next + 1)), x.c.kvUpdate, h.next + 2, n);
  }

  lemma StrippedUses(att: Node, n: Id)
    ensures Uses(Stripped(att), n) ==> Uses(att, n)
  {
    ReplacedRefs(att, NoneArg, NoneArg, n);
  }

  /** A node of the rewired graph uses an old node only as before. */
  lemma RewiredUses(h: Graph, x: Site, r: Graph, m: Id, n: Id)
    requires IsRewired(h, x, r) && m in r.defs && n < h.next && n != x.c.kvUpdate && x.c.attention in h.defs
    ensures m in h.defs && m != x.c.attention ==> (Uses(r.defs[m], n) <==> Uses(h.defs[m], n))
    ensures m == x.c.attention ==> (Uses(r.defs[m], n) <==> Uses(Stripped(h.defs[m]), n))
    ensures m == x.c.attention && Uses(r.defs[m], n) ==> Uses(h.defs[m], n)
    ensures m !in h.defs && m != h.next + 2 ==> (Uses(r.defs[m], n) ==> n == x.c.qHead || n == x.c.kHead)
    ensures m == h.next + 2 && m !in h.defs ==> (Uses(r.defs[m], n) <==> FusedArg(x.c, n))
  {
    hide Uses, Stripped, Redirected, FusedNode, EmptyNode, FusedArg;
    RedirectedUses(h, x, n);
    EmptyRefs(x.c.qHead, At(h, x.c.qHead).meta, n);
    EmptyRefs(x.c.kHead, At(h, x.c.kHead).meta, n);
    FusedRefs(x.c, h.next, h.next + 1, At(h, x.c.kvUpdate).meta, n);
  }

  lemma PartsApart(h: Graph, x: Site)
    requires Targets(h, x) && h.next + 2 !in h.defs && forall m | m in h.defs :: UsedAsWired(h, x, m)
    requires Uses(h.defs[x.q.arg], x.q.flat) && Uses(h.defs[x.k.arg], x.k.flat)
    requires Uses(h.defs[x.q.flat], x.q.norm) && Uses(h.defs[x.k.flat], x.k.norm)
    ensures AllApart({x.c.kvUpdate, x.c.rope}, x.c.attention, h.next + 2, x.q, x.k)
  {
    hide Uses;
    assert UsedAsWired(h, x, x.q.arg) && UsedAsWired(h, x, x.k.arg) && UsedAsWired(h, x, x.q.flat) && UsedAsWired(h, x, x.k.flat);
    assert UsedAsWired(h, x, x.c.attention) && UsedAsWired(h, x, x.c.kvUpdate);
  }

  lemma ViewsUse(h: Graph, x: Site)
    requires Leads(h, x)
    ensures x.q.arg in h.defs && Uses(h.defs[x.q.arg], x.q.flat) && x.k.arg in h.defs && Uses(h.defs[x.k.arg], x.k.flat)
    ensures x.q.flat in h.defs && Uses(h.defs[x.q.flat], x.q.norm) && x.k.flat in h.defs && Uses(h.defs[x.k.flat], x.k.norm)
  {
    hide Uses;
    ViewUsed(h, x.q.arg, x.q.flat);
    ViewUsed(h, x.k.arg, x.k.flat);
    ViewUsed(h, x.q.flat, x.q.norm);
    ViewUsed(h, x.k.flat, x.k.norm);
  }

  /** Which nodes of the site the rewired graph still uses. */
  lemma StillUsed(h: Graph, x: Site, r: Graph, m: Id)
    requires h.Valid() && Usable(h, x) && IsRewired(h, x, r) && m in r.defs
    ensures !Uses(r.defs[m], x.c.rope)
    ensures Uses(r.defs[m], x.q.arg) ==> m == x.c.attention && KeepsArg(At(h, x.c.attention), x.q)
    ensures Uses(r.defs[m], x.k.arg) ==> m == x.c.kvUpdate || KeepsArg(At(h, x.c.attention), x.k)
    ensures Uses(r.defs[m], x.q.flat) ==> m == x.q.arg || m == x.c.rope || m == h.next + 2
    ensures Uses(r.defs[m], x.k.flat) ==> m == x.k.arg || m == x.c.rope || m == h.next + 2
    ensures Uses(r.defs[m], x.q.norm) ==> m == x.q.flat
    ensures Uses(r.defs[m], x.k.norm) ==> m == x.k.flat
  {
    hide Graph.Valid, Refs, Uses, Stripped, FusedArg, Leads, Reads, IsRewired;
    NewIds(h, x);
    NotFusedArg(h, x);
    if x.c.layer == NodeArg(x.k.arg) { LayerStays(h, x); }
    RewiredUses(h, x, r, m, x.c.rope);
    RewiredUses(h, x, r, m, x.q.arg);
    RewiredUses(h, x, r, m, x.k.arg);
    RewiredUses(h, x, r, m, x.q.flat);
    RewiredUses(h, x, r, m, x.k.flat);
    RewiredUses(h, x, r, m, x.q.norm);
    RewiredUses(h, x, r, m, x.k.norm);
    HeadsOutside(h, x);
    if m in h.defs { AsWired(h, x, m); }
  }

  lemma HeadsOutside(h: Graph, x: Site)
    requires Usable(h, x)
    ensures !Own(x, x.c.qHead) && !Own(x, x.c.kHead)
  {
    NotFusedArg(h, x);
  }

  lemma ChainUsedNow(h: Graph, x: Site, r: Graph, w: Chain)
    requires h.Valid() && Usable(h, x) && IsRewired(h, x, r) && (w == x.q || w == x.k)
    ensures ChainUsed(r, {x.c.kvUpdate, x.c.rope}, x.c.attention, h.next + 2, w,
                      KeepsArg(At(h, x.c.attention), w), FusedArg(x.c, w.flat))
  {
    hide Graph.Valid, Refs, Uses, Stripped, FusedArg, Usable;
    NewIds(h, x);
    OldViews(h, x, r, w);
    RewiredUses(h, x, r, x.c.attention, w.arg);
    RewiredUses(h, x, r, h.next + 2, w.flat);
    forall m | m in r.defs && m != x.c.kvUpdate && m != x.c.rope
      ensures Uses(r.defs[m], w.arg) ==> KeepsArg(At(h, x.c.attention), w)
      ensures Uses(r.defs[m], w.flat) ==> m == w.arg || m == h.next + 2
      ensures Uses(r.defs[m], w.norm) ==> m == w.flat
    {
      StillUsed(h, x, r, m);
    }
  }

  lemma OldViews(h: Graph, x: Site, r: Graph, w: Chain)
    requires h.Valid() && Usable(h, x) && IsRewired(h, x, r) && (w == x.q || w == x.k)
    ensures w.arg in h.defs && w.flat in h.defs && w.norm in h.defs
    ensures w.arg in r.defs && w.flat in r.defs && w.norm in r.defs
    ensures w.arg < h.next && w.flat < h.next && w.norm < h.next
    ensures x.c.kvUpdate !in {w.arg, w.flat, w.norm} && x.c.attention in h.defs
    ensures Uses(r.defs[w.arg], w.flat) && Uses(r.defs[w.flat], w.norm)
  {
    hide Uses, FusedNode, EmptyNode, Redirected;
    ViewsUse(h, x);
  }

  /** `after` is `h` with the site `x` rewritten. */
  ghost predicate Stepped(h: Graph, x: Site, after: Graph) {
    && after.next == h.next + 3
    && (forall n | n in h.defs && n !in Dead(h, x) :: n in after.defs)
    && (forall n | n in after.defs :: (n in h.defs && n !in Dead(h, x)) || h.next <= n < h.next + 3)
    && h.next in after.defs && h.next + 1 in after.defs && h.next + 2 in after.defs && x.c.attention in after.defs
    && after.defs[h.next] == EmptyNode(x.c.qHead, At(h, x.c.qHead).meta)
    && after.defs[h.next + 1] == EmptyNode(x.c.kHead, At(h, x.c.kHead).meta)
    && after.defs[h.next + 2] == FusedNode(x.c, h.next, h.next + 1, At(h, x.c.kvUpdate).meta)
    && after.defs[x.c.attention] == Redirected(h, x, h.next)
    && (forall n | n in h.defs && n !in Dead(h, x) && n != x.c.attention :: after.defs[n] == h.defs[n])
  }

  lemma BareIs(h: Graph, x: Site)
    ensures Bare(h, x) == Rewired(h, x).Erased({x.c.kvUpdate, x.c.rope})
  {
    hide Rewired;
    var r := Rewired(h, x);
    WithoutTwice(r.order, {x.c.kvUpdate}, {x.c.rope});
    assert {x.c.kvUpdate} + {x.c.rope} == {x.c.kvUpdate, x.c.rope};
    assert r.defs - {x.c.kvUpdate} - {x.c.rope} == r.defs - {x.c.kvUpdate, x.c.rope};
  }

  function DeadList(s0: set<Id>, x: Site, qa: bool, ka: bool, qf: bool, kf: bool): set<Id> {
    Plus(Plus(Plus(Plus(Plus(Plus(s0, qa, x.q.arg), ka, x.k.arg), qa || qf, x.q.flat), ka || kf, x.k.flat),
              qa || qf, x.q.norm), ka || kf, x.k.norm)
  }

  function Erasable(h: Graph, x: Site): set<Id> {
    var att := At(h, x.c.attention);
    DeadList({x.c.kvUpdate, x.c.rope}, x, KeepsArg(att, x.q), KeepsArg(att, x.k),
             FusedArg(x.c, x.q.flat), FusedArg(x.c, x.k.flat))
  }

  /** What is erased is exactly what the rewrite leaves unused. */
  lemma StepErases(h: Graph, x: Site)
    requires h.Valid() && Usable(h, x)
    ensures Step(h, x) == Rewired(h, x).Erased(Erasable(h, x))
  {
    hide Usable, Graph.Valid, IsRewired, ChainUsed, Rewired, AllApart, ErasedInTurn, OldNodes, FusedArg, KeepsArg, Plus;
    var r := Rewired(h, x);
    var (att, s0) := (At(h, x.c.attention), {x.c.kvUpdate, x.c.rope});
    RewiredDefs(h, x);
    ChainUsedNow(h, x, r, x.q);
    ChainUsedNow(h, x, r, x.k);
    SiteApart(h, x);
    BareIs(h, x);
    var gone := SixSteps(r, s0, x.c.attention, h.next + 2, x, KeepsArg(att, x.q), KeepsArg(att, x.k),
                         FusedArg(x.c, x.q.flat), FusedArg(x.c, x.k.flat));
  }

  lemma SiteApart(h: Graph, x: Site)
    requires h.Valid() && Usable(h, x)
    ensures AllApart({x.c.kvUpdate, x.c.rope}, x.c.attention, h.next + 2, x.q, x.k)
  {
    hide Uses, AllApart;
    NewIds(h, x);
    ViewsUse(h, x);
    PartsApart(h, x);
  }

  lemma OldDead(h: Graph, x: Site)
    ensures forall n | n in Dead(h, x) :: Own(x, n)
  {
    hide KeepsArg, FusedArg;
  }

  lemma StepDefs(h: Graph, x: Site)
    requires h.Valid() && Usable(h, x)
    ensures Stepped(h, x, Step(h, x))
  {
    hide Usable, Graph.Valid, Rewired, Step, AllApart, Dead, Redirected, FusedNode, EmptyNode, Without, Own, Erasable;
    NewIds(h, x);
    RewiredDefs(h, x);
    OldDead(h, x);
    StepErases(h, x);
    forall n
      ensures n in Erasable(h, x) <==> n in Dead(h, x)
    {
      ErasableIs(h, x, n);
    }
  }

  lemma ErasableIs(h: Graph, x: Site, n: Id)
    ensures n in Erasable(h, x) <==> n in Dead(h, x)
  {
    hide KeepsArg, FusedArg, At;
  }

  // ----- all of them -----

  function FirstId(g: Graph, i: int): Id {
    g.next + 3 * i
  }

  function Gone(g: Graph, xs: seq<Site>, k: nat): set<Id>
    requires k <= |xs|
  {
    if k == 0 then {} else Gone(g, xs, k - 1) + Dead(g, xs[k - 1])
  }

  function Attended(xs: seq<Site>, k: nat): set<Id>
    requires k <= |xs|
  {
    if k == 0 then {} else Attended(xs, k - 1) + {xs[k - 1].c.attention}
  }

  /** A KV update gives way to two outputs and the fused call, every other dead node to nothing. */
  function Reps(g: Graph, xs: seq<Site>, k: nat): map<Id, seq<Id>>
    requires k <= |xs|
  {
    if k == 0 then map[]
    else
      var x := xs[k - 1];
      var first := FirstId(g, k - 1);
      Reps(g, xs, k - 1) + (map n | n in Dead(g, x) :: if n == x.c.kvUpdate then [first, first + 1, first + 2] else [])
  }

  predicate NewAt(g: Graph, x: Site, first: Id, h: Graph) {
    && first in h.defs && first + 1 in h.defs && first + 2 in h.defs && x.c.attention in h.defs
    && h.defs[first] == EmptyNode(x.c.qHead, At(g, x.c.qHead).meta)
    && h.defs[first + 1] == EmptyNode(x.c.kHead, At(g, x.c.kHead).meta)
    && h.defs[first + 2] == FusedNode(x.c, first, first + 1, At(g, x.c.kvUpdate).meta)
    && h.defs[x.c.attention] == Redirected(g, x, first)
  }

  /** What the graph `g` has become after the first `k` rewrites. */
  ghost predicate Applied(g: Graph, xs: seq<Site>, k: nat, h: Graph)
    requires k <= |xs|
  {
    && h.next == FirstId(g, k)
    && h.order == Spliced(g.order, Reps(g, xs, k))
    && (forall n | n in g.defs && n !in Gone(g, xs, k) :: n in h.defs)
    && (forall n | n in h.defs :: (n in g.defs && n !in Gone(g, xs, k)) || g.next <= n < FirstId(g, k))
    && (forall i | 0 <= i < k :: NewAt(g, xs[i], FirstId(g, i), h))
    && (forall n | n in g.defs && n !in Gone(g, xs, k) && n !in Attended(xs, k) :: h.defs[n] == g.defs[n])
  }

  /** A set of sites that can be rewritten together. */
  ghost predicate Applicable(g: Graph, xs: seq<Site>) {
    && (forall i | 0 <= i < |xs| :: Usable(g, xs[i]))
    && (forall i, j | 0 <= i < j < |xs| ::
          xs[i].c.kvUpdate != xs[j].c.kvUpdate && xs[i].c.rope != xs[j].c.rope && xs[i].c.attention != xs[j].c.attention)
  }

  /** The RoPE node or the attention tells the site. */
  lemma SharedParts(g: Graph, x: Site, y: Site)
    requires Wired(g, x) && Wired(g, y)
    ensures x.c.attention == y.c.attention ==> x.c.kvUpdate == y.c.kvUpdate
    ensures x.c.rope == y.c.rope ==> x.c.kvUpdate == y.c.kvUpdate
  {
    hide GoodHead, SplitItem, SplitSizes, Heads, HasTail, IsNorm, HasShape, IsBf16;
    if x.c.rope == y.c.rope {
      assert x.q.flat == y.q.flat;
      assert x.q.arg in {y.q.arg, y.c.rope};
      assert At(g, x.q.arg).target.View?;
      assert x.c.attention in g.Users(y.q.arg);
    }
  }

  lemma UsersWithin(g: Graph, x: Site, t: Id, m: Id)
    requires Usable(g, x) && m in g.defs && Own(x, t) && Uses(g.defs[m], t)
    ensures Own(x, m) || m == x.c.attention
  {
    AsWired(g, x, m);
    hide Usable, Uses;
  }

  predicate Around(x: Site, n: Id) {
    Own(x, n) || n == x.c.attention
  }

  ghost predicate Foreign(g: Graph, x: Site, y: Site) {
    Usable(g, x) && Usable(g, y)
    && x.c.kvUpdate != y.c.kvUpdate && x.c.rope != y.c.rope && x.c.attention != y.c.attention
  }

  lemma UsableTargets(g: Graph, x: Site)
    requires Usable(g, x)
    ensures Targets(g, x)
  {
  }

  lemma ArgsApart(g: Graph, x: Site, y: Site, t: Id)
    requires Foreign(g, x, y) && (t == x.q.arg || t == x.k.arg)
    ensures t !in {y.q.arg, y.k.arg, y.q.flat, y.k.flat}
  {
    hide Uses, Usable;
    UsableTargets(g, x);
    UsableTargets(g, y);
    AsWired(g, x, x.c.attention);
    AsWired(g, y, x.c.attention);
  }

  lemma FlatsApart(g: Graph, x: Site, y: Site, t: Id)
    requires Foreign(g, x, y) && (t == x.q.flat || t == x.k.flat)
    ensures t !in {y.q.arg, y.k.arg, y.q.flat, y.k.flat}
  {
    hide Uses, Usable;
    UsableTargets(g, x);
    UsableTargets(g, y);
    ArgsApart(g, x, y, x.q.arg);
    ArgsApart(g, x, y, x.k.arg);
    AsWired(g, x, x.q.arg);
    AsWired(g, y, x.q.arg);
    AsWired(g, x, x.k.arg);
    AsWired(g, y, x.k.arg);
  }

  lemma NormsApart(g: Graph, x: Site, y: Site, t: Id)
    requires Foreign(g, x, y) && (t == x.q.norm || t == x.k.norm)
    ensures t !in {y.q.norm, y.k.norm}
  {
    hide Uses, Usable;
    UsableTargets(g, x);
    UsableTargets(g, y);
    FlatsApart(g, x, y, x.q.flat);
    FlatsApart(g, x, y, x.k.flat);
    AsWired(g, x, x.q.flat);
    AsWired(g, y, x.q.flat);
    AsWired(g, x, x.k.flat);
    AsWired(g, y, x.k.flat);
  }

  /** Two sites have no node in common. */
  lemma SitesApart(g: Graph, x: Site, y: Site, n: Id)
    requires Foreign(g, x, y)
    ensures !(Around(x, n) && Around(y, n))
  {
    hide Uses, Usable, UsedAsWired;
    UsableTargets(g, x);
    UsableTargets(g, y);
    if n == x.q.arg || n == x.k.arg { ArgsApart(g, x, y, n); }
    if n == x.q.flat || n == x.k.flat { FlatsApart(g, x, y, n); }
    if n == x.q.norm || n == x.k.norm { NormsApart(g, x, y, n); }
  }

  lemma SitesForeign(g: Graph, xs: seq<Site>, i: nat, k: nat)
    requires Applicable(g, xs) && i < |xs| && k < |xs| && i != k
    ensures Foreign(g, xs[i], xs[k])
  {
    hide Usable;
  }

  lemma {:induction false} GoneIs(g: Graph, xs: seq<Site>, k: nat, n: Id) returns (i: nat)
    requires k <= |xs| && n in Gone(g, xs, k)
    ensures i < k && n in Dead(g, xs[i])
  {
    hide Dead;
    i := k - 1;
    if n !in Dead(g, xs[i]) { i := GoneIs(g, xs, k - 1, n); }
  }

  lemma {:induction false} IsGone(g: Graph, xs: seq<Site>, k: nat, i: nat, n: Id)
    requires i < k <= |xs|
    ensures n in Dead(g, xs[i]) ==> n in Gone(g, xs, k)
    ensures xs[i].c.attention in Attended(xs, k)
  {
    hide Dead;
    if i < k - 1 { IsGone(g, xs, k - 1, i, n); }
  }

  lemma {:induction false} AttendedIs(xs: seq<Site>, k: nat, n: Id) returns (i: nat)
    requires k <= |xs| && n in Attended(xs, k)
    ensures i < k && n == xs[i].c.attention
  {
    i := k - 1;
    if n != xs[i].c.attention { i := AttendedIs(xs, k - 1, n); }
  }

  /** The rewrites of other sites leave a site's nodes alone. */
  lemma NotYetGone(g: Graph, xs: seq<Site>, k: nat, n: Id)
    requires g.Valid() && k < |xs| && Applicable(g, xs) && Around(xs[k], n)
    ensures n !in Gone(g, xs, k) && n !in Attended(xs, k)
    ensures n in Gone(g, xs, |xs|) ==> n in Dead(g, xs[k])
    ensures n in g.defs && n < g.next
  {
    hide Dead, Usable, Graph.Valid;
    SiteBasics(g, xs, k, n);
    if n in Gone(g, xs, k) {
      var i := GoneIs(g, xs, k, n);
      DeadApart(g, xs, i, k, n);
    }
    if n in Attended(xs, k) {
      var i := AttendedIs(xs, k, n);
      SitesForeign(g, xs, i, k);
      SitesApart(g, xs[i], xs[k], n);
    }
    if n in Gone(g, xs, |xs|) {
      var i := GoneIs(g, xs, |xs|, n);
      if i != k { DeadApart(g, xs, i, k, n); }
    }
  }

  lemma SiteBasics(g: Graph, xs: seq<Site>, k: nat, n: Id)
    requires g.Valid() && k < |xs| && Applicable(g, xs) && Around(xs[k], n)
    ensures n in g.defs && n < g.next
  {
    hide Usable;
    NewIds(g, xs[k]);
  }

  lemma DeadApart(g: Graph, xs: seq<Site>, i: nat, k: nat, n: Id)
    requires Applicable(g, xs) && i < |xs| && k < |xs| && i != k
    ensures !(n in Dead(g, xs[i]) && Around(xs[k], n))
  {
    hide Dead, Usable;
    OldDead(g, xs[i]);
    SitesForeign(g, xs, i, k);
    SitesApart(g, xs[i], xs[k], n);
  }

  lemma {:induction false} RepsAre(g: Graph, xs: seq<Site>, k: nat, y: Id, n: Id)
    requires k <= |xs|
    ensures y in Gone(g, xs, k) || RepOf(Reps(g, xs, k), y) == [y]
    ensures n in RepOf(Reps(g, xs, k), y) ==> n == y || n >= g.next
  {
    hide Dead;
    if k > 0 {
      RepsAre(g, xs, k - 1, y, n);
      var (x, first) := (xs[k - 1], FirstId(g, k - 1));
      assert RepOf(Reps(g, xs, k), y) ==
             if y !in Dead(g, x) then RepOf(Reps(g, xs, k - 1), y)
             else if y == x.c.kvUpdate then [first, first + 1, first + 2] else [];
    }
  }

  lemma RepsOwn(g: Graph, xs: seq<Site>, k: nat, y: Id)
    requires g.Valid() && k <= |xs| && y in g.defs && y !in Gone(g, xs, k)
    ensures OnlyOwn(g.order, Reps(g, xs, k), y) && RepOf(Reps(g, xs, k), y) == [y]
  {
    RepsAre(g, xs, k, y, y);
    forall z | z in Elems(g.order) && z != y
      ensures y !in RepOf(Reps(g, xs, k), z)
    {
      RepsAre(g, xs, k, z, y);
    }
  }

  // ----- a later site is untouched -----

  lemma FusedArgUsed(g: Graph, x: Site, t: Id) returns (m: Id)
    requires Usable(g, x) && FusedArg(x.c, t)
    ensures Own(x, m) && m in g.defs && Uses(g.defs[m], t)
  {
    hide Uses, Leads, UsedAsWired;
    if Uses(g.defs[x.q.norm], t) { m := x.q.norm; }
    else if Uses(g.defs[x.k.norm], t) { m := x.k.norm; }
    else if Uses(g.defs[x.c.rope], t) { m := x.c.rope; }
    else { m := x.c.kvUpdate; }
  }

  /** A fused call uses no node of another site. */
  lemma FusedForeign(g: Graph, xs: seq<Site>, i: nat, k: nat, t: Id)
    requires Applicable(g, xs) && i < |xs| && k < |xs| && i != k && Own(xs[k], t)
    ensures !FusedArg(xs[i].c, t)
  {
    hide Usable, Uses, FusedArg;
    if FusedArg(xs[i].c, t) {
      var m := FusedArgUsed(g, xs[i], t);
      UsersWithin(g, xs[k], t, m);
      SitesForeign(g, xs, i, k);
      SitesApart(g, xs[i], xs[k], m);
    }
  }

  lemma AttentionForeign(g: Graph, xs: seq<Site>, i: nat, k: nat, t: Id)
    requires g.Valid() && Applicable(g, xs) && i < |xs| && k < |xs| && i != k && Own(xs[k], t)
    ensures !Uses(At(g, xs[i].c.attention), t)
  {
    hide Usable, Uses, Graph.Valid;
    var m := xs[i].c.attention;
    SiteBasics(g, xs, i, m);
    if Uses(g.defs[m], t) {
      UsersWithin(g, xs[k], t, m);
      SitesForeign(g, xs, i, k);
      SitesApart(g, xs[i], xs[k], m);
    }
  }

  lemma NewNodeUses(g: Graph, x: Site, first: Id, h: Graph, m: Id, t: Id)
    requires NewAt(g, x, first, h) && first <= m < first + 3 && t < first
    ensures Uses(h.defs[m], t) ==> FusedArg(x.c, t)
  {
    hide Uses, FusedNode, EmptyNode, Redirected;
    EmptyRefs(x.c.qHead, At(g, x.c.qHead).meta, t);
    EmptyRefs(x.c.kHead, At(g, x.c.kHead).meta, t);
    FusedRefs(x.c, first, first + 1, At(g, x.c.kvUpdate).meta, t);
  }

  lemma RedirectedOld(g: Graph, x: Site, first: Id, t: Id)
    requires t < first && Uses(Redirected(g, x, first), t)
    ensures Uses(At(g, x.c.attention), t)
  {
    hide Uses, Rename, Replaced;
    var att := At(g, x.c.attention);
    var node := Replaced(att, NodeArg(first), NodeArg(first + 1));
    RenamedOnly(node, x.c.kvUpdate, first + 2, t);
    ReplacedRefs(att, NodeArg(first), NodeArg(first + 1), t);
  }

  lemma RenamedOnly(node: Node, a: Id, b: Id, t: Id)
    requires t != b && Uses(Rename(node, map[a := b]), t)
    ensures Uses(node, t)
  {
    RenameRefs(node, map[a := b]);
  }

  function SiteAt(g: Graph, m: Id): int {
    (m - g.next) / 3
  }

  lemma IdOfSite(g: Graph, m: Id, k: nat) returns (i: nat)
    requires g.next <= m < FirstId(g, k)
    ensures i < k && FirstId(g, i) <= m < FirstId(g, i) + 3
  {
    i := SiteAt(g, m);
  }

  lemma OldIds(g: Graph, m: Id)
    requires g.Valid() && m in g.defs
    ensures m < g.next
  {
  }

  /** No rewrite gives a node of a later site a user. */
  lemma NoNewUser(g: Graph, xs: seq<Site>, k: nat, h: Graph, m: Id, t: Id)
    requires g.Valid() && k < |xs| && Applicable(g, xs) && Applied(g, xs, k, h) && m in h.defs
    requires Own(xs[k], t) && Uses(h.defs[m], t)
    ensures m in g.defs && Uses(g.defs[m], t)
  {
    hide Usable, Uses, Graph.Valid, Applicable, Own, FusedArg, Redirected, Reps, Spliced;
    SiteBasics(g, xs, k, t);
    if m in Attended(xs, k) {
      var i := AttendedIs(xs, k, m);
      assert NewAt(g, xs[i], FirstId(g, i), h);
      RedirectedOld(g, xs[i], FirstId(g, i), t);
      AttentionForeign(g, xs, i, k, t);
    } else if m in g.defs {
      OldIds(g, m);
    } else {
      var i := IdOfSite(g, m, k);
      assert NewAt(g, xs[i], FirstId(g, i), h);
      NewNodeUses(g, xs[i], FirstId(g, i), h, m, t);
      FusedForeign(g, xs, i, k, t);
    }
  }

  lemma KeptDef(g: Graph, xs: seq<Site>, k: nat, h: Graph, n: Id)
    requires g.Valid() && k < |xs| && Applicable(g, xs) && Applied(g, xs, k, h) && Around(xs[k], n)
    ensures n in h.defs && n in g.defs && h.defs[n] == g.defs[n]
  {
    hide Usable, Uses, Graph.Valid, Applicable, Around, Reps, Spliced, NewAt;
    NotYetGone(g, xs, k, n);
    SiteBasics(g, xs, k, n);
  }

  /** Rewriting some sites leaves every other one as it was. */
  lemma StillWired(g: Graph, xs: seq<Site>, k: nat, h: Graph, m: Id)
    requires g.Valid() && k < |xs| && Applicable(g, xs) && Applied(g, xs, k, h) && m in h.defs
    ensures UsedAsWired(h, xs[k], m)
  {
    hide Usable, Uses, Graph.Valid, Applied, Applicable;
    var x := xs[k];
    forall t | Own(x, t) && Uses(h.defs[m], t)
      ensures m in g.defs && Uses(g.defs[m], t)
    {
      NoNewUser(g, xs, k, h, m, t);
    }
    if Around(x, m) { KeptDef(g, xs, k, h, m); }
    if m in g.defs { WiredAt(g, xs, k, m); }
  }

  lemma WiredAt(g: Graph, xs: seq<Site>, k: nat, m: Id)
    requires k < |xs| && Applicable(g, xs) && m in g.defs
    ensures UsedAsWired(g, xs[k], m)
  {
    hide Usable, UsedAsWired;
    AsWired(g, xs[k], m);
  }

  lemma StillUsable(g: Graph, xs: seq<Site>, k: nat, h: Graph)
    requires g.Valid() && k < |xs| && Applicable(g, xs) && Applied(g, xs, k, h)
    ensures Usable(h, xs[k])
    ensures At(h, xs[k].c.attention) == At(g, xs[k].c.attention) && At(h, xs[k].c.kvUpdate) == At(g, xs[k].c.kvUpdate)
  {
    hide Uses, Graph.Valid, Applied, Refs, UsedAsWired;
    var x := xs[k];
    forall n | Around(x, n)
      ensures n in h.defs && n in g.defs && h.defs[n] == g.defs[n]
    {
      KeptDef(g, xs, k, h, n);
    }
    forall m | m in h.defs { StillWired(g, xs, k, h, m); }
    assert Usable(g, x);
    hide Applicable;
    assert Around(x, x.c.attention) && Around(x, x.c.kvUpdate) && Around(x, x.c.rope);
    assert Around(x, x.q.arg) && Around(x, x.k.arg) && Around(x, x.q.flat) && Around(x, x.k.flat);
    assert Around(x, x.q.norm) && Around(x, x.k.norm);
  }

  // ----- one more rewrite -----

  lemma DeadSame(g: Graph, h: Graph, x: Site)
    requires At(h, x.c.attention) == At(g, x.c.attention)
    ensures Dead(h, x) == Dead(g, x) && Redirected(h, x, h.next) == Redirected(g, x, h.next)
  {
  }

  lemma StepOrder(g: Graph, xs: seq<Site>, k: nat, h: Graph)
    requires g.Valid() && h.Valid() && k < |xs| && Applicable(g, xs) && Applied(g, xs, k, h) && Usable(h, xs[k])
    requires At(h, xs[k].c.attention) == At(g, xs[k].c.attention)
    ensures Step(h, xs[k]).order == Spliced(g.order, Reps(g, xs, k + 1))
  {
    hide Usable, Graph.Valid, Applicable, Reps, Rewired, Step, OnlyOwn, NoDup, Elems, Spliced, Without, NewAt, Erasable, Dead;
    var x := xs[k];
    StepErases(h, x);
    RewiredOrder(h, x);
    NotYetGone(g, xs, k, x.c.kvUpdate);
    RepsOwn(g, xs, k, x.c.kvUpdate);
    OrderFacts(g, x.c.kvUpdate);
    var first := FirstId(g, k);
    SpliceThree(g.order, Reps(g, xs, k), x.c.kvUpdate, first, first + 1, first + 2);
    var three := Reps(g, xs, k)[x.c.kvUpdate := [first, first + 1, first + 2, x.c.kvUpdate]];
    forall y | y in Elems(g.order)
      ensures RepOf(Reps(g, xs, k + 1), y) == Without(RepOf(three, y), Erasable(h, x))
    {
      OrderIn(g, y);
      NextRep(g, xs, k, h, y);
    }
    SpliceWithout(g.order, three, Erasable(h, x), Reps(g, xs, k + 1));
  }

  lemma OrderFacts(g: Graph, n: Id)
    requires g.Valid() && n in g.defs
    ensures NoDup(g.order) && n in Elems(g.order)
  {
  }

  lemma OrderIn(g: Graph, n: Id)
    requires g.Valid() && n in Elems(g.order)
    ensures n in g.defs
  {
  }

  lemma RewiredOrder(h: Graph, x: Site)
    ensures Rewired(h, x).order ==
            InsertedBefore(InsertedBefore(InsertedBefore(h.order, x.c.kvUpdate, h.next), x.c.kvUpdate, h.next + 1),
                           x.c.kvUpdate, h.next + 2)
  {
  }

  /** The list of each original node after one more rewrite. */
  lemma NextRep(g: Graph, xs: seq<Site>, k: nat, h: Graph, y: Id)
    requires g.Valid() && k < |xs| && Applicable(g, xs) && y in g.defs
    requires At(h, xs[k].c.attention) == At(g, xs[k].c.attention)
    ensures var x := xs[k];
            var first := FirstId(g, k);
            RepOf(Reps(g, xs, k + 1), y) ==
            Without(RepOf(Reps(g, xs, k)[x.c.kvUpdate := [first, first + 1, first + 2, x.c.kvUpdate]], y), Erasable(h, x))
  {
    hide Usable, Graph.Valid, Applicable, Erasable, Dead, Without;
    var (x, first) := (xs[k], FirstId(g, k));
    DeadSame(g, h, x);
    ErasableIs(h, x, y);
    if y == x.c.kvUpdate {
      SiteBasics(g, xs, k, y);
      KvDead(g, x);
      NewNotErased(g, xs, k, h);
      WithoutLast(first, first + 1, first + 2, y, Erasable(h, x));
    } else if y in Dead(g, x) {
      OldDead(g, x);
      NotYetGone(g, xs, k, y);
      RepsAre(g, xs, k, y, y);
      DropOne(y, Erasable(h, x));
    } else {
      KeepsList(g, xs, k, h, y);
    }
  }

  lemma KvDead(g: Graph, x: Site)
    ensures x.c.kvUpdate in Dead(g, x) && x.c.rope in Dead(g, x)
  {
  }

  /** What is erased is old. */
  lemma ErasedOld(g: Graph, xs: seq<Site>, k: nat, h: Graph, n: Id)
    requires g.Valid() && k < |xs| && Applicable(g, xs) && n in Erasable(h, xs[k])
    ensures n < g.next && Around(xs[k], n)
  {
    hide Usable, Graph.Valid, Applicable, Dead, Erasable;
    ErasableIs(h, xs[k], n);
    OldDead(h, xs[k]);
    SiteBasics(g, xs, k, n);
  }

  lemma NewNotErased(g: Graph, xs: seq<Site>, k: nat, h: Graph)
    requires g.Valid() && k < |xs| && Applicable(g, xs)
    ensures forall n | n >= g.next :: n !in Erasable(h, xs[k])
  {
    hide Usable, Graph.Valid, Applicable, Dead, Erasable;
    forall n | n in Erasable(h, xs[k]) { ErasedOld(g, xs, k, h, n); }
  }

  lemma WithoutLast(a: Id, b: Id, c: Id, d: Id, ns: set<Id>)
    requires a !in ns && b !in ns && c !in ns && d in ns
    ensures Without([a, b, c, d], ns) == [a, b, c]
  {
    assert [a, b, c, d] == [a, b, c] + [d];
    WithoutBoth([a, b, c], [d], ns);
    WithoutNone([a, b, c], ns);
    DropOne(d, ns);
    assert [a, b, c] + [] == [a, b, c];
  }

  lemma DropOne(y: Id, ns: set<Id>)
    requires y in ns
    ensures Without([y], ns) == []
  {
    assert [y][1..] == [];
  }

  lemma {:induction false} WithoutNone(l: seq<Id>, ns: set<Id>)
    requires forall n | n in l :: n !in ns
    ensures Without(l, ns) == l
  {
    if l != [] {
      var (n, rest) := (l[0], l[1..]);
      assert n in l && n !in ns;
      WithoutNone(rest, ns);
      assert Without(l, ns) == [n] + Without(rest, ns);
    }
  }

  /** A node that this rewrite does not erase keeps its list. */
  lemma KeepsList(g: Graph, xs: seq<Site>, k: nat, h: Graph, y: Id)
    requires g.Valid() && k < |xs| && Applicable(g, xs) && y in g.defs && y !in Erasable(h, xs[k])
    ensures Without(RepOf(Reps(g, xs, k), y), Erasable(h, xs[k])) == RepOf(Reps(g, xs, k), y)
  {
    hide Usable, Graph.Valid, Applicable, Dead, Erasable, Reps;
    var l := RepOf(Reps(g, xs, k), y);
    forall n | n in l
      ensures n !in Erasable(h, xs[k])
    {
      RepsAre(g, xs, k, y, n);
      if n in Erasable(h, xs[k]) { ErasedOld(g, xs, k, h, n); }
    }
    WithoutNone(l, Erasable(h, xs[k]));
  }

  lemma AfterStep(g: Graph, xs: seq<Site>, k: nat, h: Graph, h': Graph)
    requires g.Valid() && k < |xs| && Applicable(g, xs) && Applied(g, xs, k, h) && Stepped(h, xs[k], h')
    requires At(h, xs[k].c.attention) == At(g, xs[k].c.attention) && At(h, xs[k].c.kvUpdate) == At(g, xs[k].c.kvUpdate)
    requires At(h, xs[k].c.qHead).meta == At(g, xs[k].c.qHead).meta && At(h, xs[k].c.kHead).meta == At(g, xs[k].c.kHead).meta
    requires h'.order == Spliced(g.order, Reps(g, xs, k + 1))
    ensures Applied(g, xs, k + 1, h')
  {
    hide Usable, Graph.Valid, Applicable, Spliced, Reps, Dead, FusedNode, EmptyNode, Redirected;
    DeadSame(g, h, xs[k]);
    SiteBasics(g, xs, k, xs[k].c.attention);
    forall i | 0 <= i < k + 1
      ensures NewAt(g, xs[i], FirstId(g, i), h')
    {
      if i < k { KeepsNew(g, xs, k, h, h', i); }
    }
    forall n | n in g.defs { OldIds(g, n); }
    forall n | n in Dead(h, xs[k]) { DeadOld(g, xs, k, h, n); }
  }

  lemma DeadOld(g: Graph, xs: seq<Site>, k: nat, h: Graph, n: Id)
    requires g.Valid() && k < |xs| && Applicable(g, xs) && n in Dead(h, xs[k])
    ensures n < g.next
  {
    hide Usable, Graph.Valid, Applicable, Dead;
    OldDead(h, xs[k]);
    SiteBasics(g, xs, k, n);
  }

  lemma KeepsNew(g: Graph, xs: seq<Site>, k: nat, h: Graph, h': Graph, i: nat)
    requires g.Valid() && i < k < |xs| && Applicable(g, xs) && Applied(g, xs, k, h) && Stepped(h, xs[k], h')
    ensures NewAt(g, xs[i], FirstId(g, i), h')
  {
    hide Usable, Graph.Valid, Applicable, Spliced, Reps, Dead, FusedNode, EmptyNode, Redirected, Gone;
    assert NewAt(g, xs[i], FirstId(g, i), h);
    SiteBasics(g, xs, k, xs[k].c.attention);
    forall n | n in Dead(h, xs[k]) { DeadOld(g, xs, k, h, n); }
    OthersLive(g, xs, k, h, i);
  }

  lemma OthersLive(g: Graph, xs: seq<Site>, k: nat, h: Graph, i: nat)
    requires g.Valid() && i < k < |xs| && Applicable(g, xs)
    ensures xs[i].c.attention !in Dead(h, xs[k]) && xs[i].c.attention != xs[k].c.attention
  {
    hide Usable, Graph.Valid, Dead;
    var n := xs[i].c.attention;
    OldDead(h, xs[k]);
    SitesForeign(g, xs, i, k);
    SitesApart(g, xs[i], xs[k], n);
  }

  lemma HeadMeta(g: Graph, xs: seq<Site>, k: nat, h: Graph, n: Id)
    requires g.Valid() && k < |xs| && Applicable(g, xs) && Applied(g, xs, k, h)
    requires n == xs[k].c.qHead || n == xs[k].c.kHead
    ensures At(h, n).meta == At(g, n).meta
  {
    hide Usable, Graph.Valid, Applicable, Spliced, Reps, Dead, FusedNode, EmptyNode, Redirected;
    HeadLives(g, xs, k, n);
    if n in Attended(xs, k) {
      var i := AttendedIs(xs, k, n);
      assert NewAt(g, xs[i], FirstId(g, i), h);
      RedirectedMeta(g, xs[i], FirstId(g, i));
    }
  }

  lemma RedirectedMeta(g: Graph, x: Site, first: Id)
    ensures Redirected(g, x, first).meta == At(g, x.c.attention).meta
    ensures Redirected(g, x, first).target == At(g, x.c.attention).target
  {
  }

  lemma HeadLives(g: Graph, xs: seq<Site>, k: nat, n: Id)
    requires g.Valid() && k < |xs| && Applicable(g, xs) && (n == xs[k].c.qHead || n == xs[k].c.kHead)
    ensures n in g.defs && n !in Gone(g, xs, k)
  {
    hide Usable, Dead, Uses, Graph.Valid;
    HeadDefined(g, xs, k, n);
    if n in Gone(g, xs, k) {
      var i := GoneIs(g, xs, k, n);
      OldDead(g, xs[i]);
      FusedForeign(g, xs, k, i, n);
    }
  }

  lemma HeadDefined(g: Graph, xs: seq<Site>, k: nat, n: Id)
    requires g.Valid() && k < |xs| && Applicable(g, xs) && (n == xs[k].c.qHead || n == xs[k].c.kHead)
    ensures n in g.defs
  {
    assert Usable(g, xs[k]);
    hide UsedAsWired, Leads;
    ArgDefined(g, xs[k], n);
  }

  lemma StepApplied(g: Graph, xs: seq<Site>, k: nat, h: Graph)
    requires g.Valid() && h.Valid() && k < |xs| && Applicable(g, xs) && Applied(g, xs, k, h)
    ensures Usable(h, xs[k]) && Applied(g, xs, k + 1, Step(h, xs[k]))
  {
    hide Usable, Graph.Valid, Applicable, Applied, Step, Stepped;
    StillUsable(g, xs, k, h);
    StepOrder(g, xs, k, h);
    StepDefs(h, xs[k]);
    HeadMeta(g, xs, k, h, xs[k].c.qHead);
    HeadMeta(g, xs, k, h, xs[k].c.kHead);
    AfterStep(g, xs, k, h, Step(h, xs[k]));
  }

  // ----- the method -----

  function BaseOf(g: Graph, n: Option<Id>): Option<Id> {
    if n.Some? then ViewBase(At(g, n.value)) else None
  }

  lemma EmptyLegal(h: Graph, head: Id, meta: Option<TensorMeta>)
    requires head in h.defs
    ensures Refs(EmptyNode(head, meta)) <= h.defs.Keys
  {
    forall m | m in Refs(EmptyNode(head, meta))
      ensures m in h.defs
    {
      EmptyRefs(head, meta, m);
    }
  }

  lemma FusedLegal(h: Graph, c: Candidate, qOut: Id, kOut: Id, meta: Option<TensorMeta>)
    requires qOut in h.defs && kOut in h.defs && forall n | FusedArg(c, n) :: n in h.defs
    ensures Refs(FusedNode(c, qOut, kOut, meta)) <= h.defs.Keys
  {
    forall m | m in Refs(FusedNode(c, qOut, kOut, meta))
      ensures m in h.defs
    {
      FusedRefs(c, qOut, kOut, meta, m);
      UsesIs(FusedNode(c, qOut, kOut, meta), m);
    }
  }

  lemma UsesIs(node: Node, m: Id)
    ensures Uses(node, m) <==> m in Refs(node)
  {
  }

  lemma ReplaceLegal(h: Graph, n: Id, i: nat, name: string, v: Id)
    requires h.Valid() && n in h.defs && v in h.defs
    ensures Refs(ReplaceArg(h.defs[n], i, name, NodeArg(v))) <= h.defs.Keys
  {
    forall m | m in Refs(ReplaceArg(h.defs[n], i, name, NodeArg(v)))
      ensures m in h.defs
    {
      ReplaceRefs(h.defs[n], i, name, NodeArg(v), m);
      UseDefined(h, n, m);
    }
  }

  lemma FusedArgsDefined(h: Graph, x: Site)
    requires h.Valid() && Usable(h, x)
    ensures forall n | FusedArg(x.c, n) :: n in h.defs
    ensures FusedArg(x.c, x.c.qHead) && FusedArg(x.c, x.c.kHead)
  {
    hide UsedAsWired, Leads, FusedArg;
    forall n | FusedArg(x.c, n) { ArgDefined(h, x, n); }
    IsFusedArg(x);
  }

  lemma IsFusedArg(x: Site)
    ensures FusedArg(x.c, x.c.qHead) && FusedArg(x.c, x.c.kHead)
  {
  }

  /** The KV update and RoPE are unused when they are erased. */
  lemma EraseLegal(h: Graph, x: Site)
    requires h.Valid() && Usable(h, x)
    ensures var r := Rewired(h, x);
            x.c.kvUpdate in r.defs && r.Users(x.c.kvUpdate) == {}
            && x.c.rope in r.Erased({x.c.kvUpdate}).defs && r.Erased({x.c.kvUpdate}).Users(x.c.rope) == {}
  {
    var r := Rewired(h, x);
    RewiredDefs(h, x);
    NewIds(h, x);
    assert Own(x, x.c.kvUpdate) && Own(x, x.c.rope);
    UsableTargets(h, x);
    hide Usable, Graph.Valid, Rewired, Uses, Refs, Redirected, FusedNode, EmptyNode;
    forall m | m in r.defs
      ensures !Uses(r.defs[m], x.c.kvUpdate) && !Uses(r.defs[m], x.c.rope)
    {
      StillUsed(h, x, r, m);
      KvUnused(h, x, r, m);
    }
    NoUsers(r, x.c.kvUpdate);
    var r' := r.Erased({x.c.kvUpdate});
    NoUsers(r', x.c.rope);
  }

  lemma NoUsers(r: Graph, n: Id)
    requires forall m | m in r.defs :: !Uses(r.defs[m], n)
    ensures r.Users(n) == {}
  {
    forall m
      ensures m !in r.Users(n)
    {
      UsersAre(r, n, m);
    }
    assert r.Users(n) == {};
  }

  lemma KvUnused(h: Graph, x: Site, r: Graph, m: Id)
    requires h.Valid() && Usable(h, x) && IsRewired(h, x, r) && m in r.defs
    ensures !Uses(r.defs[m], x.c.kvUpdate)
  {
    hide Usable, Graph.Valid, Uses, Refs, FusedNode, EmptyNode, Redirected, FusedArg;
    NewIds(h, x);
    NotFusedArg(h, x);
    var kv := x.c.kvUpdate;
    assert Own(x, kv);
    IsFusedArg(x);
    if m == x.c.attention {
      RenamedAway(Replaced(At(h, m), NodeArg(h.next), NodeArg(h.next + 1)), kv, h.next + 2);
      RedirectedIs(h, x);
    } else if m in h.defs {
      AsWired(h, x, m);
    } else {
      EmptyRefs(x.c.qHead, At(h, x.c.qHead).meta, kv);
      EmptyRefs(x.c.kHead, At(h, x.c.kHead).meta, kv);
      FusedRefs(x.c, h.next, h.next + 1, At(h, kv).meta, kv);
    }
  }

  lemma RedirectedIs(h: Graph, x: Site)
    ensures Redirected(h, x, h.next) ==
            Rename(Replaced(At(h, x.c.attention), NodeArg(h.next), NodeArg(h.next + 1)), map[x.c.kvUpdate := h.next + 2])
  {
  }

  lemma RenamedAway(node: Node, a: Id, b: Id)
    requires a != b
    ensures !Uses(Rename(node, map[a := b]), a)
  {
    RenameRefs(node, map[a := b]);
  }

  method EraseUnused(graph: FxGraph, ns: seq<Option<Id>>)
    requires graph.g.Valid()
    modifies graph
    ensures graph.g.Valid() && graph.g == ErasedInTurn(old(graph.g), ns)
  {
    hide Graph.Valid;
    ghost var h := graph.g;
    assert ns[..0] == [];
    for i := 0 to |ns|
      invariant graph.g.Valid() && graph.g == ErasedInTurn(h, ns[..i])
    {
      assert ns[..i + 1][..i] == ns[..i];
      if ns[i].Some? && ns[i].value in graph.g.defs && graph.g.Users(ns[i].value) == {} {
        graph.Erase(ns[i].value);
      }
    }
    assert ns[..|ns|] == ns;
  }

  method Insert3(graph: FxGraph, c: Candidate, ghost x: Site) returns (qOut: Id, kOut: Id, fused: Id)
    requires graph.g.Valid() && Usable(graph.g, x) && x.c == c
    modifies graph
    ensures graph.g.Valid() && graph.g == Made(old(graph.g), x)
    ensures qOut == old(graph.g).next && kOut == qOut + 1 && fused == qOut + 2
  {
    hide Graph.Valid, Usable, FusedNode, EmptyNode, FusedArg, Refs, InsertedBefore;
    ghost var h := graph.g;
    FusedArgsDefined(h, x);
    NewIds(h, x);
    assert Own(x, c.kvUpdate);
    EmptyLegal(graph.g, c.qHead, At(graph.g, c.qHead).meta);
    qOut := graph.InsertBefore(c.kvUpdate, EmptyNode(c.qHead, At(graph.g, c.qHead).meta));
    assert At(graph.g, c.kHead) == At(h, c.kHead) && At(graph.g, c.kvUpdate) == At(h, c.kvUpdate);
    EmptyLegal(graph.g, c.kHead, At(graph.g, c.kHead).meta);
    kOut := graph.InsertBefore(c.kvUpdate, EmptyNode(c.kHead, At(graph.g, c.kHead).meta));
    assert At(graph.g, c.kvUpdate) == At(h, c.kvUpdate);
    FusedLegal(graph.g, c, qOut, kOut, At(graph.g, c.kvUpdate).meta);
    fused := graph.InsertBefore(c.kvUpdate, FusedNode(c, qOut, kOut, At(graph.g, c.kvUpdate).meta));
  }

  method Redirect(graph: FxGraph, attention: Id, qOut: Id, kOut: Id)
    requires graph.g.Valid() && attention in graph.g.defs && qOut in graph.g.defs && kOut in graph.g.defs
    modifies graph
    ensures var was := old(graph.g);
            graph.g == was.(defs := was.defs[attention := Replaced(was.defs[attention], NodeArg(qOut), NodeArg(kOut))])
    ensures graph.g.Valid()
  {
    hide Graph.Valid, ReplaceArg, Refs;
    ghost var was := graph.g;
    ReplaceLegal(graph.g, attention, 0, "query", qOut);
    graph.SetNode(attention, ReplaceArg(graph.g.defs[attention], 0, "query", NodeArg(qOut)));
    ReplaceLegal(graph.g, attention, 1, "key", kOut);
    graph.SetNode(attention, ReplaceArg(graph.g.defs[attention], 1, "key", NodeArg(kOut)));
    assert graph.g.defs == was.defs[attention := graph.g.defs[attention]];
  }

  method ApplyOne(graph: FxGraph, c: Candidate, ghost x: Site)
    requires graph.g.Valid() && Usable(graph.g, x) && x.c == c
    modifies graph
    ensures graph.g.Valid() && graph.g == Step(old(graph.g), x)
  {
    hide Graph.Valid, Usable, Made, Replaced, ErasedInTurn, Refs, Graph.Erased, Graph.Renamed;
    ghost var h := graph.g;
    var attention := At(graph.g, c.attention);
    var (query, key) := (NodeOf(ArgOf(attention, 0, "query")), NodeOf(ArgOf(attention, 1, "key")));
    var (qFlat, kFlat) := (BaseOf(graph.g, query), BaseOf(graph.g, key));
    var (qNorm, kNorm) := (BaseOf(graph.g, qFlat), BaseOf(graph.g, kFlat));
    var old6 := [query, key, qFlat, kFlat, qNorm, kNorm];
    ChainsFound(h, x, old6);
    NewIds(h, x);
    MadeDefs(h, x);
    EraseLegal(h, x);
    var qOut, kOut, fused := Insert3(graph, c, x);
    AttentionMade(h, x);
    Redirect(graph, c.attention, qOut, kOut);
    FusedThere(h, x);
    graph.ReplaceInput(graph.g.Users(c.kvUpdate), c.kvUpdate, fused);
    graph.Erase(c.kvUpdate);
    // the RoPE node gained no user
    graph.Erase(c.rope);
    EraseUnused(graph, old6);
  }

  lemma AttentionMade(h: Graph, x: Site)
    requires IsMade(h, x, Made(h, x)) && x.c.attention in h.defs
    ensures x.c.attention in Made(h, x).defs && Made(h, x).defs[x.c.attention] == At(h, x.c.attention)
    ensures h.next in Made(h, x).defs && h.next + 1 in Made(h, x).defs
  {
  }

  lemma FusedThere(h: Graph, x: Site)
    requires IsMade(h, x, Made(h, x))
    ensures h.next + 2 in Pointed(h, x).defs
  {
  }

  lemma ChainsFound(h: Graph, x: Site, old6: seq<Option<Id>>)
    requires Usable(h, x)
    requires var att := At(h, x.c.attention);
             var (query, key) := (NodeOf(ArgOf(att, 0, "query")), NodeOf(ArgOf(att, 1, "key")));
             var (qFlat, kFlat) := (BaseOf(h, query), BaseOf(h, key));
             old6 == [query, key, qFlat, kFlat, BaseOf(h, qFlat), BaseOf(h, kFlat)]
    ensures old6 == OldNodes(x)
  {
    hide UsedAsWired, Targets, Reads;
  }

  // ----- one rewrite keeps the graph well formed -----

  lemma MadeValid(h: Graph, x: Site)
    requires h.Valid() && Usable(h, x)
    ensures Made(h, x).Valid()
  {
    hide Graph.Valid, Usable, FusedNode, EmptyNode, FusedArg, Refs, InsertedBefore;
    var c := x.c;
    FusedArgsDefined(h, x);
    NewIds(h, x);
    assert Own(x, c.kvUpdate);
    var (n0, n1) := (EmptyNode(c.qHead, At(h, c.qHead).meta), EmptyNode(c.kHead, At(h, c.kHead).meta));
    EmptyLegal(h, c.qHead, At(h, c.qHead).meta);
    InsertedValid(h, c.kvUpdate, n0);
    var h1 := h.Inserted(c.kvUpdate, n0);
    EmptyLegal(h1, c.kHead, At(h, c.kHead).meta);
    InsertedValid(h1, c.kvUpdate, n1);
    var h2 := h1.Inserted(c.kvUpdate, n1);
    FusedLegal(h2, c, h.next, h.next + 1, At(h, c.kvUpdate).meta);
    InsertedValid(h2, c.kvUpdate, FusedNode(c, h.next, h.next + 1, At(h, c.kvUpdate).meta));
  }

  lemma SetValid(h: Graph, n: Id, node: Node)
    requires h.Valid() && n in h.defs && Refs(node) <= h.defs.Keys
    ensures h.(defs := h.defs[n := node]).Valid()
  {
    hide Refs;
  }

  lemma PointedValid(h: Graph, x: Site)
    requires h.Valid() && Usable(h, x)
    ensures Pointed(h, x).Valid()
  {
    hide Usable, Made, Replaced, Refs, Graph.Valid, IsMade;
    MadeValid(h, x);
    NewIds(h, x);
    MadeDefs(h, x);
    UsableTargets(h, x);
    AttentionMade(h, x);
    ReplacedLegal(Made(h, x), x.c.attention, h.next, h.next + 1);
    SetValid(Made(h, x), x.c.attention, Replaced(At(h, x.c.attention), NodeArg(h.next), NodeArg(h.next + 1)));
  }

  lemma ReplacedLegal(h: Graph, n: Id, q: Id, k: Id)
    requires h.Valid() && n in h.defs && q in h.defs && k in h.defs
    ensures Refs(Replaced(h.defs[n], NodeArg(q), NodeArg(k))) <= h.defs.Keys
  {
    hide Refs, Replaced;
    forall m | m in Refs(Replaced(h.defs[n], NodeArg(q), NodeArg(k)))
      ensures m in h.defs
    {
      UsesIs(Replaced(h.defs[n], NodeArg(q), NodeArg(k)), m);
      ReplacedRefs(h.defs[n], NodeArg(q), NodeArg(k), m);
      UseDefined(h, n, m);
    }
  }

  lemma {:induction false} ErasedInTurnValid(h: Graph, ns: seq<Option<Id>>)
    requires h.Valid()
    ensures ErasedInTurn(h, ns).Valid()
  {
    hide Graph.Valid, Graph.Erased;
    if ns != [] {
      ErasedInTurnValid(h, ns[..|ns| - 1]);
      var (before, n) := (ErasedInTurn(h, ns[..|ns| - 1]), ns[|ns| - 1]);
      if n.Some? && n.value in before.defs && before.Users(n.value) == {} { ErasedValid(before, {n.value}); }
    }
  }

  lemma RewiredValid(h: Graph, x: Site)
    requires h.Valid() && Usable(h, x)
    ensures Rewired(h, x).Valid()
  {
    hide Usable, Made, Pointed, Refs, Graph.Valid, IsMade, Graph.Renamed;
    PointedValid(h, x);
    NewIds(h, x);
    MadeDefs(h, x);
    FusedThere(h, x);
    RenamedValid(Pointed(h, x), Pointed(h, x).Users(x.c.kvUpdate), map[x.c.kvUpdate := h.next + 2]);
  }

  lemma StepValid(h: Graph, x: Site)
    requires h.Valid() && Usable(h, x)
    ensures Step(h, x).Valid()
  {
    hide Usable, Rewired, ErasedInTurn, Refs, Graph.Valid, Graph.Erased;
    RewiredValid(h, x);
    EraseLegal(h, x);
    ErasedValid(Rewired(h, x), {x.c.kvUpdate});
    ErasedValid(Rewired(h, x).Erased({x.c.kvUpdate}), {x.c.rope});
    ErasedInTurnValid(Bare(h, x), OldNodes(x));
  }

  /** Applies a plan: every site in turn, then lint. No step before lint can fail. */
  method Apply(graph: FxGraph, cs: seq<Candidate>, ghost xs: seq<Site>) returns (n: Option<int>)
    requires graph.g.Valid() && Applicable(graph.g, xs) && |xs| == |cs| && forall i | 0 <= i < |cs| :: xs[i].c == cs[i]
    modifies graph
    ensures graph.g.Valid() && Applied(old(graph.g), xs, |xs|, graph.g)
    ensures n == if LintClean(graph.g) then Some(|cs|) else None
  {
    hide Graph.Valid, Applicable, Step, Usable;
    ghost var g := graph.g;
    SplicedNothing(g.order);
    for i := 0 to |cs|
      invariant graph.g.Valid() && Applied(g, xs, i, graph.g)
    {
      StepApplied(g, xs, i, graph.g);
      ApplyOne(graph, cs[i], xs[i]);
    }
    var ok := graph.Lint();
    return if ok then Some(|cs|) else None;
  }
}
