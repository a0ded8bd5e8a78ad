/** Why RoPE has to come before the KV update: a Qwen3 rewrite whose other premises hold keeps
    every run's caches exactly when every site's RoPE comes first. */
module Qwen3Order {
  import opened Options
  import opened FxGraph
  import opened EffectEval
  import opened Presplit
  import opened Qwen3Presplit
  import opened Qwen3Apply
  import opened Qwen3Meaning
  import opened Qwen3Outcome
  import opened Splice

  // ----- an interpretation that notices an unrotated key -----

  /** RoPE marks what it rotates, and nothing else makes the mark. A cache loses its mark for good
      when it takes a key without one. */
  ghost function Marking(layer: Key, plain: Data, mark: Data): Interp {
    Interp((path, d) => d,
           (path, d, v) => v,
           name => layer,
           (pos, q, k, head, cos, neox) => (mark, mark),
           (x, shape, weight, eps) => plain,
           (l, c, k: Val, v: Val) => if k == Tensor(mark) then c else plain,
           (args, kwargs, c) => plain,
           (n, target, args, kwargs) => plain,
           (n, target, r, args, kwargs, d) => plain)
  }

  function Start(plain: Data, mark: Data): State {
    State(r => plain, c => mark, [])
  }

  // ----- the rewritten graph only inserts rotated keys -----

  lemma FusedMarked(layer: Key, plain: Data, mark: Data, al: Aliases, node: Node, s: State)
    ensures ExecFused2(Marking(layer, plain, mark), al, node, s).cache(layer) == s.cache(layer)
    ensures ExecFused3(Marking(layer, plain, mark), al, node, s).cache(layer) == s.cache(layer)
  {
  }

  lemma MarkKept(layer: Key, plain: Data, mark: Data, al: Aliases, n: Id, node: Node, s: State)
    requires !node.target.KvUpdate?
    ensures Exec(Marking(layer, plain, mark), al, n, node, s).cache(layer) == s.cache(layer)
  {
    FusedMarked(layer, plain, mark, al, node, s);
    hide ExecFused2, ExecFused3, Marking;
  }

  lemma {:induction false} MarkStays(layer: Key, plain: Data, mark: Data, al: Aliases, order: seq<Id>, defs: map<Id, Node>, s: State)
    requires Elems(order) <= defs.Keys && forall n | n in Elems(order) :: !defs[n].target.KvUpdate?
    ensures ExecAll(Marking(layer, plain, mark), al, order, defs, s).cache(layer) == s.cache(layer)
  {
    hide Exec, Marking;
    if order != [] {
      MarkKept(layer, plain, mark, al, order[0], defs[order[0]], s);
      MarkStays(layer, plain, mark, al, order[1..], defs, Exec(Marking(layer, plain, mark), al, order[0], defs[order[0]], s));
    }
  }

  // ----- the original inserts the unrotated key of a late site -----

  lemma KeyUsed(g: Graph, al: Aliases, x: Site, z: Id) returns (m: Id)
    requires g.Valid() && LintClean(g) && Labels(g, al) && Usable(g, x) && z in g.defs
    requires z != x.k.norm && x.k.norm in Touched(al, z, g.defs[z])
    ensures m in Refs(g.defs[z]) && InChain(x.k, m)
  {
    hide Labels, Usable;
    m :| m in Refs(Visible(g.defs[z])) && x.k.norm == RootOf(al, m);
    VisibleRefs(g.defs[z]);
    assert m in Elems(g.order);
    ChainRoots(g, al, x, x.k, g.order, {}, m);
  }

  lemma ChainUser(g: Graph, x: Site, z: Id, m: Id)
    requires Usable(g, x) && z in g.defs && m in Refs(g.defs[z]) && InChain(x.k, m)
    ensures z == x.k.flat || z == x.k.arg || z == x.c.rope || z == x.c.kvUpdate || z == x.c.attention
  {
    UsesIs(g.defs[z], m);
    AsWired(g, x, z);
  }

  lemma QuietNodes(g: Graph, al: Aliases, x: Site)
    requires Usable(g, x)
    ensures x.k.flat in g.defs && Writes(al, x.k.flat, g.defs[x.k.flat]) == {}
    ensures x.k.arg in g.defs && Writes(al, x.k.arg, g.defs[x.k.arg]) == {}
    ensures x.c.kvUpdate in g.defs && Writes(al, x.c.kvUpdate, g.defs[x.c.kvUpdate]) == {}
  {
    hide Uses, UsedAsWired;
  }

  /** Only its norm, its RoPE and the attention may write a site's key. */
  lemma KeyWriters(g: Graph, al: Aliases, x: Site, z: Id)
    requires g.Valid() && LintClean(g) && Labels(g, al) && Usable(g, x) && z in g.defs
    requires x.k.norm in Writes(al, z, g.defs[z])
    ensures z == x.k.norm || z == x.c.rope || z == x.c.attention
  {
    hide Labels, LintClean, Graph.Valid, Usable, Writes, Touched;
    WritesTouched(al, z, g.defs[z], x.k.norm);
    QuietNodes(g, al, x);
    if z != x.k.norm {
      var m := KeyUsed(g, al, x, z);
      ChainUser(g, x, z, m);
    }
  }

  lemma NormPlain(layer: Key, plain: Data, mark: Data, al: Aliases, n: Id, node: Node, s: State)
    requires node.target.AtenRmsNorm?
    ensures Exec(Marking(layer, plain, mark), al, n, node, s).store(n) == plain
  {
  }

  lemma IsNormNode(g: Graph, x: Site)
    requires Usable(g, x)
    ensures x.k.norm in g.defs && g.defs[x.k.norm].target.AtenRmsNorm?
  {
    hide UsedAsWired, Uses, Reads, Leads;
  }

  lemma KeyPlain(layer: Key, plain: Data, mark: Data, g: Graph, al: Aliases, x: Site, z: Id, s: State)
    requires g.Valid() && LintClean(g) && Labels(g, al) && Usable(g, x) && z in g.defs
    requires z != x.c.rope && z != x.c.attention && s.store(x.k.norm) == plain
    ensures Exec(Marking(layer, plain, mark), al, z, g.defs[z], s).store(x.k.norm) == plain
  {
    hide LintClean, Graph.Valid, Usable, Labels, Writes, Exec, Marking;
    if x.k.norm !in Writes(al, z, g.defs[z]) {
      ExecFrame(Marking(layer, plain, mark), al, z, g.defs[z], s, x.k.norm);
    } else {
      KeyWriters(g, al, x, z);
      IsNormNode(g, x);
      NormPlain(layer, plain, mark, al, z, g.defs[z], s);
    }
  }

  lemma {:induction false} KeyStaysPlain(layer: Key, plain: Data, mark: Data, g: Graph, al: Aliases, x: Site, order: seq<Id>, s: State)
    requires g.Valid() && LintClean(g) && Labels(g, al) && Usable(g, x) && Elems(order) <= g.defs.Keys
    requires x.c.rope !in Elems(order) && x.c.attention !in Elems(order) && s.store(x.k.norm) == plain
    ensures ExecAll(Marking(layer, plain, mark), al, order, g.defs, s).store(x.k.norm) == plain
  {
    hide LintClean, Graph.Valid, Usable, Labels, Exec, Marking;
    if order != [] {
      KeyPlain(layer, plain, mark, g, al, x, order[0], s);
      KeyStaysPlain(layer, plain, mark, g, al, x, order[1..], Exec(Marking(layer, plain, mark), al, order[0], g.defs[order[0]], s));
    }
  }

  lemma KvUnmarks(layer: Key, plain: Data, mark: Data, g: Graph, al: Aliases, x: Site, s: State)
    requires Labels(g, al) && Wired(g, x) && Usable(g, x) && plain != mark && s.store(x.k.norm) == plain
    ensures Run(Marking(layer, plain, mark), g, al, x.c.kvUpdate, s).cache(layer) == plain
  {
    hide Private, Rotates, Uses, UsedAsWired, Labels, Names, Reads, IsChain, GoodHead, Heads, SplitItem, SplitSizes;
    ChainRefs(g, al, x.k);
    KvRun(Marking(layer, plain, mark), g, al, x, s);
    hide Wired, Usable, Exec;
  }

  lemma PlainKept(layer: Key, plain: Data, mark: Data, al: Aliases, n: Id, node: Node, s: State)
    requires s.cache(layer) == plain
    ensures Exec(Marking(layer, plain, mark), al, n, node, s).cache(layer) == plain
  {
  }

  lemma {:induction false} PlainStays(layer: Key, plain: Data, mark: Data, al: Aliases, order: seq<Id>, defs: map<Id, Node>, s: State)
    requires Elems(order) <= defs.Keys && s.cache(layer) == plain
    ensures ExecAll(Marking(layer, plain, mark), al, order, defs, s).cache(layer) == plain
  {
    hide Exec, Marking;
    if order != [] {
      PlainKept(layer, plain, mark, al, order[0], defs[order[0]], s);
      PlainStays(layer, plain, mark, al, order[1..], defs, Exec(Marking(layer, plain, mark), al, order[0], defs[order[0]], s));
    }
  }

  // ----- a late RoPE shows -----

  ghost predicate RopeFirst(g: Graph, x: Site) {
    Precedes(g.order, x.c.rope, x.c.kvUpdate)
  }

  /** Before a late site's KV update neither its RoPE nor its attention runs. */
  lemma LateOrder(g: Graph, x: Site) returns (before: seq<Id>, rest: seq<Id>)
    requires g.Valid() && LintClean(g) && Usable(g, x) && !RopeFirst(g, x)
    ensures g.order == before + [x.c.kvUpdate] + rest && Elems(before) <= g.defs.Keys && Elems(rest) <= g.defs.Keys
    ensures x.c.rope !in Elems(before) && x.c.attention !in Elems(before)
  {
    var kv := x.c.kvUpdate;
    AsWired(g, x, x.c.attention);
    assert kv in g.defs && x.c.rope in g.defs && x.c.attention in g.defs && kv != x.c.rope by { hide UsedAsWired, Uses, Reads, Leads; }
    ValidOrder(g);
    hide Usable, LintClean, Graph.Valid;
    before, rest := Cut(g.order, kv);
    UseOrder(g, before, kv, rest, kv, x.c.attention);
    SplitThree(before, kv, rest);
    PrecedesTotal(g.order, x.c.rope, kv);
    Turns(g.order, before, kv, rest, kv, x.c.rope);
    assert g.order == before + ([kv] + rest);
    NowNotDone(g, before, kv, rest);
    if x.c.rope in Elems(before) { PrecedesDone(before, [kv] + rest, kv, x.c.rope); }
  }

  ghost predicate CachesAgree(I: Interp, g: Graph, h: Graph, s: State)
    requires g.Valid() && h.Valid()
  {
    Execute(I, h, s).cache == Execute(I, g, s).cache
  }

  /** A rewrite of an accepted plan, with the premises that do not speak of RoPE's place. */
  ghost predicate SettledPlan(g: Graph, expected: int, cs: seq<Candidate>, h: Graph) {
    && PlanApplied(g, expected, cs, h) && LintClean(h)
    && forall i | 0 <= i < |cs| :: Settled(g, AliasesOf(g), SitesIn(g, expected, cs)[i])
  }

  lemma OriginalUnmarks(layer: Key, plain: Data, mark: Data, g: Graph, x: Site)
    requires g.Valid() && LintClean(g) && Wired(g, x) && Usable(g, x) && !RopeFirst(g, x) && plain != mark
    ensures Execute(Marking(layer, plain, mark), g, Start(plain, mark)).cache(layer) == plain
  {
    OrderThere(g);
    hide LintClean, Graph.Valid, Usable, Labels, Exec, Wired, Marking, RopeFirst;
    var (al, I, s) := (AliasesOf(g), Marking(layer, plain, mark), Start(plain, mark));
    AliasesLabel(g);
    var before, rest := LateOrder(g, x);
    var kv := x.c.kvUpdate;
    RunThrough(I, al, g.defs, before, kv, rest, s);
    var s1 := ExecAll(I, al, before, g.defs, s);
    KeyStaysPlain(layer, plain, mark, g, al, x, before, s);
    KvUnmarks(layer, plain, mark, g, al, x, s1);
    PlainStays(layer, plain, mark, al, rest, g.defs, Run(I, g, al, kv, s1));
  }

  lemma RewrittenMarks(layer: Key, plain: Data, mark: Data, g: Graph, expected: int, cs: seq<Candidate>, h: Graph)
    requires PlanApplied(g, expected, cs, h)
    ensures h.Valid() && Execute(Marking(layer, plain, mark), h, Start(plain, mark)).cache(layer) == mark
  {
    OrderThere(h);
    PlanReplacesAll(g, expected, cs, h);
    hide PlanApplied, Exec, Marking, Calls;
    forall n | n in Elems(h.order)
      ensures !h.defs[n].target.KvUpdate?
    {
      CallsAre(h.order, h, KvUpdate, n);
    }
    MarkStays(layer, plain, mark, AliasesOf(h), h.order, h.defs, Start(plain, mark));
  }

  lemma SiteUsed(g: Graph, expected: int, cs: seq<Candidate>, i: nat)
    requires g.Valid() && IsPlan(g, expected, cs) && i < |cs|
    ensures var x := SitesIn(g, expected, cs)[i];
            Wired(g, x) && Usable(g, x) && x.c == cs[i]
  {
    hide Wired, Usable, IsPlan;
    WiredUsable(g, SitesIn(g, expected, cs)[i]);
  }

  /** With a RoPE that comes late, one run of the two graphs ends with different caches. */
  lemma LateRopeDisagrees(g: Graph, expected: int, cs: seq<Candidate>, h: Graph, late: nat, layer: Key, plain: Data, mark: Data)
    requires PlanApplied(g, expected, cs, h) && plain != mark
    requires late < |cs| && Precedes(g.order, cs[late].kvUpdate, cs[late].rope)
    ensures !CachesAgree(Marking(layer, plain, mark), g, h, Start(plain, mark))
  {
    SiteUsed(g, expected, cs, late);
    LateNotFirst(g, cs[late].kvUpdate, cs[late].rope);
    RewrittenMarks(layer, plain, mark, g, expected, cs, h);
    hide IsPlan, Applied, LintClean, Graph.Valid, Wired, Usable, Precedes, Marking;
    OriginalUnmarks(layer, plain, mark, g, SitesIn(g, expected, cs)[late]);
  }

  lemma LateNotFirst(g: Graph, kv: Id, rope: Id)
    requires g.Valid() && Precedes(g.order, kv, rope)
    ensures !Precedes(g.order, rope, kv)
  {
    PrecedesStrict(g.order, kv, rope);
  }

  lemma EarlyRopeAgrees(I: Interp, g: Graph, expected: int, cs: seq<Candidate>, h: Graph, s: State)
    requires SettledPlan(g, expected, cs, h) && forall i | 0 <= i < |cs| :: Precedes(g.order, cs[i].rope, cs[i].kvUpdate)
    ensures CachesAgree(I, g, h, s)
  {
    forall i | 0 <= i < |cs|
      ensures Sound(g, AliasesOf(g), SitesIn(g, expected, cs)[i])
    {
      SiteUsed(g, expected, cs, i);
    }
    hide LintClean, IsPlan, Applied, Sound, Precedes, Graph.Valid, Execute;
    PlanPreservesRun(I, g, expected, cs, h, s);
  }

  lemma NotFirstIsLate(g: Graph, expected: int, cs: seq<Candidate>, i: nat)
    requires g.Valid() && IsPlan(g, expected, cs) && i < |cs|
    ensures Precedes(g.order, cs[i].rope, cs[i].kvUpdate) || Precedes(g.order, cs[i].kvUpdate, cs[i].rope)
  {
    SiteUsed(g, expected, cs, i);
    SiteTargets(g, SitesIn(g, expected, cs)[i]);
    ValidOrder(g);
    hide IsPlan, Usable, Wired;
    PrecedesTotal(g.order, cs[i].rope, cs[i].kvUpdate);
  }

  lemma SiteTargets(g: Graph, x: Site)
    requires Usable(g, x)
    ensures x.c.rope in g.defs && x.c.kvUpdate in g.defs && x.c.rope != x.c.kvUpdate
  {
    hide UsedAsWired, Uses, Reads, Leads;
  }

  lemma PlanParts(g: Graph, expected: int, cs: seq<Candidate>, h: Graph)
    requires SettledPlan(g, expected, cs, h)
    ensures PlanApplied(g, expected, cs, h) && g.Valid() && h.Valid() && IsPlan(g, expected, cs)
  {
    hide Settled, LintClean, Graph.Valid, IsPlan, Applied;
  }

  /** A Qwen3 rewrite keeps the caches of every run exactly when every RoPE precedes its KV update.
      Two different tensors are all the converse needs. */
  lemma CachesAgreeIff(g: Graph, expected: int, cs: seq<Candidate>, h: Graph, layer: Key, plain: Data, mark: Data)
    requires SettledPlan(g, expected, cs, h) && plain != mark
    ensures (forall I, s :: CachesAgree(I, g, h, s)) <==> (forall i | 0 <= i < |cs| :: Precedes(g.order, cs[i].rope, cs[i].kvUpdate))
  {
    hide SettledPlan, PlanApplied, Precedes, CachesAgree, IsPlan, Graph.Valid, Marking, Start;
    PlanParts(g, expected, cs, h);
    if forall i | 0 <= i < |cs| :: Precedes(g.order, cs[i].rope, cs[i].kvUpdate) {
      forall I, s { EarlyRopeAgrees(I, g, expected, cs, h, s); }
    } else {
      var late: nat :| late < |cs| && !Precedes(g.order, cs[late].rope, cs[late].kvUpdate);
      NotFirstIsLate(g, expected, cs, late);
      LateRopeDisagrees(g, expected, cs, h, late, layer, plain, mark);
    }
  }
}
