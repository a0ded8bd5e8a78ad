/** When the rewritten Qwen3 graph passes lint. */
module Qwen3Lint {
  import opened FxGraph
  import opened EffectEval
  import opened Presplit
  import opened Qwen3Presplit
  import opened Qwen3Apply
  import opened Qwen3Meaning
  import opened Qwen3Outcome
  import opened Splice

  /** The new calls stand where the KV update stood, so their arguments must be ready there. */
  ghost predicate Ready(g: Graph, x: Site) {
    forall m | FusedArg(x.c, m) :: Precedes(g.order, m, x.c.kvUpdate)
  }

  /** The original node at whose place a node of the rewritten graph stands. */
  function Source(g: Graph, xs: seq<Site>, n: Id): Id {
    if g.next <= n && SiteAt(g, n) < |xs| then xs[SiteAt(g, n)].c.kvUpdate else n
  }

  lemma SiteOfNew(g: Graph, i: nat, n: Id)
    requires FirstId(g, i) <= n < FirstId(g, i) + 3
    ensures SiteAt(g, n) == i
  {
  }

  lemma ListSource(g: Graph, xs: seq<Site>, h: Graph, n: Id, z: Id)
    requires Rewritten(g, xs, h) && z in g.defs && n in Elems(RepOf(Reps(g, xs, |xs|), z))
    ensures z == Source(g, xs, n)
  {
    hide Graph.Valid, Applicable, LintClean, Applied, Dead, Gone, Reps;
    if z in Gone(g, xs, |xs|) {
      var i := GoneIs(g, xs, |xs|, z);
      RepsExact(g, xs, |xs|, i, z);
      ThreeElems(FirstId(g, i), n);
      SiteOfNew(g, i, n);
    } else {
      RepsAre(g, xs, |xs|, z, z);
      OneElem(z, n);
      OldIds(g, z);
    }
  }

  lemma NewInList(g: Graph, xs: seq<Site>, h: Graph, n: Id) returns (i: nat)
    requires Rewritten(g, xs, h) && n in h.defs && n !in g.defs
    ensures i < |xs| && FirstId(g, i) <= n < FirstId(g, i) + 3 && Source(g, xs, n) == xs[i].c.kvUpdate
    ensures n in Elems([FirstId(g, i), FirstId(g, i) + 1, FirstId(g, i) + 2])
    ensures RepOf(Reps(g, xs, |xs|), xs[i].c.kvUpdate) == [FirstId(g, i), FirstId(g, i) + 1, FirstId(g, i) + 2]
    ensures xs[i].c.kvUpdate in g.defs
  {
    hide Rewritten, Dead, Reps, Applicable, Graph.Valid, LintClean, Applied;
    i := NewSite(g, xs, h, n);
    SiteOfNew(g, i, n);
    KvDead(g, xs[i]);
    RewrittenParts(g, xs, h);
    RepsExact(g, xs, |xs|, i, xs[i].c.kvUpdate);
    SiteBasics(g, xs, i, xs[i].c.kvUpdate);
    ElemsAre([FirstId(g, i), FirstId(g, i) + 1, FirstId(g, i) + 2], n);
  }

  lemma RewrittenParts(g: Graph, xs: seq<Site>, h: Graph)
    requires Rewritten(g, xs, h)
    ensures g.Valid() && h.Valid() && LintClean(g) && Applicable(g, xs) && Applied(g, xs, |xs|, h)
  {
    hide Graph.Valid, Applicable, LintClean, Applied;
  }

  lemma NewSite(g: Graph, xs: seq<Site>, h: Graph, n: Id) returns (i: nat)
    requires Rewritten(g, xs, h) && n in h.defs && n !in g.defs
    ensures i < |xs| && FirstId(g, i) <= n < FirstId(g, i) + 3
  {
    hide Graph.Valid, Applicable, LintClean, Gone, NewAt, Spliced, Reps;
    i := IdOfSite(g, n, |xs|);
  }

  lemma OldInList(g: Graph, xs: seq<Site>, h: Graph, n: Id)
    requires Rewritten(g, xs, h) && n in h.defs && n in g.defs
    ensures n !in Gone(g, xs, |xs|) && RepOf(Reps(g, xs, |xs|), n) == [n] && Source(g, xs, n) == n
  {
    hide Graph.Valid, Applicable, LintClean, Gone, NewAt, Spliced, Reps;
    OldIds(g, n);
    RepsAre(g, xs, |xs|, n, n);
  }

  lemma SourceOwns(g: Graph, xs: seq<Site>, h: Graph, n: Id)
    requires Rewritten(g, xs, h) && n in h.defs
    ensures Source(g, xs, n) in g.defs
    ensures n in Elems(RepOf(Reps(g, xs, |xs|), Source(g, xs, n)))
    ensures Owned(g.order, Reps(g, xs, |xs|), n, Source(g, xs, n))
  {
    RewrittenParts(g, xs, h);
    hide Rewritten, Reps, RepOf, Applicable, LintClean, Applied, Source;
    if n in g.defs {
      OldInList(g, xs, h, n);
      ElemsAre([n], n);
    } else {
      var i := NewInList(g, xs, h, n);
    }
    forall z | z in Elems(g.order) && n in Elems(RepOf(Reps(g, xs, |xs|), z))
      ensures z == Source(g, xs, n)
    {
      ListSource(g, xs, h, n, z);
    }
  }

  lemma OrderKept(g: Graph, xs: seq<Site>, h: Graph, a: Id, b: Id)
    requires Rewritten(g, xs, h) && a in h.defs && b in h.defs && Source(g, xs, a) != Source(g, xs, b)
    ensures Precedes(h.order, a, b) <==> Precedes(g.order, Source(g, xs, a), Source(g, xs, b))
  {
    RewrittenParts(g, xs, h);
    ValidOrder(g);
    OrderAfter(g, xs, h);
    SourceOwns(g, xs, h, a);
    SourceOwns(g, xs, h, b);
    hide Rewritten, Applicable, LintClean, Applied, Graph.Valid, Owned, NoDup, Precedes, Reps, Source;
    PrecedesSpliced(g.order, Reps(g, xs, |xs|), a, Source(g, xs, a), b, Source(g, xs, b));
  }

  /** Arguments of a surviving node come from arguments it had. */
  lemma SurvivorArgs(g: Graph, xs: seq<Site>, h: Graph, a: Id, b: Id)
    requires Rewritten(g, xs, h) && b in g.defs && b in h.defs && Uses(h.defs[b], a)
    ensures (Source(g, xs, a) == a && Uses(g.defs[b], a)) ||
            (exists i :: 0 <= i < |xs| && b == xs[i].c.attention && Source(g, xs, a) == xs[i].c.kvUpdate)
  {
    RewrittenParts(g, xs, h);
    OldInList(g, xs, h, b);
    hide Rewritten, Applicable, LintClean, Reps, Spliced, Gone, Attended, NewAt, Redirected;
    if b in Attended(xs, |xs|) {
      var i := AttendedIs(xs, |xs|, b);
      AppliedAt(g, xs, h, i);
      RedirectedArgs(g, xs, i, h, a);
    } else {
      UseDefined(g, b, a);
      OldIds(g, a);
    }
  }

  lemma RedirectedArgs(g: Graph, xs: seq<Site>, i: nat, h: Graph, a: Id)
    requires g.Valid() && Applicable(g, xs) && i < |xs| && NewAt(g, xs[i], FirstId(g, i), h)
    requires Uses(h.defs[xs[i].c.attention], a)
    ensures xs[i].c.attention in g.defs
    ensures (Source(g, xs, a) == a && Uses(g.defs[xs[i].c.attention], a)) || Source(g, xs, a) == xs[i].c.kvUpdate
  {
    hide Applicable, Uses, Redirected, EmptyNode, FusedNode;
    var (x, first) := (xs[i], FirstId(g, i));
    SiteBasics(g, xs, i, x.c.attention);
    if first <= a < first + 3 {
      SiteOfNew(g, i, a);
    } else {
      RedirectedEither(g, x, first, a);
      UseDefined(g, x.c.attention, a);
      OldIds(g, a);
    }
  }

  lemma RedirectedEither(g: Graph, x: Site, first: Id, a: Id)
    requires Uses(Redirected(g, x, first), a) && !(first <= a < first + 3)
    ensures Uses(At(g, x.c.attention), a)
  {
    hide Uses, Rename, Replaced;
    var att := At(g, x.c.attention);
    var node := Replaced(att, NodeArg(first), NodeArg(first + 1));
    RenamedOnly(node, x.c.kvUpdate, first + 2, a);
    ReplacedRefs(att, NodeArg(first), NodeArg(first + 1), a);
  }

  /** What a new node reads: an argument of the fused call or an output before it. */
  lemma NewReads(g: Graph, xs: seq<Site>, h: Graph, i: nat, a: Id, b: Id)
    requires i < |xs| && NewAt(g, xs[i], FirstId(g, i), h) && FirstId(g, i) <= b < FirstId(g, i) + 3
    requires Uses(h.defs[b], a)
    ensures FusedArg(xs[i].c, a) || (b == FirstId(g, i) + 2 && (a == b - 2 || a == b - 1))
  {
    hide Uses, FusedNode, EmptyNode, Redirected;
    var (x, first) := (xs[i], FirstId(g, i));
    EmptyRefs(x.c.qHead, At(g, x.c.qHead).meta, a);
    EmptyRefs(x.c.kHead, At(g, x.c.kHead).meta, a);
    FusedRefs(x.c, first, first + 1, At(g, x.c.kvUpdate).meta, a);
  }

  lemma ArgIsOther(g: Graph, xs: seq<Site>, h: Graph, i: nat, a: Id)
    requires g.Valid() && Applicable(g, xs) && i < |xs| && FusedArg(xs[i].c, a)
    ensures a in g.defs && a != xs[i].c.kvUpdate && Source(g, xs, a) == a
  {
    ArgThere(g, xs, i, a);
    OldIds(g, a);
    SiteUsable(g, xs, i);
    hide Applicable, FusedArg, Graph.Valid;
    NotFusedArg(g, xs[i]);
  }

  /** The outputs stand before the fused call that fills them. */
  lemma OutputsFirst(g: Graph, xs: seq<Site>, h: Graph, i: nat, a: Id)
    requires Rewritten(g, xs, h) && i < |xs| && (a == FirstId(g, i) || a == FirstId(g, i) + 1)
    ensures Precedes(h.order, a, FirstId(g, i) + 2)
  {
    hide Rewritten, Applicable, LintClean, Applied, Graph.Valid, NewAt, Reps, NoDup, Owned, Precedes, Source;
    RewrittenParts(g, xs, h);
    AppliedAt(g, xs, h, i);
    NewThere(g, xs[i], FirstId(g, i), h);
    OrderAfter(g, xs, h);
    ValidOrder(g);
    var first := FirstId(g, i);
    SourceOwns(g, xs, h, a);
    NotOld(g, a);
    var j := NewInList(g, xs, h, a);
    SiteOfNew(g, i, a);
    SiteOfNew(g, j, a);
    InThree(first, a);
    PrecedesInside(g.order, Reps(g, xs, |xs|), a, first + 2, xs[i].c.kvUpdate);
  }

  lemma NewThere(g: Graph, x: Site, first: Id, h: Graph)
    requires NewAt(g, x, first, h)
    ensures first in h.defs && first + 1 in h.defs && first + 2 in h.defs && x.c.attention in h.defs
    ensures h.defs[first + 2] == FusedNode(x.c, first, first + 1, At(g, x.c.kvUpdate).meta)
  {
    hide EmptyNode, FusedNode, Redirected;
  }

  lemma NotOld(g: Graph, a: Id)
    requires g.Valid() && a >= g.next
    ensures a !in g.defs
  {
  }

  lemma InThree(first: Id, a: Id)
    requires a == first || a == first + 1
    ensures Precedes([first, first + 1, first + 2], a, first + 2)
  {
    ElemsAre([first + 1, first + 2], first + 2);
    ElemsAre([first + 2], first + 2);
    assert [first, first + 1, first + 2][1..] == [first + 1, first + 2] && [first + 1, first + 2][1..] == [first + 2];
  }

  lemma AttentionAfter(g: Graph, xs: seq<Site>, i: nat)
    requires g.Valid() && LintClean(g) && Applicable(g, xs) && i < |xs|
    ensures Precedes(g.order, xs[i].c.kvUpdate, xs[i].c.attention) && xs[i].c.kvUpdate != xs[i].c.attention
  {
    SiteUsable(g, xs, i);
    SiteBasics(g, xs, i, xs[i].c.attention);
    AsWired(g, xs[i], xs[i].c.attention);
    hide Applicable, Usable, LintClean, Graph.Valid;
    UsesPrecede(g, xs[i].c.kvUpdate, xs[i].c.attention);
  }

  lemma SurvivorOrder(g: Graph, xs: seq<Site>, h: Graph, a: Id, b: Id)
    requires Rewritten(g, xs, h) && b in h.defs && b in g.defs && Uses(h.defs[b], a)
    ensures Precedes(h.order, a, b)
  {
    hide Rewritten, Applicable, LintClean, Applied, Graph.Valid, Precedes, Source, FusedArg, Uses, Gone, Reps;
    RewrittenParts(g, xs, h);
    UseDefined(h, b, a);
    OldInList(g, xs, h, b);
    SurvivorArgs(g, xs, h, a, b);
    if Source(g, xs, a) == a && Uses(g.defs[b], a) {
      UsesIs(g.defs[b], a);
      UsesPrecede(g, a, b);
    } else {
      var i :| 0 <= i < |xs| && b == xs[i].c.attention && Source(g, xs, a) == xs[i].c.kvUpdate;
      AttentionAfter(g, xs, i);
    }
    OrderKept(g, xs, h, a, b);
  }

  lemma NewOrder(g: Graph, xs: seq<Site>, h: Graph, a: Id, b: Id)
    requires Rewritten(g, xs, h) && b in h.defs && b !in g.defs && Uses(h.defs[b], a)
    requires forall i | 0 <= i < |xs| :: Ready(g, xs[i])
    ensures Precedes(h.order, a, b)
  {
    hide Rewritten, Applicable, LintClean, Applied, Graph.Valid, Precedes, Source, FusedArg, Uses, Gone, Reps, NewAt;
    RewrittenParts(g, xs, h);
    UseDefined(h, b, a);
    var i := NewInList(g, xs, h, b);
    AppliedAt(g, xs, h, i);
    NewReads(g, xs, h, i, a, b);
    if FusedArg(xs[i].c, a) {
      assert Ready(g, xs[i]);
      ArgIsOther(g, xs, h, i, a);
      OrderKept(g, xs, h, a, b);
    } else {
      OutputsFirst(g, xs, h, i, a);
    }
  }

  lemma ReadyOrder(g: Graph, xs: seq<Site>, h: Graph, a: Id, b: Id)
    requires Rewritten(g, xs, h) && b in h.defs && Uses(h.defs[b], a) && forall i | 0 <= i < |xs| :: Ready(g, xs[i])
    ensures Precedes(h.order, a, b)
  {
    hide Rewritten, Ready, Precedes, Uses;
    if b in g.defs { SurvivorOrder(g, xs, h, a, b); } else { NewOrder(g, xs, h, a, b); }
  }

  /** Lint accepts the rewritten graph exactly when every new call's arguments are ready. */
  lemma LintPassesIff(g: Graph, xs: seq<Site>, h: Graph)
    requires Rewritten(g, xs, h)
    ensures LintClean(h) <==> forall i | 0 <= i < |xs| :: Ready(g, xs[i])
  {
    RewrittenParts(g, xs, h);
    ValidOrder(h);
    hide Rewritten, Applicable, Applied, Precedes, NoDup, DefBeforeUse, Graph.Valid, FusedArg, Uses, Refs;
    if LintClean(h) {
      forall i: nat | i < |xs|
        ensures Ready(g, xs[i])
      {
        forall m | FusedArg(xs[i].c, m)
          ensures Precedes(g.order, m, xs[i].c.kvUpdate)
        {
          LintGivesReady(g, xs, h, i, m);
        }
      }
    } else if forall i | 0 <= i < |xs| :: Ready(g, xs[i]) {
      forall b, a | b in Elems(h.order) && a in Refs(h.defs[b])
        ensures Precedes(h.order, a, b)
      {
        UsesIs(h.defs[b], a);
        ReadyOrder(g, xs, h, a, b);
      }
      PrecedesLint(h.order, h.defs, {});
    }
  }

  lemma LintGivesReady(g: Graph, xs: seq<Site>, h: Graph, i: nat, m: Id)
    requires Rewritten(g, xs, h) && LintClean(h) && i < |xs| && FusedArg(xs[i].c, m)
    ensures Precedes(g.order, m, xs[i].c.kvUpdate)
  {
    hide Rewritten, Applicable, LintClean, Applied, Graph.Valid, Precedes, FusedArg, Uses, NewAt, FusedNode, Source;
    RewrittenParts(g, xs, h);
    AppliedAt(g, xs, h, i);
    NewThere(g, xs[i], FirstId(g, i), h);
    ArgIsOther(g, xs, h, i, m);
    var fused := FirstId(g, i) + 2;
    FusedRefs(xs[i].c, FirstId(g, i), FirstId(g, i) + 1, At(g, xs[i].c.kvUpdate).meta, m);
    UsesIs(h.defs[fused], m);
    UsesPrecede(h, m, fused);
    NotOld(g, fused);
    var j := NewInList(g, xs, h, fused);
    SiteOfNew(g, i, fused);
    SiteOfNew(g, j, fused);
    OrderKept(g, xs, h, m, fused);
  }

  // ----- RoPE first is enough -----

  lemma Through(g: Graph, a: Id, b: Id, c: Id)
    requires g.Valid() && LintClean(g) && b in g.defs && Uses(g.defs[b], a) && Precedes(g.order, b, c)
    ensures Precedes(g.order, a, c)
  {
    UsesPrecede(g, a, b);
    ValidOrder(g);
    PrecedesTrans(g.order, a, b, c);
  }

  lemma ReadyByRope(g: Graph, x: Site, m: Id)
    requires g.Valid() && LintClean(g) && Usable(g, x) && Precedes(g.order, x.c.rope, x.c.kvUpdate) && FusedArg(x.c, m)
    ensures Precedes(g.order, m, x.c.kvUpdate)
  {
    var kv := x.c.kvUpdate;
    ViewsUse(g, x);
    UsableTargets(g, x);
    AsWired(g, x, x.c.rope);
    AsWired(g, x, kv);
    hide Graph.Valid, LintClean, Uses, Precedes, Leads, UsedAsWired;
    FlatBefore(g, x, x.q.flat);
    FlatBefore(g, x, x.k.flat);
    Through(g, x.q.norm, x.q.flat, kv);
    Through(g, x.k.norm, x.k.flat, kv);
    if Uses(g.defs[x.q.norm], m) { Through(g, m, x.q.norm, kv); }
    else if Uses(g.defs[x.k.norm], m) { Through(g, m, x.k.norm, kv); }
    else if Uses(g.defs[x.c.rope], m) { Through(g, m, x.c.rope, kv); }
    else { UsesPrecede(g, m, kv); }
  }

  lemma FlatBefore(g: Graph, x: Site, flat: Id)
    requires g.Valid() && LintClean(g) && Usable(g, x) && Precedes(g.order, x.c.rope, x.c.kvUpdate)
    requires flat == x.q.flat || flat == x.k.flat
    ensures Precedes(g.order, flat, x.c.kvUpdate)
  {
    hide Graph.Valid, LintClean, Uses, Precedes, Leads, Reads;
    UsableTargets(g, x);
    AsWired(g, x, x.c.rope);
    Through(g, flat, x.c.rope, x.c.kvUpdate);
  }

  /** If every RoPE precedes its KV update the rewritten graph is lint-clean. */
  lemma RopeFirstPassesLint(g: Graph, xs: seq<Site>, h: Graph)
    requires Rewritten(g, xs, h)
    requires forall i | 0 <= i < |xs| :: Precedes(g.order, xs[i].c.rope, xs[i].c.kvUpdate)
    ensures LintClean(h)
  {
    RewrittenParts(g, xs, h);
    hide Rewritten, Applicable, LintClean, Applied, Graph.Valid, Precedes, FusedArg, Usable;
    forall i: nat | i < |xs|
      ensures Ready(g, xs[i])
    {
      SiteUsable(g, xs, i);
      forall m | FusedArg(xs[i].c, m) { ReadyByRope(g, xs[i], m); }
    }
    LintPassesIff(g, xs, h);
  }
}
