/** What planning and applying a Qwen3 rewrite guarantee together. */
module Qwen3Outcome {
  import opened FxGraph
  import opened EffectEval
  import opened Presplit
  import opened Qwen3Presplit
  import opened Qwen3Apply
  import opened Qwen3Meaning
  import opened Splice

  ghost predicate Rewritten(g: Graph, xs: seq<Site>, h: Graph) {
    g.Valid() && h.Valid() && LintClean(g) && Applicable(g, xs) && Applied(g, xs, |xs|, h)
  }

  // ----- the run -----

  lemma NewLabel(g: Graph, al: Aliases, xs: seq<Site>, h: Graph, i: nat, n: Id)
    requires i < |xs| && NewAt(g, xs[i], FirstId(g, i), h) && FirstId(g, i) <= n < FirstId(g, i) + 3 && n !in al
    ensures n in h.defs && RefOf(al, n) == AliasOf(n, h.defs[n], al)
  {
    hide Redirected;
  }

  lemma AttentionLabel(g: Graph, al: Aliases, xs: seq<Site>, h: Graph, i: nat)
    requires i < |xs| && NewAt(g, xs[i], FirstId(g, i), h) && Labels(g, al)
    requires xs[i].c.attention in g.defs && g.defs[xs[i].c.attention].target.Attention?
    ensures var n := xs[i].c.attention; n in h.defs && RefOf(al, n) == AliasOf(n, h.defs[n], al)
  {
    RedirectedMeta(g, xs[i], FirstId(g, i));
    hide Redirected, EmptyNode, FusedNode;
  }

  lemma LabelsStay(g: Graph, xs: seq<Site>, h: Graph, al: Aliases)
    requires Rewritten(g, xs, h) && Setting(g, al, xs)
    ensures Labels(h, al)
  {
    hide LintClean, AliasOf, NewAt, Applicable, Wired, Sound, Graph.Valid, Gone, Attended, Reps, Spliced;
    forall n | n in h.defs
      ensures RefOf(al, n) == AliasOf(n, h.defs[n], al)
    {
      if n in Attended(xs, |xs|) {
        var i := AttendedIs(xs, |xs|, n);
        AttentionTarget(g, al, xs, i);
        AppliedAt(g, xs, h, i);
        AttentionLabel(g, al, xs, h, i);
      } else if n !in g.defs {
        var i := IdOfSite(g, n, |xs|);
        AppliedAt(g, xs, h, i);
        NewLabel(g, al, xs, h, i, n);
      } else {
        OldIds(g, n);
      }
    }
  }

  lemma NoneStarted(I: Interp, g: Graph, al: Aliases, xs: seq<Site>, s: State)
    ensures Related(I, g, al, xs, [], s, s)
  {
    hide NormOf, BothOf;
  }

  /** The rewritten graph leaves the caches, the attention calls with all their inputs, and
      every storage but the norms' and the new outputs' as the original does. */
  lemma RunPreserved(I: Interp, g: Graph, xs: seq<Site>, h: Graph, s: State)
    requires g.Valid() && h.Valid() && LintClean(g) && LintClean(h)
    requires Applicable(g, xs) && Applied(g, xs, |xs|, h)
    requires forall i | 0 <= i < |xs| :: Wired(g, xs[i]) && Sound(g, AliasesOf(g), xs[i])
    ensures Execute(I, h, s).cache == Execute(I, g, s).cache
    ensures Execute(I, h, s).log == Execute(I, g, s).log
    ensures forall r | r !in Bad(g, xs, |xs|) :: Execute(I, h, s).store(r) == Execute(I, g, s).store(r)
  {
    hide Wired, Applicable, Exec, Sound, Reps, LintClean, Graph.Valid, Labels, Applied, Related, Bad, Setting, Rewritten;
    OrderThere(g);
    OrderThere(h);
    var al := AliasesOf(g);
    SettingHere(g, xs);
    RewrittenHere(g, xs, h);
    LabelsStay(g, xs, h, al);
    ExecuteLabelled(I, h, al, s);
    assert [] + g.order == g.order;
    NoneStarted(I, g, al, xs, s);
    Simulate(I, g, al, xs, h, [], g.order, s, s);
    OrderAfter(g, xs, h);
    RelatedAgrees(I, g, al, xs, ExecAll(I, al, g.order, g.defs, s), ExecAll(I, al, h.order, h.defs, s));
  }

  lemma SettingHere(g: Graph, xs: seq<Site>)
    requires g.Valid() && LintClean(g) && Applicable(g, xs)
    requires forall i | 0 <= i < |xs| :: Wired(g, xs[i]) && Sound(g, AliasesOf(g), xs[i])
    ensures Setting(g, AliasesOf(g), xs)
  {
    hide Wired, Applicable, Sound, LintClean, Labels;
    AliasesLabel(g);
    AliasKeys(g);
  }

  lemma RewrittenHere(g: Graph, xs: seq<Site>, h: Graph)
    requires g.Valid() && h.Valid() && LintClean(g) && Applicable(g, xs) && Applied(g, xs, |xs|, h)
    ensures Rewritten(g, xs, h)
  {
    hide Graph.Valid, LintClean, Applicable, Applied;
  }

  lemma RelatedAgrees(I: Interp, g: Graph, al: Aliases, xs: seq<Site>, s: State, t: State)
    requires Related(I, g, al, xs, g.order, s, t)
    ensures s.cache == t.cache && s.log == t.log && forall r | r !in Bad(g, xs, |xs|) :: s.store(r) == t.store(r)
  {
    hide SiteRel, Bad;
  }

  lemma OrderThere(g: Graph)
    requires g.Valid()
    ensures Elems(g.order) <= g.defs.Keys
  {
  }

  lemma OrderAfter(g: Graph, xs: seq<Site>, h: Graph)
    requires Applied(g, xs, |xs|, h)
    ensures h.order == Spliced(g.order, Reps(g, xs, |xs|))
  {
  }

  lemma AliasKeys(g: Graph)
    requires g.Valid()
    ensures forall n | n in AliasesOf(g) :: n in g.defs
  {
    forall n | n in AliasesOf(g)
      ensures n in g.defs
    {
      AliasRunKeys(g.order, g.defs, map[], n);
    }
  }

  // ----- a plan -----

  /** The sites of a plan's candidates. */
  ghost predicate SitesOf(g: Graph, cs: seq<Candidate>, xs: seq<Site>) {
    |xs| == |cs| && forall i | 0 <= i < |cs| :: xs[i].c == cs[i] && Wired(g, xs[i])
  }

  lemma {:induction false} SitesFound(g: Graph, kvs: seq<Id>, cs: seq<Candidate>, k: nat) returns (xs: seq<Site>)
    requires Sites(g, kvs, cs) && k <= |cs|
    ensures |xs| == k && forall i | 0 <= i < k :: xs[i].c == cs[i] && Wired(g, xs[i])
  {
    hide Wired;
    xs := [];
    if k > 0 {
      var before := SitesFound(g, kvs, cs, k - 1);
      assert SiteOf(g, kvs[k - 1], cs[k - 1]);
      var x :| Wired(g, x) && x.c == cs[k - 1];
      xs := before + [x];
    }
  }

  lemma PlanSites(g: Graph, expected: int, cs: seq<Candidate>)
    requires IsPlan(g, expected, cs)
    ensures exists xs :: SitesOf(g, cs, xs)
  {
    hide Wired, Calls, Sites;
    var xs := SitesFound(g, Calls(g.order, g, KvUpdate), cs, |cs|);
    assert SitesOf(g, cs, xs);
  }

  /** The nodes around a plan's candidates. */
  ghost function SitesIn(g: Graph, expected: int, cs: seq<Candidate>): (xs: seq<Site>)
    requires IsPlan(g, expected, cs)
    ensures |xs| == |cs| && SitesOf(g, cs, xs)
  {
    PlanSites(g, expected, cs);
    var xs :| SitesOf(g, cs, xs);
    xs
  }

  /** A plan leaves no choice of them. */
  lemma SitesUnique(g: Graph, expected: int, cs: seq<Candidate>, xs: seq<Site>)
    requires IsPlan(g, expected, cs) && SitesOf(g, cs, xs)
    ensures xs == SitesIn(g, expected, cs)
  {
    hide Wired, IsPlan;
    var ys := SitesIn(g, expected, cs);
    forall i | 0 <= i < |xs|
      ensures xs[i] == ys[i]
    {
      SiteUnique(g, xs[i], ys[i]);
    }
  }

  /** A plan can be applied. */
  lemma PlanApplicable(g: Graph, expected: int, cs: seq<Candidate>)
    requires g.Valid() && IsPlan(g, expected, cs)
    ensures Applicable(g, SitesIn(g, expected, cs))
  {
    hide Usable, Wired, Calls;
    var xs := SitesIn(g, expected, cs);
    var kvs := Calls(g.order, g, KvUpdate);
    forall i | 0 <= i < |xs|
      ensures Usable(g, xs[i])
    {
      WiredUsable(g, xs[i]);
    }
    forall i, j | 0 <= i < j < |xs|
      ensures xs[i].c.kvUpdate != xs[j].c.kvUpdate && xs[i].c.rope != xs[j].c.rope
      ensures xs[i].c.attention != xs[j].c.attention
    {
      CallsDistinct(g.order, g, KvUpdate, i, j);
      assert SiteOf(g, kvs[i], cs[i]) && SiteOf(g, kvs[j], cs[j]);
      SharedParts(g, xs[i], xs[j]);
    }
  }

  /** `h` is `g` with the plan applied. */
  ghost predicate PlanApplied(g: Graph, expected: int, cs: seq<Candidate>, h: Graph) {
    g.Valid() && LintClean(g) && IsPlan(g, expected, cs) && h.Valid() && Applied(g, SitesIn(g, expected, cs), |cs|, h)
  }

  lemma PlanRewritten(g: Graph, expected: int, cs: seq<Candidate>, h: Graph)
    requires PlanApplied(g, expected, cs, h)
    ensures Rewritten(g, SitesIn(g, expected, cs), h)
  {
    hide LintClean, Applied, Applicable, Graph.Valid, IsPlan, Wired;
    PlanApplicable(g, expected, cs);
  }

  /** Applying a plan preserves the run. */
  lemma PlanPreservesRun(I: Interp, g: Graph, expected: int, cs: seq<Candidate>, h: Graph, s: State)
    requires PlanApplied(g, expected, cs, h) && LintClean(h)
    requires forall i | 0 <= i < |cs| :: Sound(g, AliasesOf(g), SitesIn(g, expected, cs)[i])
    ensures Execute(I, h, s).cache == Execute(I, g, s).cache
    ensures Execute(I, h, s).log == Execute(I, g, s).log
    ensures forall r | r !in Bad(g, SitesIn(g, expected, cs), |cs|) :: Execute(I, h, s).store(r) == Execute(I, g, s).store(r)
  {
    hide Wired, LintClean, Applied, Sound, Applicable, Graph.Valid, IsPlan, Bad;
    PlanApplicable(g, expected, cs);
    RunPreserved(I, g, SitesIn(g, expected, cs), h, s);
  }

  // ----- what is in the rewritten graph -----

  /** The calls that a KV update's three successors add. */
  lemma ThreeCalls(g: Graph, xs: seq<Site>, h: Graph, i: nat, target: Target)
    requires i < |xs| && NewAt(g, xs[i], FirstId(g, i), h)
    ensures var first := FirstId(g, i);
            |Calls([first, first + 1, first + 2], h, target)| ==
            if target == FusedQwen3 then 1 else if target == EmptyLike then 2 else 0
  {
    var first := FirstId(g, i);
    NewTargets(g, xs, h, i);
    hide NewAt, At;
    assert Calls([], h, target) == [];
    assert [first + 2][1..] == [] && [first + 1, first + 2][1..] == [first + 2]
           && [first, first + 1, first + 2][1..] == [first + 1, first + 2];
    assert |Calls([first + 2], h, target)| == if target == FusedQwen3 then 1 else 0;
    assert |Calls([first + 1, first + 2], h, target)| == if target == FusedQwen3 || target == EmptyLike then 1 else 0;
  }

  lemma NewTargets(g: Graph, xs: seq<Site>, h: Graph, i: nat)
    requires i < |xs| && NewAt(g, xs[i], FirstId(g, i), h)
    ensures var first := FirstId(g, i);
            At(h, first).target == EmptyLike == At(h, first + 1).target && At(h, first + 2).target == FusedQwen3
  {
    hide Redirected;
  }

  lemma TargetsKept(g: Graph, xs: seq<Site>, h: Graph, z: Id)
    requires Rewritten(g, xs, h) && z in g.defs && z !in Gone(g, xs, |xs|)
    ensures At(h, z).target == At(g, z).target
  {
    hide Applicable, LintClean, Graph.Valid, Gone, Attended, Applied, Redirected, EmptyNode, FusedNode;
    AppliedKeeps(g, xs, h, z);
    if z in Attended(xs, |xs|) {
      var i := AttendedIs(xs, |xs|, z);
      AppliedAt(g, xs, h, i);
      RedirectedMeta(g, xs[i], FirstId(g, i));
    }
  }

  /** Every KV update is the KV update of a site and every RoPE the RoPE of a site. */
  ghost predicate AllPlanned(g: Graph, xs: seq<Site>) {
    forall n | n in g.defs && (g.defs[n].target.Rope? || g.defs[n].target.KvUpdate?) :: n in Gone(g, xs, |xs|)
  }

  lemma CallsOfOne(g: Graph, xs: seq<Site>, h: Graph, z: Id)
    requires Rewritten(g, xs, h) && AllPlanned(g, xs) && z in g.defs
    ensures var rep := RepOf(Reps(g, xs, |xs|), z);
            && |Calls(rep, h, FusedQwen3)| == (if g.defs[z].target.FusedQwen3? || g.defs[z].target.KvUpdate? then 1 else 0)
            && |Calls(rep, h, KvUpdate)| == 0 && |Calls(rep, h, Rope)| == 0
  {
    hide LintClean, Graph.Valid, Applied, Applicable, Reps, Gone, Dead, NewAt;
    var rep := RepOf(Reps(g, xs, |xs|), z);
    if z in Gone(g, xs, |xs|) {
      var i := GoneIs(g, xs, |xs|, z);
      RepsExact(g, xs, |xs|, i, z);
      AppliedAt(g, xs, h, i);
      ThreeCalls(g, xs, h, i, FusedQwen3);
      ThreeCalls(g, xs, h, i, KvUpdate);
      ThreeCalls(g, xs, h, i, Rope);
      DeadTargets(g, xs, i, z);
    } else {
      RepsAre(g, xs, |xs|, z, z);
      TargetsKept(g, xs, h, z);
      assert rep == [z] && rep[1..] == [];
    }
  }

  lemma DeadTargets(g: Graph, xs: seq<Site>, i: nat, z: Id)
    requires Applicable(g, xs) && i < |xs| && z in Dead(g, xs[i]) && z in g.defs
    ensures !g.defs[z].target.FusedQwen3? && (g.defs[z].target.KvUpdate? <==> z == xs[i].c.kvUpdate)
  {
    OldDead(g, xs[i]);
    SiteUsable(g, xs, i);
    hide Applicable, Dead;
    UsableTargets(g, xs[i]);
    hide Usable;
  }

  /** The list has one more fused call for every KV update, and no KV update or RoPE. */
  lemma {:induction false} CallsAfter(g: Graph, xs: seq<Site>, h: Graph, order: seq<Id>)
    requires Rewritten(g, xs, h) && AllPlanned(g, xs) && Elems(order) <= g.defs.Keys
    ensures var after := Spliced(order, Reps(g, xs, |xs|));
            && |Calls(after, h, FusedQwen3)| == |Calls(order, g, FusedQwen3)| + |Calls(order, g, KvUpdate)|
            && |Calls(after, h, KvUpdate)| == 0 && |Calls(after, h, Rope)| == 0
  {
    hide Rewritten, AllPlanned, Reps;
    if order != [] {
      CallsAfter(g, xs, h, order[1..]);
      var (rep, tail) := (RepOf(Reps(g, xs, |xs|), order[0]), Spliced(order[1..], Reps(g, xs, |xs|)));
      CallsConcat(rep, tail, h, FusedQwen3);
      CallsConcat(rep, tail, h, KvUpdate);
      CallsConcat(rep, tail, h, Rope);
      CallsOfOne(g, xs, h, order[0]);
    }
  }

  lemma OldIsGone(g: Graph, expected: int, cs: seq<Candidate>, xs: seq<Site>, n: Id)
    requires g.Valid() && IsPlan(g, expected, cs) && SitesOf(g, cs, xs) && n in g.defs
    requires g.defs[n].target.Rope? || g.defs[n].target.KvUpdate?
    ensures n in Gone(g, xs, |xs|)
  {
    hide Wired, Dead;
    var (ropes, kvs) := (Calls(g.order, g, Rope), Calls(g.order, g, KvUpdate));
    CallsAre(g.order, g, Rope, n);
    CallsAre(g.order, g, KvUpdate, n);
    hide Calls;
    var i: nat;
    if g.defs[n].target.Rope? {
      i :| 0 <= i < |cs| && RopesOf(cs)[i] == n;
    } else {
      i :| 0 <= i < |kvs| && kvs[i] == n;
      assert SiteOf(g, kvs[i], cs[i]);
    }
    KvDead(g, xs[i]);
    IsGone(g, xs, |xs|, i, n);
  }

  /** A plan for `expected` sites leaves exactly that many new fused calls in place of all old ones. */
  lemma PlanReplacesAll(g: Graph, expected: int, cs: seq<Candidate>, h: Graph)
    requires PlanApplied(g, expected, cs, h)
    ensures |Calls(h.order, h, FusedQwen3)| == |Calls(g.order, g, FusedQwen3)| + expected
    ensures |Calls(h.order, h, KvUpdate)| == 0 && |Calls(h.order, h, Rope)| == 0
  {
    hide LintClean, IsPlan, Applicable, Gone, Applied, SitesOf, Graph.Valid;
    var xs := SitesIn(g, expected, cs);
    PlanApplicable(g, expected, cs);
    forall n | n in g.defs && (g.defs[n].target.Rope? || g.defs[n].target.KvUpdate?) { OldIsGone(g, expected, cs, xs, n); }
    OrderThere(g);
    CallsAfter(g, xs, h, g.order);
    OrderAfter(g, xs, h);
    PlanCounts(g, expected, cs);
  }

  lemma PlanCounts(g: Graph, expected: int, cs: seq<Candidate>)
    requires IsPlan(g, expected, cs)
    ensures |Calls(g.order, g, KvUpdate)| == |Calls(g.order, g, Rope)| == expected
  {
  }

  /** Planning looks at calls, users and metadata; the order of the list plays no part. */
  lemma SitesIgnoreOrder(g: Graph, h: Graph, x: Site)
    requires g.defs == h.defs
    ensures Wired(g, x) == Wired(h, x)
  {
    hide At, Graph.Users, HasTail, HasShape, IsBf16, SplitItem, SplitSizes, ViewBase, ArgOf, ByValue, Heads;
    SameNodes(g, h);
    assert Packed(g, x) == Packed(h, x) by { PackedIgnoresOrder(g, h, x); }
    hide Packed;
  }

  lemma PackedIgnoresOrder(g: Graph, h: Graph, x: Site)
    requires g.defs == h.defs
    ensures Packed(g, x) == Packed(h, x)
  {
    hide At, Graph.Users, HasTail, HasShape, IsBf16, SplitItem, SplitSizes, ViewBase, IsNorm, Heads;
    SameNodes(g, h);
  }

  /** The old norms and views all go exactly when the attention reads query and key once each
      and RoPE's other inputs are not what it rotates. */
  lemma OldNodesGoIff(g: Graph, x: Site)
    requires Usable(g, x)
    ensures (forall n | Own(x, n) :: n in Dead(g, x)) <==>
            (!KeepsArg(At(g, x.c.attention), x.q) && !KeepsArg(At(g, x.c.attention), x.k)
             && x.q.flat !in {x.c.positions, x.c.cosSin} && x.k.flat !in {x.c.positions, x.c.cosSin})
  {
    hide Uses, Usable, KeepsArg, FusedArg;
    FlatsInFused(g, x);
    PartsDiffer(g, x);
    assert Own(x, x.q.arg) && Own(x, x.k.arg) && Own(x, x.q.flat) && Own(x, x.k.flat);
    assert x.q.arg in Dead(g, x) <==> !KeepsArg(At(g, x.c.attention), x.q);
    assert x.k.arg in Dead(g, x) <==> !KeepsArg(At(g, x.c.attention), x.k);
    assert x.q.flat in Dead(g, x) <==> !KeepsFlat(At(g, x.c.attention), x.c, x.q);
    assert x.k.flat in Dead(g, x) <==> !KeepsFlat(At(g, x.c.attention), x.c, x.k);
  }

  lemma PartsDiffer(g: Graph, x: Site)
    requires Usable(g, x)
    ensures x.c.kvUpdate !in {x.q.arg, x.k.arg, x.q.flat, x.k.flat} && x.c.rope !in {x.q.arg, x.k.arg, x.q.flat, x.k.flat}
    ensures x.q.arg !in {x.k.arg, x.q.flat, x.k.flat} && x.k.arg !in {x.q.flat, x.k.flat} && x.q.flat != x.k.flat
    ensures x.q.norm !in {x.q.arg, x.k.arg, x.q.flat, x.k.flat} && x.k.norm !in {x.q.arg, x.k.arg, x.q.flat, x.k.flat}
  {
    ViewsUse(g, x);
    hide Uses;
    AsWired(g, x, x.c.attention);
    AsWired(g, x, x.q.arg);
    AsWired(g, x, x.k.arg);
    AsWired(g, x, x.c.kvUpdate);
  }

  lemma FlatsInFused(g: Graph, x: Site)
    requires Usable(g, x)
    ensures FusedArg(x.c, x.q.flat) <==> x.q.flat in {x.c.positions, x.c.cosSin}
    ensures FusedArg(x.c, x.k.flat) <==> x.k.flat in {x.c.positions, x.c.cosSin}
  {
    hide Uses, Leads;
    AsWired(g, x, x.q.norm);
    AsWired(g, x, x.k.norm);
    AsWired(g, x, x.c.kvUpdate);
  }
}
