/** What planning and applying a Qwen2 rewrite guarantee together. */
module Qwen2Outcome {
  import opened Options
  import opened FxGraph
  import opened EffectEval
  import opened Presplit
  import opened Qwen2Presplit
  import opened Qwen2Apply
  import opened Qwen2Meaning
  import opened Splice

  // ----- when lint passes -----

  function FusedArgs(c: Candidate): seq<Id> {
    [c.query, c.key, c.value, c.positions, c.cosSin]
  }

  /** The fused call stands where the KV update stood, so its arguments must be ready there. */
  ghost predicate Ready(g: Graph, c: Candidate) {
    forall x | x in FusedArgs(c) :: Precedes(g.order, x, c.kvUpdate)
  }

  /** The original node at whose place a node of the rewritten graph stands. */
  function Source(g: Graph, cs: seq<Candidate>, n: Id): Id {
    if g.next <= n < g.next + |cs| then cs[n - g.next].kvUpdate else n
  }

  ghost predicate Rewritten(g: Graph, cs: seq<Candidate>, h: Graph) {
    g.Valid() && h.Valid() && LintClean(g) && Applicable(g, cs) && Applied(g, cs, |cs|, h)
  }

  lemma SourceOwns(g: Graph, cs: seq<Candidate>, h: Graph, n: Id)
    requires Rewritten(g, cs, h) && n in h.defs
    ensures Source(g, cs, n) in g.defs
    ensures n in Elems(RepOf(Reps(g, cs, |cs|), Source(g, cs, n)))
    ensures Owned(g.order, Reps(g, cs, |cs|), n, Source(g, cs, n))
  {
    hide Applicable, Refs, FusedNode, LintClean, Rename, FusedAt, Reps, RepOf;
    SourceHolds(g, cs, h, n);
    var reps := Reps(g, cs, |cs|);
    forall z | z in Elems(g.order) && n in Elems(RepOf(reps, z))
      ensures z == Source(g, cs, n)
    {
      RepOwner(g, cs, h, n, z);
    }
  }

  lemma SourceHolds(g: Graph, cs: seq<Candidate>, h: Graph, n: Id)
    requires Rewritten(g, cs, h) && n in h.defs
    ensures Source(g, cs, n) in g.defs
    ensures n in Elems(RepOf(Reps(g, cs, |cs|), Source(g, cs, n)))
  {
    hide Applicable, Refs, FusedNode, LintClean, Rename, FusedAt, Reps;
    var rep := RepOf(Reps(g, cs, |cs|), Source(g, cs, n));
    if n >= g.next {
      RepsExact(g, cs, |cs|, n - g.next);
      Basics(g, cs, n - g.next);
    } else {
      RepsAre(g, cs, |cs|, n, n);
    }
    assert rep == [n] && rep[0] == n;
  }

  lemma RepOwner(g: Graph, cs: seq<Candidate>, h: Graph, n: Id, z: Id)
    requires Rewritten(g, cs, h) && n in h.defs && z in g.defs && n in Elems(RepOf(Reps(g, cs, |cs|), z))
    ensures z == Source(g, cs, n)
  {
    hide Applicable, Refs, FusedNode, LintClean, Rename, FusedAt;
    if z in Gone(cs, |cs|) {
      var k := GoneIs(cs, |cs|, z);
      RepsExact(g, cs, |cs|, k);
    } else {
      RepsAre(g, cs, |cs|, z, n);
    }
  }

  lemma OrderKept(g: Graph, cs: seq<Candidate>, h: Graph, a: Id, b: Id)
    requires Rewritten(g, cs, h) && a in h.defs && b in h.defs && Source(g, cs, a) != Source(g, cs, b)
    ensures Precedes(h.order, a, b) <==> Precedes(g.order, Source(g, cs, a), Source(g, cs, b))
  {
    SourceOwns(g, cs, h, a);
    SourceOwns(g, cs, h, b);
    hide Applicable, FusedAt, LintClean, Refs, Owned;
    PrecedesSpliced(g.order, Reps(g, cs, |cs|), a, Source(g, cs, a), b, Source(g, cs, b));
  }

  /** Arguments of a surviving node come from arguments it had. */
  lemma SurvivorArgs(g: Graph, cs: seq<Candidate>, h: Graph, a: Id, b: Id)
    requires Rewritten(g, cs, h) && b in g.defs && b in h.defs && a in Refs(h.defs[b])
    ensures Source(g, cs, a) in Refs(g.defs[b])
  {
    hide Refs, FusedNode, LintClean, Rename, Applicable, Spliced, Reps;
    if b in Attended(cs, |cs|) {
      var i := AttendedIs(cs, |cs|, b);
      assert FusedAt(g, cs[i], i, h);
      RedirectedArgs(g, cs, i, a);
    } else {
      assert h.defs[b] == g.defs[b];
      assert a in g.defs;
    }
  }

  lemma RedirectedArgs(g: Graph, cs: seq<Candidate>, i: nat, a: Id)
    requires g.Valid() && Applicable(g, cs) && i < |cs| && a in Refs(Redirected(g, cs[i], i))
    ensures cs[i].attention in g.defs && Source(g, cs, a) in Refs(g.defs[cs[i].attention])
  {
    assert Usable(g, cs[i]);
    RenameRefs(g.defs[cs[i].attention], map[cs[i].kvUpdate := FusedId(g, i)]);
  }

  lemma FusedReads(g: Graph, cs: seq<Candidate>, h: Graph, i: nat, x: Id)
    requires Rewritten(g, cs, h) && i < |cs|
    ensures FusedId(g, i) in h.defs && (x in Refs(h.defs[FusedId(g, i)]) <==> x in FusedArgs(cs[i]))
    ensures x in FusedArgs(cs[i]) ==> x in g.defs && x in h.defs && x != cs[i].kvUpdate
  {
    hide LintClean, Rename, Spliced, Reps, Applicable, Refs, FusedNode;
    assert FusedAt(g, cs[i], i, h);
    FusedRefs(cs[i], At(g, cs[i].kvUpdate).meta);
    assert x in {cs[i].query, cs[i].key, cs[i].value, cs[i].positions, cs[i].cosSin} <==> x in FusedArgs(cs[i]);
    if x in FusedArgs(cs[i]) {
      ArgsOld(g, cs, i, x);
      FusedDefined(h, FusedId(g, i), x);
    }
  }

  lemma FusedDefined(h: Graph, n: Id, x: Id)
    requires h.Valid() && n in h.defs && x in Refs(h.defs[n])
    ensures x in h.defs
  {
  }

  lemma ArgsOld(g: Graph, cs: seq<Candidate>, i: nat, x: Id)
    requires g.Valid() && Applicable(g, cs) && i < |cs| && x in FusedArgs(cs[i])
    ensures x in g.defs && x != cs[i].kvUpdate
  {
    var c := cs[i];
    assert Usable(g, c);
    assert [c.query, c.key, c.value][0] == c.query && [c.query, c.key, c.value][1] == c.key && [c.query, c.key, c.value][2] == c.value;
    assert [c.positions, c.cosSin][0] == c.positions && [c.positions, c.cosSin][1] == c.cosSin;
    if x == c.positions || x == c.cosSin {
      assert x in Refs(g.defs[c.rope]);
    } else {
      assert x in Refs(g.defs[c.attention]);
    }
  }

  /** Lint accepts the rewritten graph exactly when every fused call's arguments are ready. */
  lemma LintPassesIff(g: Graph, cs: seq<Candidate>, h: Graph)
    requires Rewritten(g, cs, h)
    ensures LintClean(h) <==> forall i | 0 <= i < |cs| :: Ready(g, cs[i])
  {
    hide Applicable, FusedAt, Refs, Precedes, NoDup, DefBeforeUse, FusedArgs;
    if LintClean(h) {
      forall i, x | 0 <= i < |cs| && x in FusedArgs(cs[i])
        ensures Precedes(g.order, x, cs[i].kvUpdate)
      {
        FusedReads(g, cs, h, i, x);
        UsesPrecede(h, x, FusedId(g, i));
        OrderKept(g, cs, h, x, FusedId(g, i));
      }
    } else if forall i | 0 <= i < |cs| :: Ready(g, cs[i]) {
      forall b, a | b in Elems(h.order) && a in Refs(h.defs[b])
        ensures Precedes(h.order, a, b)
      {
        ReadyOrder(g, cs, h, a, b);
      }
      PrecedesLint(h.order, h.defs, {});
    }
  }

  lemma ReadyOrder(g: Graph, cs: seq<Candidate>, h: Graph, a: Id, b: Id)
    requires Rewritten(g, cs, h) && b in h.defs && a in Refs(h.defs[b])
    requires forall i | 0 <= i < |cs| :: Ready(g, cs[i])
    ensures Precedes(h.order, a, b)
  {
    hide Applicable, FusedAt, Refs, Precedes, NoDup, DefBeforeUse, FusedArgs, LintClean;
    FusedDefined(h, b, a);
    if b in g.defs {
      SurvivorArgs(g, cs, h, a, b);
      UsesPrecede(g, Source(g, cs, a), b);
      OrderKept(g, cs, h, a, b);
    } else {
      var i := b - g.next;
      FusedReads(g, cs, h, i, a);
      assert Ready(g, cs[i]);
      OrderKept(g, cs, h, a, b);
    }
  }

  // ----- what a plan is worth -----

  /** Planning looks at calls, users and metadata; the order of the list plays no part, so a
      RoPE that comes after its KV update is accepted just the same. */
  lemma SitesIgnoreOrder(g: Graph, h: Graph, c: Candidate, b: Bases)
    requires g.defs == h.defs
    ensures Wired(g, c, b) == Wired(h, c, b)
  {
    hide At, Graph.Users, HasTail, IsBf16, SplitItem, SplitSizes, ViewBase, ArgOf, ByValue;
    SameNodes(g, h);
  }

  function BasesOf(g: Graph, c: Candidate): Bases {
    var m := MatchLayer(g, c.kvUpdate, c.attention);
    if m.Some? then m.value.1 else Bases(0, 0, 0, 0)
  }

  lemma SiteBases(g: Graph, c: Candidate)
    requires Site(g, c)
    ensures Wired(g, c, BasesOf(g, c))
  {
    var b :| Wired(g, c, b);
    LayerMatches(g, c, b);
  }

  lemma PlanBases(g: Graph, expected: int, cs: seq<Candidate>) returns (bs: seq<Bases>)
    requires IsPlan(g, expected, cs)
    ensures |bs| == |cs| && forall i | 0 <= i < |cs| :: Wired(g, cs[i], bs[i])
  {
    hide Wired, Site, Calls;
    bs := seq(|cs|, i requires 0 <= i < |cs| => BasesOf(g, cs[i]));
    forall i | 0 <= i < |cs|
      ensures Wired(g, cs[i], bs[i])
    {
      assert SiteOf(g, Calls(g.order, g, KvUpdate)[i], cs[i]);
      SiteBases(g, cs[i]);
    }
  }

  /** Applying a plan preserves the run. */
  lemma PlanPreservesRun(I: Interp, g: Graph, expected: int, cs: seq<Candidate>, h: Graph, s: State)
    requires g.Valid() && LintClean(g) && IsPlan(g, expected, cs)
    requires h.Valid() && LintClean(h) && Applied(g, cs, |cs|, h)
    requires forall i | 0 <= i < |cs| :: Sound(g, AliasesOf(g), cs[i])
    ensures Execute(I, h, s).cache == Execute(I, g, s).cache
    ensures Execute(I, h, s).log == Execute(I, g, s).log
    ensures forall r :: Execute(I, h, s).store(r) == Execute(I, g, s).store(r)
  {
    hide Wired, LintClean, Applied, Sound, Applicable, Graph.Valid, IsPlan;
    PlanApplicable(g, expected, cs);
    var bs := PlanBases(g, expected, cs);
    RunPreserved(I, g, cs, bs, h, s);
  }

  // ----- what is in the rewritten graph -----

  lemma TargetsKept(g: Graph, cs: seq<Candidate>, h: Graph, x: Id)
    requires Rewritten(g, cs, h) && x in g.defs && x !in Gone(cs, |cs|)
    ensures At(h, x).target == At(g, x).target
  {
    hide Applicable, LintClean, Graph.Valid, Refs, FusedNode;
    if x in Attended(cs, |cs|) {
      var i := AttendedIs(cs, |cs|, x);
      assert FusedAt(g, cs[i], i, h);
    }
  }

  /** The list has one more fused call for every KV update, and no KV update or RoPE. */
  lemma {:induction false} CallsAfter(g: Graph, cs: seq<Candidate>, h: Graph, order: seq<Id>)
    requires Rewritten(g, cs, h) && Elems(order) <= g.defs.Keys
    requires forall n | n in g.defs && (g.defs[n].target.Rope? || g.defs[n].target.KvUpdate?) :: n in Gone(cs, |cs|)
    ensures var after := Spliced(order, Reps(g, cs, |cs|));
            && |Calls(after, h, FusedQwen2)| == |Calls(order, g, FusedQwen2)| + |Calls(order, g, KvUpdate)|
            && Calls(after, h, KvUpdate) == [] && Calls(after, h, Rope) == []
  {
    hide Rewritten, Reps, Gone;
    if order != [] {
      CallsAfter(g, cs, h, order[1..]);
      var (rep, tail) := (RepOf(Reps(g, cs, |cs|), order[0]), Spliced(order[1..], Reps(g, cs, |cs|)));
      CallsConcat(rep, tail, h, FusedQwen2);
      CallsConcat(rep, tail, h, KvUpdate);
      CallsConcat(rep, tail, h, Rope);
      CallsOfOne(g, cs, h, order[0]);
    }
  }

  lemma CallsOfOne(g: Graph, cs: seq<Candidate>, h: Graph, x: Id)
    requires Rewritten(g, cs, h) && x in g.defs
    requires g.defs[x].target.Rope? || g.defs[x].target.KvUpdate? ==> x in Gone(cs, |cs|)
    ensures var rep := RepOf(Reps(g, cs, |cs|), x);
            && |Calls(rep, h, FusedQwen2)| == (if g.defs[x].target.FusedQwen2? || g.defs[x].target.KvUpdate? then 1 else 0)
            && Calls(rep, h, KvUpdate) == [] && Calls(rep, h, Rope) == []
  {
    hide LintClean, Graph.Valid, Refs, Applied, Reps;
    var rep := RepOf(Reps(g, cs, |cs|), x);
    if x in Gone(cs, |cs|) {
      var k := GoneIs(cs, |cs|, x);
      RepsExact(g, cs, |cs|, k);
      assert Usable(g, cs[k]);
      NewTarget(g, cs, h, k);
      assert rep == [] || (rep == [FusedId(g, k)] && rep[1..] == []);
    } else {
      RepsAre(g, cs, |cs|, x, x);
      TargetsKept(g, cs, h, x);
      assert rep == [x] && rep[1..] == [];
    }
  }

  lemma NewTarget(g: Graph, cs: seq<Candidate>, h: Graph, k: nat)
    requires Rewritten(g, cs, h) && k < |cs|
    ensures At(h, FusedId(g, k)).target.FusedQwen2?
  {
    hide Applicable, LintClean, Graph.Valid, Refs, Reps;
    assert FusedAt(g, cs[k], k, h);
  }

  /** A plan for `expected` sites leaves exactly that many new fused calls in place of all old ones. */
  lemma PlanReplacesAll(g: Graph, expected: int, cs: seq<Candidate>, h: Graph)
    requires g.Valid() && LintClean(g) && IsPlan(g, expected, cs) && h.Valid() && Applied(g, cs, |cs|, h)
    ensures |Calls(h.order, h, FusedQwen2)| == |Calls(g.order, g, FusedQwen2)| + expected
    ensures Calls(h.order, h, KvUpdate) == [] && Calls(h.order, h, Rope) == []
  {
    PlanApplicable(g, expected, cs);
    forall n | n in g.defs && (g.defs[n].target.Rope? || g.defs[n].target.KvUpdate?)
      ensures n in Gone(cs, |cs|)
    {
      OldIsGone(g, expected, cs, n);
    }
    hide LintClean, IsPlan, Applicable, Gone;
    CallsAfter(g, cs, h, g.order);
    assert |Calls(g.order, g, KvUpdate)| == expected by { PlanCounts(g, expected, cs); }
  }

  lemma PlanCounts(g: Graph, expected: int, cs: seq<Candidate>)
    requires IsPlan(g, expected, cs)
    ensures |Calls(g.order, g, KvUpdate)| == |Calls(g.order, g, Rope)| == expected
  {
  }

  lemma OldIsGone(g: Graph, expected: int, cs: seq<Candidate>, n: Id)
    requires g.Valid() && IsPlan(g, expected, cs) && n in g.defs
    requires g.defs[n].target.Rope? || g.defs[n].target.KvUpdate?
    ensures n in Gone(cs, |cs|)
  {
    var (ropes, kvs) := (Calls(g.order, g, Rope), Calls(g.order, g, KvUpdate));
    CallsAre(g.order, g, Rope, n);
    CallsAre(g.order, g, KvUpdate, n);
    hide Site, Calls;
    var i: nat;
    if g.defs[n].target.Rope? {
      i :| 0 <= i < |cs| && RopesOf(cs)[i] == n;
    } else {
      i :| 0 <= i < |kvs| && kvs[i] == n;
      assert SiteOf(g, kvs[i], cs[i]);
    }
    IsGone(cs, |cs|, i);
  }
}
