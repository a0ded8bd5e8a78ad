/** The rewritten Qwen3 graph runs as the original does. */
module Qwen3Meaning {
  import opened Options
  import opened FxGraph
  import opened EffectEval
  import opened Presplit
  import opened Qwen3Presplit
  import opened Qwen3Apply
  import opened Splice

  function Run(I: Interp, g: Graph, al: Aliases, n: Id, s: State): State {
    Exec(I, al, n, At(g, n), s)
  }

  // ----- what the premises of the rewrite are -----

  /** Nothing between `from` and the KV update writes what `a` or `b` reads. */
  ghost predicate Unwritten(g: Graph, al: Aliases, from: Id, kv: Id, a: Id, b: Id) {
    forall z | Precedes(g.order, from, z) && Precedes(g.order, z, kv) :: WritesNeither(g, al, z, a, b)
  }

  ghost predicate WritesNeither(g: Graph, al: Aliases, z: Id, a: Id, b: Id) {
    var written := Writes(al, z, At(g, z));
    RootOf(al, a) !in written && RootOf(al, b) !in written
  }

  /** Until the fused call runs, nothing changes what the norms and RoPE read. */
  ghost predicate Stable(g: Graph, al: Aliases, x: Site) {
    && Unwritten(g, al, x.q.norm, x.c.kvUpdate, x.q.head, x.q.weight)
    && Unwritten(g, al, x.k.norm, x.c.kvUpdate, x.k.head, x.k.weight)
    && Unwritten(g, al, x.c.rope, x.c.kvUpdate, x.c.positions, x.c.cosSin)
  }

  /** The attention uses query, key and KV update each for one argument, and RoPE's other
      inputs are not what it rotates. */
  ghost predicate Plain(g: Graph, x: Site) {
    var att := Visible(Stripped(At(g, x.c.attention)));
    && !KeepsArg(At(g, x.c.attention), x.q) && !KeepsArg(At(g, x.c.attention), x.k)
    && !FusedArg(x.c, x.q.flat) && !FusedArg(x.c, x.k.flat)
    && !Uses(att, x.c.kvUpdate)
  }

  ghost predicate Settled(g: Graph, al: Aliases, x: Site) {
    Stable(g, al, x) && Plain(g, x)
  }

  ghost predicate Sound(g: Graph, al: Aliases, x: Site) {
    Precedes(g.order, x.c.rope, x.c.kvUpdate) && Settled(g, al, x)
  }

  // ----- which nodes refer to the storages that the rewrite removes -----

  predicate InChain(w: Chain, m: Id) {
    m == w.norm || m == w.flat || m == w.arg
  }

  lemma AliasUses(node: Node)
    requires IsAlias(node)
    ensures Uses(node, node.args[0].n)
  {
    AliasBase(node);
  }

  lemma AliasRoot(al: Aliases, n: Id, node: Node)
    ensures AliasOf(n, node, al).root == if IsAlias(node) then RootOf(al, node.args[0].n) else n
  {
  }

  lemma NextRoot(g: Graph, al: Aliases, x: Site, w: Chain, m: Id)
    requires Labels(g, al) && Usable(g, x) && (w == x.q || w == x.k) && m in g.defs
    requires IsAlias(g.defs[m]) && RootOf(al, g.defs[m].args[0].n) == w.norm ==> InChain(w, g.defs[m].args[0].n)
    ensures RootOf(al, m) == w.norm ==> InChain(w, m)
  {
    hide Uses, Reads, Leads;
    AliasRoot(al, m, g.defs[m]);
    if IsAlias(g.defs[m]) {
      AliasUses(g.defs[m]);
      AsWired(g, x, m);
    }
  }

  lemma {:induction false} ChainRoots(g: Graph, al: Aliases, x: Site, w: Chain, todo: seq<Id>, seen: set<Id>, n: Id)
    requires Labels(g, al) && Usable(g, x) && (w == x.q || w == x.k)
    requires DefBeforeUse(todo, g.defs, seen) && n in Elems(todo) + seen
    requires forall m | m in seen :: RootOf(al, m) == w.norm ==> InChain(w, m)
    ensures RootOf(al, n) == w.norm ==> InChain(w, n)
    decreases |todo|
  {
    hide Labels, Usable;
    if n !in seen {
      var m := todo[0];
      if IsAlias(g.defs[m]) { AliasUses(g.defs[m]); }
      NextRoot(g, al, x, w, m);
      ChainRoots(g, al, x, w, todo[1..], seen + {m}, n);
    }
  }

  lemma {:induction false} RootsDefined(g: Graph, al: Aliases, todo: seq<Id>, seen: set<Id>, n: Id)
    requires Labels(g, al) && DefBeforeUse(todo, g.defs, seen) && n in Elems(todo) + seen
    requires forall m | m in seen :: RootOf(al, m) in g.defs
    ensures RootOf(al, n) in g.defs
    decreases |todo|
  {
    if n !in seen {
      var m := todo[0];
      AliasRoot(al, m, g.defs[m]);
      if IsAlias(g.defs[m]) { AliasUses(g.defs[m]); }
      RootsDefined(g, al, todo[1..], seen + {m}, n);
    }
  }

  ghost predicate Setting(g: Graph, al: Aliases, xs: seq<Site>) {
    && g.Valid() && LintClean(g) && Labels(g, al) && Applicable(g, xs) && (forall n | n in al :: n in g.defs)
    && forall i | 0 <= i < |xs| :: Wired(g, xs[i]) && Sound(g, al, xs[i])
  }

  /** The storages in which the two runs differ: old norms and new outputs. */
  function Bad(g: Graph, xs: seq<Site>, k: nat): set<Id>
    requires k <= |xs|
  {
    if k == 0 then {}
    else Bad(g, xs, k - 1) + {xs[k - 1].q.norm, xs[k - 1].k.norm, FirstId(g, k - 1), FirstId(g, k - 1) + 1}
  }

  predicate BadOf(g: Graph, xs: seq<Site>, i: int, r: Id)
    requires 0 <= i < |xs|
  {
    r == xs[i].q.norm || r == xs[i].k.norm || r == FirstId(g, i) || r == FirstId(g, i) + 1
  }

  lemma {:induction false} BadIs(g: Graph, xs: seq<Site>, k: nat, r: Id) returns (i: nat)
    requires k <= |xs| && r in Bad(g, xs, k)
    ensures i < k && BadOf(g, xs, i, r)
  {
    i := k - 1;
    if !BadOf(g, xs, i, r) { i := BadIs(g, xs, k - 1, r); }
  }

  lemma {:induction false} IsBad(g: Graph, xs: seq<Site>, k: nat, i: nat, r: Id)
    requires i < k <= |xs|
    ensures BadOf(g, xs, i, r) ==> r in Bad(g, xs, k)
  {
    if i < k - 1 { IsBad(g, xs, k - 1, i, r); }
  }

  /** Outside its own chains no node refers to such a storage. */
  lemma GoodRoot(g: Graph, al: Aliases, xs: seq<Site>, m: Id)
    requires Setting(g, al, xs) && m in g.defs
    requires forall i | 0 <= i < |xs| :: !InChain(xs[i].q, m) && !InChain(xs[i].k, m)
    ensures RootOf(al, m) !in Bad(g, xs, |xs|)
  {
    hide Wired, Labels, Graph.Valid, LintClean, Usable, Sound;
    if RootOf(al, m) in Bad(g, xs, |xs|) {
      var i := BadIs(g, xs, |xs|, RootOf(al, m));
      RootFacts(g, al, xs, i, m);
    }
  }

  lemma RootFacts(g: Graph, al: Aliases, xs: seq<Site>, i: nat, m: Id)
    requires Setting(g, al, xs) && m in g.defs && i < |xs|
    ensures RootOf(al, m) < g.next
    ensures RootOf(al, m) == xs[i].q.norm ==> InChain(xs[i].q, m)
    ensures RootOf(al, m) == xs[i].k.norm ==> InChain(xs[i].k, m)
  {
    assert Usable(g, xs[i]) && m in Elems(g.order);
    hide Wired, Labels, Sound, Applicable, Usable;
    RootsDefined(g, al, g.order, {}, m);
    OldIds(g, RootOf(al, m));
    ChainRoots(g, al, xs[i], xs[i].q, g.order, {}, m);
    ChainRoots(g, al, xs[i], xs[i].k, g.order, {}, m);
  }

  /** A node outside every site touches only storages that both runs share. */
  lemma OutsiderTouches(g: Graph, al: Aliases, xs: seq<Site>, z: Id, r: Id)
    requires Setting(g, al, xs) && z in g.defs && forall i | 0 <= i < |xs| :: !Around(xs[i], z)
    requires r in Touched(al, z, At(g, z))
    ensures r !in Bad(g, xs, |xs|)
  {
    hide Wired, Labels, LintClean, Usable, Sound, Around;
    if r == z {
      NotBad(g, xs, z);
    } else {
      var m :| m in Refs(Visible(g.defs[z])) && r == RootOf(al, m);
      VisibleRefs(g.defs[z]);
      OutsiderRef(g, xs, z, m);
      GoodRoot(g, al, xs, m);
    }
  }

  lemma NotBad(g: Graph, xs: seq<Site>, z: Id)
    requires g.Valid() && z in g.defs && forall i | 0 <= i < |xs| :: !Around(xs[i], z)
    ensures z !in Bad(g, xs, |xs|)
  {
    if z in Bad(g, xs, |xs|) {
      var i := BadIs(g, xs, |xs|, z);
    }
  }

  lemma OutsiderRef(g: Graph, xs: seq<Site>, z: Id, m: Id)
    requires g.Valid() && Applicable(g, xs) && z in g.defs && m in Refs(g.defs[z])
    requires forall i | 0 <= i < |xs| :: !Around(xs[i], z)
    ensures m in g.defs && forall i | 0 <= i < |xs| :: !InChain(xs[i].q, m) && !InChain(xs[i].k, m)
  {
    hide Usable;
    UsesIs(g.defs[z], m);
    forall i | 0 <= i < |xs|
      ensures !InChain(xs[i].q, m) && !InChain(xs[i].k, m)
    {
      assert !Around(xs[i], z);
      if Own(xs[i], m) { UsersWithin(g, xs[i], m, z); }
    }
  }

  // ----- where the two runs stand -----

  function NormOf(I: Interp, al: Aliases, t: State, w: Chain): Data {
    I.norm(Tensor(Read(I, t, RefOf(al, w.head))), NORM_SHAPE, Tensor(Read(I, t, RefOf(al, w.weight))), EPS_VAL)
  }

  function BothOf(I: Interp, al: Aliases, t: State, x: Site): (Data, Data) {
    I.rope(Tensor(Read(I, t, RefOf(al, x.c.positions))), NormOf(I, al, t, x.q), NormOf(I, al, t, x.k),
           HEAD_128, Tensor(Read(I, t, RefOf(al, x.c.cosSin))), TRUE_VAL)
  }

  /** A norm that has run holds what the fused call would compute now. */
  ghost predicate NormRel(I: Interp, al: Aliases, x: Site, w: Chain, done: seq<Id>, s: State, t: State) {
    w.norm in Elems(done) && x.c.rope !in Elems(done) ==> s.store(w.norm) == NormOf(I, al, t, w)
  }

  ghost predicate SiteRel(I: Interp, al: Aliases, x: Site, first: Id, done: seq<Id>, s: State, t: State) {
    && NormRel(I, al, x, x.q, done, s, t) && NormRel(I, al, x, x.k, done, s, t)
    && (x.c.rope in Elems(done) && x.c.kvUpdate !in Elems(done) ==>
          (s.store(x.q.norm), s.store(x.k.norm)) == BothOf(I, al, t, x))
    && (x.c.kvUpdate in Elems(done) ==> t.store(first) == s.store(x.q.norm) && t.store(first + 1) == s.store(x.k.norm))
  }

  ghost predicate Related(I: Interp, g: Graph, al: Aliases, xs: seq<Site>, done: seq<Id>, s: State, t: State) {
    && Agree(s, t, Bad(g, xs, |xs|))
    && forall i | 0 <= i < |xs| :: SiteRel(I, al, xs[i], FirstId(g, i), done, s, t)
  }

  lemma Later(done: seq<Id>, z: Id, n: Id)
    ensures n in Elems(done + [z]) <==> n in Elems(done) || n == z
  {
    ElemsSplit(done, [z], n);
    assert [z][0] == z && [z][1..] == [];
  }

  // ----- the order within a site -----

  /** `done`, then `z`, then `rest` is the whole list. */
  ghost predicate Now(g: Graph, done: seq<Id>, z: Id, rest: seq<Id>) {
    g.Valid() && LintClean(g) && g.order == done + [z] + rest
  }

  lemma UseOrder(g: Graph, done: seq<Id>, z: Id, rest: seq<Id>, a: Id, b: Id)
    requires Now(g, done, z, rest) && b in g.defs && Uses(g.defs[b], a)
    ensures b in Elems(done) ==> a in Elems(done)
    ensures z == b ==> a in Elems(done)
    ensures z == a ==> b !in Elems(done)
  {
    UsesIs(g.defs[b], a);
    RefPrecedes(g.order, g.defs, {}, a, b);
    hide LintClean, Refs, Graph.Valid;
    assert NoDup(g.order) by { ValidOrder(g); }
    Turns(g.order, done, z, rest, a, b);
    assert g.order == done + ([z] + rest);
    if b in Elems(done) { PrecedesDone(done, [z] + rest, a, b); }
  }

  lemma ValidOrder(g: Graph)
    requires g.Valid()
    ensures NoDup(g.order) && Elems(g.order) == g.defs.Keys
  {
  }

  lemma KvOrder(g: Graph, x: Site, done: seq<Id>, z: Id, rest: seq<Id>)
    requires Now(g, done, z, rest) && Precedes(g.order, x.c.rope, x.c.kvUpdate)
    ensures x.c.kvUpdate in Elems(done) ==> x.c.rope in Elems(done)
    ensures z == x.c.kvUpdate ==> x.c.rope in Elems(done) && x.c.kvUpdate !in Elems(done)
    ensures z == x.c.rope ==> x.c.kvUpdate !in Elems(done) && x.c.rope !in Elems(done)
  {
    ValidOrder(g);
    hide LintClean, Graph.Valid, NoDup, Elems, Precedes;
    Turns(g.order, done, z, rest, x.c.rope, x.c.kvUpdate);
    assert g.order == done + ([z] + rest);
    if x.c.kvUpdate in Elems(done) { PrecedesDone(done, [z] + rest, x.c.rope, x.c.kvUpdate); }
  }

  /** A norm precedes its RoPE. */
  lemma ChainOrder(g: Graph, x: Site, w: Chain, done: seq<Id>, z: Id, rest: seq<Id>)
    requires Now(g, done, z, rest) && Wired(g, x) && (w == x.q || w == x.k)
    ensures x.c.rope in Elems(done) ==> w.norm in Elems(done)
    ensures z == x.c.rope ==> w.norm in Elems(done)
    ensures z == w.norm ==> x.c.rope !in Elems(done) && w.norm !in Elems(done)
  {
    RopeUsesFlat(g, x, w);
    hide Wired, Uses, LintClean, Graph.Valid;
    UseOrder(g, done, z, rest, w.flat, x.c.rope);
    UseOrder(g, done, z, rest, w.norm, w.flat);
    NowNotDone(g, done, z, rest);
  }

  lemma NowNotDone(g: Graph, done: seq<Id>, z: Id, rest: seq<Id>)
    requires Now(g, done, z, rest)
    ensures z !in Elems(done)
  {
    ValidOrder(g);
    assert g.order == done + ([z] + rest) && ([z] + rest)[0] == z;
    NoDupSplit(done, [z] + rest, z);
  }

  lemma RopeUsesFlat(g: Graph, x: Site, w: Chain)
    requires Wired(g, x) && (w == x.q || w == x.k)
    ensures x.c.rope in g.defs && Uses(g.defs[x.c.rope], w.flat)
    ensures w.flat in g.defs && Uses(g.defs[w.flat], w.norm)
  {
    hide GoodHead, SplitItem, SplitSizes, Heads, HasTail, Private, IsBf16, Refs;
    ArgIsRef(At(g, x.c.rope), 1, "query", x.q.flat);
    ArgIsRef(At(g, x.c.rope), 2, "key", x.k.flat);
    UsesIs(At(g, x.c.rope), w.flat);
    ViewUsed(g, w.flat, w.norm);
  }

  // ----- a step that leaves a site alone -----

  ghost predicate InputsKept(al: Aliases, a: Id, b: Id, t: State, t': State) {
    t'.store(RootOf(al, a)) == t.store(RootOf(al, a)) && t'.store(RootOf(al, b)) == t.store(RootOf(al, b))
  }

  lemma NormKept(I: Interp, al: Aliases, w: Chain, t: State, t': State)
    requires InputsKept(al, w.head, w.weight, t, t')
    ensures NormOf(I, al, t', w) == NormOf(I, al, t, w)
  {
  }

  lemma BothKept(I: Interp, al: Aliases, x: Site, t: State, t': State)
    requires InputsKept(al, x.q.head, x.q.weight, t, t') && InputsKept(al, x.k.head, x.k.weight, t, t')
    requires InputsKept(al, x.c.positions, x.c.cosSin, t, t')
    ensures BothOf(I, al, t', x) == BothOf(I, al, t, x)
  {
    NormKept(I, al, x.q, t, t');
    NormKept(I, al, x.k, t, t');
  }

  /** The site's turn does not come and its storages and live inputs stay. */
  lemma SiteKept(I: Interp, al: Aliases, x: Site, first: Id, done: seq<Id>, z: Id, s: State, t: State, s': State, t': State)
    requires SiteRel(I, al, x, first, done, s, t)
    requires z != x.q.norm && z != x.k.norm && z != x.c.rope && z != x.c.kvUpdate
    requires s'.store(x.q.norm) == s.store(x.q.norm) && s'.store(x.k.norm) == s.store(x.k.norm)
    requires t'.store(first) == t.store(first) && t'.store(first + 1) == t.store(first + 1)
    requires x.c.rope in Elems(done) ==> x.q.norm in Elems(done) && x.k.norm in Elems(done)
    requires x.c.kvUpdate in Elems(done) ==> x.c.rope in Elems(done)
    requires x.q.norm in Elems(done) && x.c.kvUpdate !in Elems(done) ==> InputsKept(al, x.q.head, x.q.weight, t, t')
    requires x.k.norm in Elems(done) && x.c.kvUpdate !in Elems(done) ==> InputsKept(al, x.k.head, x.k.weight, t, t')
    requires x.c.rope in Elems(done) && x.c.kvUpdate !in Elems(done) ==> InputsKept(al, x.c.positions, x.c.cosSin, t, t')
    ensures SiteRel(I, al, x, first, done + [z], s', t')
  {
    Later(done, z, x.q.norm);
    Later(done, z, x.k.norm);
    Later(done, z, x.c.rope);
    Later(done, z, x.c.kvUpdate);
    hide NormOf, BothOf, Elems, InputsKept;
    if x.c.kvUpdate !in Elems(done) {
      if x.c.rope in Elems(done) {
        BothKept(I, al, x, t, t');
      } else {
        if x.q.norm in Elems(done) { NormKept(I, al, x.q, t, t'); }
        if x.k.norm in Elems(done) { NormKept(I, al, x.k, t, t'); }
      }
    }
  }

  // ----- every other site through one step -----

  /** A storage of the original changes in the rewritten run only if `z` writes it. */
  ghost predicate OnlyWrites(g: Graph, al: Aliases, z: Id, t: State, t': State) {
    forall r | r in g.defs && r !in Writes(al, z, At(g, z)) :: t'.store(r) == t.store(r)
  }

  lemma InputsStay(g: Graph, al: Aliases, xs: seq<Site>, j: nat, done: seq<Id>, z: Id, rest: seq<Id>, from: Id, a: Id, b: Id,
                   t: State, t': State)
    requires Setting(g, al, xs) && Now(g, done, z, rest) && j < |xs| && a in g.defs && b in g.defs
    requires Unwritten(g, al, from, xs[j].c.kvUpdate, a, b) && OnlyWrites(g, al, z, t, t')
    requires from in Elems(done) && xs[j].c.kvUpdate !in Elems(done) && z != xs[j].c.kvUpdate
    ensures InputsKept(al, a, b, t, t')
  {
    hide Wired, Labels, LintClean, Sound, Writes;
    ValidOrder(g);
    var kv := xs[j].c.kvUpdate;
    SiteBasics(g, xs, j, kv);
    RootFacts(g, al, xs, j, a);
    RootFacts(g, al, xs, j, b);
    RootsOld(g, al, xs, a);
    RootsOld(g, al, xs, b);
    hide Applicable, Graph.Valid, NoDup, Elems, Precedes;
    NowBetween(g.order, done, z, rest, from, kv);
    assert WritesNeither(g, al, z, a, b);
  }

  lemma RootsOld(g: Graph, al: Aliases, xs: seq<Site>, m: Id)
    requires Setting(g, al, xs) && m in g.defs
    ensures RootOf(al, m) in g.defs
  {
    ValidOrder(g);
    hide Applicable, Labels;
    RootsDefined(g, al, g.order, {}, m);
  }

  lemma InputsDefined(g: Graph, xs: seq<Site>, j: nat)
    requires g.Valid() && Applicable(g, xs) && j < |xs|
    ensures var x := xs[j]; x.q.head in g.defs && x.q.weight in g.defs && x.k.head in g.defs && x.k.weight in g.defs
                            && x.c.positions in g.defs && x.c.cosSin in g.defs
  {
    assert Usable(g, xs[j]);
    hide UsedAsWired, Leads;
    var x := xs[j];
    UseDefined(g, x.q.norm, x.q.head);
    UseDefined(g, x.q.norm, x.q.weight);
    UseDefined(g, x.k.norm, x.k.head);
    UseDefined(g, x.k.norm, x.k.weight);
    UseDefined(g, x.c.rope, x.c.positions);
    UseDefined(g, x.c.rope, x.c.cosSin);
  }

  lemma SiteFacts(g: Graph, al: Aliases, xs: seq<Site>, j: nat)
    requires Setting(g, al, xs) && j < |xs|
    ensures g.Valid() && Applicable(g, xs) && Wired(g, xs[j])
    ensures var x := xs[j];
            && Precedes(g.order, x.c.rope, x.c.kvUpdate)
            && Unwritten(g, al, x.q.norm, x.c.kvUpdate, x.q.head, x.q.weight)
            && Unwritten(g, al, x.k.norm, x.c.kvUpdate, x.k.head, x.k.weight)
            && Unwritten(g, al, x.c.rope, x.c.kvUpdate, x.c.positions, x.c.cosSin)
  {
    hide Wired, Unwritten, Applicable, Graph.Valid;
    assert Sound(g, al, xs[j]);
  }

  lemma OtherSite(I: Interp, g: Graph, al: Aliases, xs: seq<Site>, j: nat, done: seq<Id>, z: Id, rest: seq<Id>,
                  s: State, t: State, s': State, t': State)
    requires Setting(g, al, xs) && Now(g, done, z, rest) && j < |xs|
    requires SiteRel(I, al, xs[j], FirstId(g, j), done, s, t)
    requires z != xs[j].q.norm && z != xs[j].k.norm && z != xs[j].c.rope && z != xs[j].c.kvUpdate
    requires s'.store(xs[j].q.norm) == s.store(xs[j].q.norm) && s'.store(xs[j].k.norm) == s.store(xs[j].k.norm)
    requires t'.store(FirstId(g, j)) == t.store(FirstId(g, j)) && t'.store(FirstId(g, j) + 1) == t.store(FirstId(g, j) + 1)
    requires OnlyWrites(g, al, z, t, t')
    ensures SiteRel(I, al, xs[j], FirstId(g, j), done + [z], s', t')
  {
    hide Setting, Wired, SiteRel, Unwritten, OnlyWrites, InputsKept, Applicable, Graph.Valid, Now, Precedes, Elems;
    var x := xs[j];
    SiteFacts(g, al, xs, j);
    InputsDefined(g, xs, j);
    ChainOrder(g, x, x.q, done, z, rest);
    ChainOrder(g, x, x.k, done, z, rest);
    KvOrder(g, x, done, z, rest);
    if x.c.kvUpdate !in Elems(done) {
      if x.q.norm in Elems(done) { InputsStay(g, al, xs, j, done, z, rest, x.q.norm, x.q.head, x.q.weight, t, t'); }
      if x.k.norm in Elems(done) { InputsStay(g, al, xs, j, done, z, rest, x.k.norm, x.k.head, x.k.weight, t, t'); }
      if x.c.rope in Elems(done) { InputsStay(g, al, xs, j, done, z, rest, x.c.rope, x.c.positions, x.c.cosSin, t, t'); }
    }
    SiteKept(I, al, x, FirstId(g, j), done, z, s, t, s', t');
  }

  // ----- a step outside every site -----

  lemma StepOutsider(I: Interp, g: Graph, al: Aliases, xs: seq<Site>, done: seq<Id>, z: Id, rest: seq<Id>, s: State, t: State)
    requires Setting(g, al, xs) && Now(g, done, z, rest) && z in g.defs && Related(I, g, al, xs, done, s, t)
    requires forall i | 0 <= i < |xs| :: !Around(xs[i], z)
    ensures Related(I, g, al, xs, done + [z], Run(I, g, al, z, s), Run(I, g, al, z, t))
  {
    hide Setting, Touched, Writes, Exec, SiteRel, Now, Bad, Agree;
    var bad := Bad(g, xs, |xs|);
    var (s', t') := (Run(I, g, al, z, s), Run(I, g, al, z, t));
    forall r | r in Touched(al, z, At(g, z))
      ensures r !in bad
    {
      OutsiderTouches(g, al, xs, z, r);
    }
    ExecAgrees(I, al, z, At(g, z), s, t, bad);
    forall r | r !in Writes(al, z, At(g, z))
      ensures s'.store(r) == s.store(r) && t'.store(r) == t.store(r)
    {
      ExecFrame(I, al, z, At(g, z), s, r);
      ExecFrame(I, al, z, At(g, z), t, r);
    }
    forall j: nat | j < |xs|
      ensures SiteRel(I, al, xs[j], FirstId(g, j), done + [z], s', t')
    {
      assert !Around(xs[j], z);
      forall r | BadOf(g, xs, j, r)
        ensures r !in Writes(al, z, At(g, z))
      {
        IsBad(g, xs, |xs|, j, r);
        if r in Writes(al, z, At(g, z)) { WritesTouched(al, z, At(g, z), r); }
      }
      OtherSite(I, g, al, xs, j, done, z, rest, s, t, s', t');
    }
  }

  /** Sites other than `i` when only `i`'s storages and outputs change. */
  lemma OthersKept(I: Interp, g: Graph, al: Aliases, xs: seq<Site>, i: nat, done: seq<Id>, z: Id, rest: seq<Id>,
                   s: State, t: State, s': State, t': State)
    requires Setting(g, al, xs) && Now(g, done, z, rest) && i < |xs| && Around(xs[i], z) && Related(I, g, al, xs, done, s, t)
    requires forall r | !BadOf(g, xs, i, r) && r in Bad(g, xs, |xs|) :: s'.store(r) == s.store(r) && t'.store(r) == t.store(r)
    requires OnlyWrites(g, al, z, t, t')
    ensures forall j | 0 <= j < |xs| && j != i :: SiteRel(I, al, xs[j], FirstId(g, j), done + [z], s', t')
  {
    hide Setting, SiteRel, Now, Bad, Agree, OnlyWrites, BadOf, Around;
    forall j: nat | j < |xs| && j != i
      ensures SiteRel(I, al, xs[j], FirstId(g, j), done + [z], s', t')
    {
      BadApart(g, al, xs, i, j);
      IsBadOf(g, xs, j);
      NotAround(g, al, xs, i, j, z);
      OtherSite(I, g, al, xs, j, done, z, rest, s, t, s', t');
    }
  }

  lemma IsBadOf(g: Graph, xs: seq<Site>, j: nat)
    requires j < |xs|
    ensures BadOf(g, xs, j, xs[j].q.norm) && BadOf(g, xs, j, xs[j].k.norm)
    ensures BadOf(g, xs, j, FirstId(g, j)) && BadOf(g, xs, j, FirstId(g, j) + 1)
  {
  }

  lemma NotAround(g: Graph, al: Aliases, xs: seq<Site>, i: nat, j: nat, z: Id)
    requires Setting(g, al, xs) && i < |xs| && j < |xs| && i != j && Around(xs[i], z)
    ensures z != xs[j].q.norm && z != xs[j].k.norm && z != xs[j].c.rope && z != xs[j].c.kvUpdate
  {
    SiteFacts(g, al, xs, i);
    hide Setting, Applicable;
    SitesForeign(g, xs, i, j);
    SitesApart(g, xs[i], xs[j], z);
  }

  /** The storages of different sites differ. */
  lemma BadApart(g: Graph, al: Aliases, xs: seq<Site>, i: nat, j: nat)
    requires Setting(g, al, xs) && i < |xs| && j < |xs| && i != j
    ensures forall r | BadOf(g, xs, j, r) :: !BadOf(g, xs, i, r) && r in Bad(g, xs, |xs|)
  {
    SiteFacts(g, al, xs, i);
    hide Setting, Applicable, Bad, BadOf;
    forall r | BadOf(g, xs, j, r)
      ensures !BadOf(g, xs, i, r) && r in Bad(g, xs, |xs|)
    {
      IsBad(g, xs, |xs|, j, r);
      OneOwner(g, xs, i, j, r);
    }
  }

  lemma OneOwner(g: Graph, xs: seq<Site>, i: nat, j: nat, r: Id)
    requires g.Valid() && Applicable(g, xs) && i < |xs| && j < |xs| && i != j && BadOf(g, xs, j, r)
    ensures !BadOf(g, xs, i, r)
  {
    hide Applicable, Graph.Valid, Around;
    NormsAround(g, xs, i);
    NormsAround(g, xs, j);
    if r == xs[j].q.norm || r == xs[j].k.norm {
      SitesForeign(g, xs, i, j);
      SitesApart(g, xs[i], xs[j], r);
    }
  }

  lemma NormsAround(g: Graph, xs: seq<Site>, i: nat)
    requires g.Valid() && Applicable(g, xs) && i < |xs|
    ensures Around(xs[i], xs[i].q.norm) && Around(xs[i], xs[i].k.norm)
    ensures xs[i].q.norm < g.next && xs[i].k.norm < g.next
  {
    hide Applicable, Graph.Valid;
    SiteBasics(g, xs, i, xs[i].q.norm);
    SiteBasics(g, xs, i, xs[i].k.norm);
  }

  // ----- the calls of a site -----

  lemma ChainRefs(g: Graph, al: Aliases, w: Chain)
    requires Labels(g, al) && IsChain(g, w) && w.arg in g.defs && w.flat in g.defs && w.norm in g.defs
    ensures RefOf(al, w.norm) == RefOf(al, w.flat) == RefOf(al, w.arg) == Ref(w.norm, [])
  {
    assert RefOf(al, w.norm) == AliasOf(w.norm, g.defs[w.norm], al);
    assert RefOf(al, w.flat) == AliasOf(w.flat, g.defs[w.flat], al);
    assert RefOf(al, w.arg) == AliasOf(w.arg, g.defs[w.arg], al);
  }

  lemma NormRun(I: Interp, g: Graph, al: Aliases, w: Chain, s: State)
    requires IsNorm(At(g, w.norm), w.head, w.weight)
    ensures Run(I, g, al, w.norm, s) == Written(I, s, Ref(w.norm, []), NormOf(I, al, s, w))
  {
    hide Written, Read;
    assert ByValue(IntsArg([128])) == IntsArg([128]) && ByValue(RealArg(0.000001)) == RealArg(0.000001);
  }

  lemma RopeRun(I: Interp, g: Graph, al: Aliases, x: Site, s: State)
    requires Rotates(g, x) && RefOf(al, x.q.flat) == Ref(x.q.norm, []) && RefOf(al, x.k.flat) == Ref(x.k.norm, [])
    ensures Run(I, g, al, x.c.rope, s) ==
            var out := I.rope(Tensor(Read(I, s, RefOf(al, x.c.positions))), s.store(x.q.norm), s.store(x.k.norm),
                              HEAD_128, Tensor(Read(I, s, RefOf(al, x.c.cosSin))), TRUE_VAL);
            Written(I, Written(I, s, Ref(x.q.norm, []), out.0), Ref(x.k.norm, []), out.1)
  {
    hide Written, RefOf;
    assert ByValue(BoolArg(true)) == RealArg(1.0) && ByValue(IntArg(128)) == RealArg(128.0);
  }

  lemma KvRun(I: Interp, g: Graph, al: Aliases, x: Site, s: State)
    requires ReadsLayer(g, x) && RefOf(al, x.k.arg) == Ref(x.k.norm, [])
    ensures Run(I, g, al, x.c.kvUpdate, s) ==
            Insert(I, s, ArgVal(I, al, s, x.c.layer), Tensor(s.store(x.k.norm)), Tensor(Read(I, s, RefOf(al, x.c.value))))
  {
    hide Insert, RefOf;
  }

  lemma EmptyRun(I: Interp, al: Aliases, n: Id, head: Id, meta: Option<TensorMeta>, s: State)
    ensures var s' := Exec(I, al, n, EmptyNode(head, meta), s);
            s'.cache == s.cache && s'.log == s.log && forall r | r != n :: s'.store(r) == s.store(r)
  {
    assert Mutated(al, EmptyNode(head, meta)) == {};
  }

  lemma FusedRun(I: Interp, al: Aliases, x: Site, n: Id, qOut: Id, kOut: Id, meta: Option<TensorMeta>, s: State)
    requires Names(x) && qOut != kOut && RefOf(al, qOut) == Ref(qOut, []) && RefOf(al, kOut) == Ref(kOut, [])
    ensures var out := BothOf(I, al, s, x);
            var s' := Written(I, Written(I, s, Ref(qOut, []), out.0), Ref(kOut, []), out.1);
            Exec(I, al, n, FusedNode(x.c, qOut, kOut, meta), s) ==
            Insert(I, s', ArgVal(I, al, s', x.c.layer), Tensor(out.1), Tensor(Read(I, s', RefOf(al, x.c.value))))
  {
    hide Insert, RefOf, DenseQwen3;
    FusedKws(x.c, qOut, kOut, meta);
    FusedRest(x.c, qOut, kOut, meta);
    FusedIsDense(x.c, qOut, kOut, meta);
  }

  lemma FusedKws(c: Candidate, qOut: Id, kOut: Id, meta: Option<TensorMeta>)
    ensures var node := FusedNode(c, qOut, kOut, meta);
            && Kw(node, "q") == Some(NodeArg(c.qHead)) && Kw(node, "k") == Some(NodeArg(c.kHead))
            && Kw(node, "v") == Some(NodeArg(c.value)) && Kw(node, "layer_name") == Some(c.layer)
            && Kw(node, "q_weight") == Some(NodeArg(c.qWeight)) && Kw(node, "k_weight") == Some(NodeArg(c.kWeight))
  {
  }

  lemma FusedRest(c: Candidate, qOut: Id, kOut: Id, meta: Option<TensorMeta>)
    ensures var node := FusedNode(c, qOut, kOut, meta);
            && Kw(node, "positions") == Some(NodeArg(c.positions)) && Kw(node, "cos_sin_cache") == Some(NodeArg(c.cosSin))
            && Kw(node, "q_out") == Some(NodeArg(qOut)) && Kw(node, "k_out") == Some(NodeArg(kOut))
  {
  }

  lemma FusedIsDense(c: Candidate, qOut: Id, kOut: Id, meta: Option<TensorMeta>)
    ensures DenseQwen3(FusedNode(c, qOut, kOut, meta))
  {
  }

  // ----- a step inside a site -----

  lemma ChainOf(g: Graph, al: Aliases, xs: seq<Site>, i: nat, w: Chain)
    requires Setting(g, al, xs) && i < |xs| && (w == xs[i].q || w == xs[i].k)
    ensures RefOf(al, w.norm) == RefOf(al, w.flat) == RefOf(al, w.arg) == Ref(w.norm, [])
    ensures IsNorm(At(g, w.norm), w.head, w.weight) && w.norm in g.defs
  {
    assert Wired(g, xs[i]) && Usable(g, xs[i]);
    hide Applicable, GoodHead, SplitItem, SplitSizes, Heads, HasTail, Private, IsBf16, UsedAsWired, Reads;
    ChainRefs(g, al, w);
  }

  lemma InputsGood(g: Graph, al: Aliases, xs: seq<Site>, i: nat, m: Id)
    requires Setting(g, al, xs) && i < |xs| && FusedArg(xs[i].c, m)
    ensures RootOf(al, m) !in Bad(g, xs, |xs|) && m in g.defs
  {
    SiteFacts(g, al, xs, i);
    PlainOf(g, al, xs, i);
    hide Setting, Applicable, FusedArg, Bad;
    ArgThere(g, xs, i, m);
    forall j | 0 <= j < |xs|
      ensures !InChain(xs[j].q, m) && !InChain(xs[j].k, m)
    {
      if Own(xs[j], m) {
        if i == j { OwnArgs(g, xs, i, m); } else { FusedForeign(g, xs, i, j, m); }
      }
    }
    GoodRoot(g, al, xs, m);
  }

  lemma ArgThere(g: Graph, xs: seq<Site>, i: nat, m: Id)
    requires g.Valid() && Applicable(g, xs) && i < |xs| && FusedArg(xs[i].c, m)
    ensures m in g.defs
  {
    assert Usable(g, xs[i]);
    hide UsedAsWired, Leads, FusedArg;
    ArgDefined(g, xs[i], m);
  }

  lemma PlainOf(g: Graph, al: Aliases, xs: seq<Site>, i: nat)
    requires Setting(g, al, xs) && i < |xs|
    ensures Plain(g, xs[i])
  {
    hide Wired, Plain, Applicable;
    assert Sound(g, al, xs[i]);
  }

  /** A plain site's fused call takes no node of the site. */
  lemma OwnArgs(g: Graph, xs: seq<Site>, i: nat, m: Id)
    requires Applicable(g, xs) && i < |xs| && Plain(g, xs[i]) && FusedArg(xs[i].c, m)
    ensures !Own(xs[i], m)
  {
    assert Usable(g, xs[i]);
    hide Applicable, Usable, FusedArg, Uses, Stripped;
    if Own(xs[i], m) {
      FusedArgsOutside(g, xs[i], m);
      if m == xs[i].k.arg { LayerStays(g, xs[i]); }
    }
  }

  lemma SameReads(I: Interp, g: Graph, al: Aliases, xs: seq<Site>, i: nat, s: State, t: State, m: Id)
    requires Setting(g, al, xs) && i < |xs| && Agree(s, t, Bad(g, xs, |xs|)) && FusedArg(xs[i].c, m)
    ensures Read(I, s, RefOf(al, m)) == Read(I, t, RefOf(al, m))
  {
    hide Setting, Bad, RefOf, FusedArg;
    InputsGood(g, al, xs, i, m);
  }

  /** The inputs of the fused call read the same in both runs. */
  lemma SameInputs(I: Interp, g: Graph, al: Aliases, xs: seq<Site>, i: nat, s: State, t: State)
    requires Setting(g, al, xs) && i < |xs| && Agree(s, t, Bad(g, xs, |xs|))
    ensures NormOf(I, al, s, xs[i].q) == NormOf(I, al, t, xs[i].q) && NormOf(I, al, s, xs[i].k) == NormOf(I, al, t, xs[i].k)
    ensures forall m | FusedArg(xs[i].c, m) :: Read(I, s, RefOf(al, m)) == Read(I, t, RefOf(al, m))
  {
    hide Setting, Bad, RefOf, FusedArg, Agree, Read;
    SiteNames(g, al, xs, i);
    forall m | FusedArg(xs[i].c, m) { SameReads(I, g, al, xs, i, s, t, m); }
  }

  lemma SiteNames(g: Graph, al: Aliases, xs: seq<Site>, i: nat)
    requires Setting(g, al, xs) && i < |xs|
    ensures FusedArg(xs[i].c, xs[i].q.head) && FusedArg(xs[i].c, xs[i].q.weight)
    ensures FusedArg(xs[i].c, xs[i].k.head) && FusedArg(xs[i].c, xs[i].k.weight)
    ensures FusedArg(xs[i].c, xs[i].c.positions) && FusedArg(xs[i].c, xs[i].c.cosSin) && FusedArg(xs[i].c, xs[i].c.value)
  {
    assert Wired(g, xs[i]);
    hide Packed, Rotates, Private, ReadsLayer, Applicable;
  }

  /** The storages of both runs outside the bad ones, when each changes only bad ones. */
  lemma StillAgree(s: State, t: State, s': State, t': State, bad: set<Id>)
    requires Agree(s, t, bad) && s'.cache == t'.cache && s'.log == t'.log
    requires forall r | r !in bad :: s'.store(r) == s.store(r) && t'.store(r) == t.store(r)
    ensures Agree(s', t', bad)
  {
  }

  /** A step of site `i` that changes only its own storages and outputs. */
  lemma StepSite(I: Interp, g: Graph, al: Aliases, xs: seq<Site>, i: nat, done: seq<Id>, z: Id, rest: seq<Id>,
                 s: State, t: State, s': State, t': State)
    requires Setting(g, al, xs) && i < |xs| && Now(g, done, z, rest) && Around(xs[i], z) && Related(I, g, al, xs, done, s, t)
    requires s'.cache == t'.cache && s'.log == t'.log
    requires forall r | r != xs[i].q.norm && r != xs[i].k.norm :: s'.store(r) == s.store(r)
    requires forall r | r != FirstId(g, i) && r != FirstId(g, i) + 1 :: t'.store(r) == t.store(r)
    requires SiteRel(I, al, xs[i], FirstId(g, i), done + [z], s', t')
    ensures Related(I, g, al, xs, done + [z], s', t')
  {
    hide Setting, SiteRel, Now, Bad, Around;
    NormsBad(g, xs, i);
    StillAgree(s, t, s', t', Bad(g, xs, |xs|));
    SiteFacts(g, al, xs, i);
    hide Applicable, Wired, Unwritten, Graph.Valid, Precedes;
    OnlyNew(g, al, xs, i, z, t, t');
    OthersKept(I, g, al, xs, i, done, z, rest, s, t, s', t');
  }

  lemma StepNorm(I: Interp, g: Graph, al: Aliases, xs: seq<Site>, i: nat, w: Chain, done: seq<Id>, rest: seq<Id>, s: State, t: State)
    requires Setting(g, al, xs) && i < |xs| && (w == xs[i].q || w == xs[i].k)
    requires Now(g, done, w.norm, rest) && Related(I, g, al, xs, done, s, t)
    ensures Related(I, g, al, xs, done + [w.norm], Run(I, g, al, w.norm, s), t)
  {
    var (x, s') := (xs[i], Run(I, g, al, w.norm, s));
    SiteFacts(g, al, xs, i);
    ChainOf(g, al, xs, i, w);
    NormRun(I, g, al, w, s);
    hide Setting, Applicable, Wired, Now, NormOf, SiteRel, IsNorm, Run, Bad;
    IsBad(g, xs, |xs|, i, w.norm);
    StillAgree(s, t, s', t, Bad(g, xs, |xs|));
    OthersKept(I, g, al, xs, i, done, w.norm, rest, s, t, s', t);
    SameInputs(I, g, al, xs, i, s, t);
    NormSite(I, g, al, xs, i, w, done, rest, s, t, s');
  }

  lemma NormSite(I: Interp, g: Graph, al: Aliases, xs: seq<Site>, i: nat, w: Chain, done: seq<Id>, rest: seq<Id>,
                 s: State, t: State, s': State)
    requires Setting(g, al, xs) && i < |xs| && (w == xs[i].q || w == xs[i].k)
    requires Now(g, done, w.norm, rest) && SiteRel(I, al, xs[i], FirstId(g, i), done, s, t)
    requires s'.store(w.norm) == NormOf(I, al, t, w) && forall r | r != w.norm :: s'.store(r) == s.store(r)
    ensures SiteRel(I, al, xs[i], FirstId(g, i), done + [w.norm], s', t)
  {
    hide Setting, Applicable, Wired, Now, NormOf, BothOf, Elems, Precedes, SiteRel, Unwritten, Graph.Valid;
    var x := xs[i];
    SiteFacts(g, al, xs, i);
    Differ(g, xs, i);
    ChainOrder(g, x, w, done, w.norm, rest);
    KvOrder(g, x, done, w.norm, rest);
    NormPhase(I, al, x, FirstId(g, i), w, done, s, t, s');
  }

  lemma NormPhase(I: Interp, al: Aliases, x: Site, first: Id, w: Chain, done: seq<Id>, s: State, t: State, s': State)
    requires SiteRel(I, al, x, first, done, s, t) && (w == x.q || w == x.k)
    requires x.c.rope !in Elems(done) && x.c.kvUpdate !in Elems(done)
    requires x.q.norm != x.k.norm && w.norm != x.c.rope && w.norm != x.c.kvUpdate
    requires s'.store(w.norm) == NormOf(I, al, t, w) && forall r | r != w.norm :: s'.store(r) == s.store(r)
    ensures SiteRel(I, al, x, first, done + [w.norm], s', t)
  {
    hide NormOf, BothOf, Elems;
    Later(done, w.norm, x.q.norm);
    Later(done, w.norm, x.k.norm);
    Later(done, w.norm, x.c.rope);
    Later(done, w.norm, x.c.kvUpdate);
  }

  lemma Differ(g: Graph, xs: seq<Site>, i: nat)
    requires g.Valid() && Applicable(g, xs) && i < |xs|
    ensures var x := xs[i];
            && x.q.norm != x.k.norm && x.q.norm != x.c.rope && x.k.norm != x.c.rope && x.q.norm != x.c.kvUpdate
            && x.k.norm != x.c.kvUpdate && x.c.rope != x.c.kvUpdate && x.q.norm < g.next && x.k.norm < g.next
  {
    assert Usable(g, xs[i]);
    hide Usable, Graph.Valid, AllApart;
    NormsAround(g, xs, i);
    UsableTargets(g, xs[i]);
    SiteApart(g, xs[i]);
    ApartFacts({xs[i].c.kvUpdate, xs[i].c.rope}, xs[i].c.attention, g.next + 2, xs[i].q, xs[i].k);
  }

  lemma StepRope(I: Interp, g: Graph, al: Aliases, xs: seq<Site>, i: nat, done: seq<Id>, rest: seq<Id>, s: State, t: State)
    requires Setting(g, al, xs) && i < |xs| && Now(g, done, xs[i].c.rope, rest) && Related(I, g, al, xs, done, s, t)
    ensures Related(I, g, al, xs, done + [xs[i].c.rope], Run(I, g, al, xs[i].c.rope, s), t)
  {
    hide Setting, SiteRel, Run, Bad, Elems, Agree, BothOf, RopeNowOf, Around;
    var (x, z) := (xs[i], xs[i].c.rope);
    var s' := Run(I, g, al, z, s);
    var out := RopeOut(I, g, al, xs, i, s);
    RopeReady(g, al, xs, i, done, rest);
    RopeNow(I, g, al, xs, i, done, s, t);
    RopePhase(I, al, x, FirstId(g, i), done, s, t, s');
    SameOutside(I, g, al, xs, done, s, t);
    StepSite(I, g, al, xs, i, done, z, rest, s, t, s', t);
  }

  lemma SameOutside(I: Interp, g: Graph, al: Aliases, xs: seq<Site>, done: seq<Id>, s: State, t: State)
    requires Related(I, g, al, xs, done, s, t)
    ensures s.cache == t.cache && s.log == t.log
  {
    hide Bad, SiteRel;
  }

  lemma RopeReady(g: Graph, al: Aliases, xs: seq<Site>, i: nat, done: seq<Id>, rest: seq<Id>)
    requires Setting(g, al, xs) && i < |xs| && Now(g, done, xs[i].c.rope, rest)
    ensures var x := xs[i];
            && x.q.norm in Elems(done) && x.k.norm in Elems(done) && x.c.rope !in Elems(done) && x.c.kvUpdate !in Elems(done)
            && x.c.rope != x.c.kvUpdate && Around(x, x.c.rope)
  {
    hide Setting, Now, Elems, Precedes, Unwritten, Wired, Applicable, Graph.Valid;
    var x := xs[i];
    SiteFacts(g, al, xs, i);
    Differ(g, xs, i);
    ChainOrder(g, x, x.q, done, x.c.rope, rest);
    ChainOrder(g, x, x.k, done, x.c.rope, rest);
    KvOrder(g, x, done, x.c.rope, rest);
  }

  lemma NormsBad(g: Graph, xs: seq<Site>, i: nat)
    requires i < |xs|
    ensures xs[i].q.norm in Bad(g, xs, |xs|) && xs[i].k.norm in Bad(g, xs, |xs|)
    ensures FirstId(g, i) in Bad(g, xs, |xs|) && FirstId(g, i) + 1 in Bad(g, xs, |xs|)
  {
    IsBad(g, xs, |xs|, i, xs[i].q.norm);
    IsBad(g, xs, |xs|, i, xs[i].k.norm);
    IsBad(g, xs, |xs|, i, FirstId(g, i));
    IsBad(g, xs, |xs|, i, FirstId(g, i) + 1);
  }

  function RopeNowOf(I: Interp, al: Aliases, x: Site, s: State): (Data, Data) {
    I.rope(Tensor(Read(I, s, RefOf(al, x.c.positions))), s.store(x.q.norm), s.store(x.k.norm),
           HEAD_128, Tensor(Read(I, s, RefOf(al, x.c.cosSin))), TRUE_VAL)
  }

  lemma RopeOut(I: Interp, g: Graph, al: Aliases, xs: seq<Site>, i: nat, s: State) returns (out: (Data, Data))
    requires Setting(g, al, xs) && i < |xs|
    ensures out == RopeNowOf(I, al, xs[i], s)
    ensures var x := xs[i];
            var s' := Run(I, g, al, x.c.rope, s);
            && s'.cache == s.cache && s'.log == s.log && s'.store(x.q.norm) == out.0 && s'.store(x.k.norm) == out.1
            && forall r | r != x.q.norm && r != x.k.norm :: s'.store(r) == s.store(r)
  {
    var x := xs[i];
    out := RopeNowOf(I, al, x, s);
    SiteFacts(g, al, xs, i);
    Differ(g, xs, i);
    ChainOf(g, al, xs, i, x.q);
    ChainOf(g, al, xs, i, x.k);
    hide Setting, Applicable, Packed, Private, ReadsLayer, Rotates, Read, Run, Unwritten, Precedes, Graph.Valid;
    RopeRun(I, g, al, x, s);
  }

  /** RoPE finds the norms of what the fused call would read now. */
  lemma RopeNow(I: Interp, g: Graph, al: Aliases, xs: seq<Site>, i: nat, done: seq<Id>, s: State, t: State)
    requires Setting(g, al, xs) && i < |xs| && Agree(s, t, Bad(g, xs, |xs|))
    requires SiteRel(I, al, xs[i], FirstId(g, i), done, s, t)
    requires xs[i].q.norm in Elems(done) && xs[i].k.norm in Elems(done) && xs[i].c.rope !in Elems(done)
    ensures RopeNowOf(I, al, xs[i], s) == BothOf(I, al, t, xs[i])
  {
    hide Setting, Bad, Agree, Elems, NormOf, FusedArg, Read;
    SiteNames(g, al, xs, i);
    SameInputs(I, g, al, xs, i, s, t);
  }

  lemma RopePhase(I: Interp, al: Aliases, x: Site, first: Id, done: seq<Id>, s: State, t: State, s': State)
    requires SiteRel(I, al, x, first, done, s, t)
    requires x.c.rope !in Elems(done) && x.c.kvUpdate !in Elems(done) && x.c.rope != x.c.kvUpdate
    requires (s'.store(x.q.norm), s'.store(x.k.norm)) == BothOf(I, al, t, x)
    ensures SiteRel(I, al, x, first, done + [x.c.rope], s', t)
  {
    hide NormOf, BothOf, Elems;
    Later(done, x.c.rope, x.c.rope);
    Later(done, x.c.rope, x.c.kvUpdate);
  }

  // ----- the KV update and the three nodes that replace it -----

  /** The rewritten run through the two outputs and the fused call. */
  function FusedSteps(I: Interp, g: Graph, al: Aliases, xs: seq<Site>, i: nat, t: State): State
    requires i < |xs|
  {
    var (c, first) := (xs[i].c, FirstId(g, i));
    var t1 := Exec(I, al, first, EmptyNode(c.qHead, At(g, c.qHead).meta), t);
    var t2 := Exec(I, al, first + 1, EmptyNode(c.kHead, At(g, c.kHead).meta), t1);
    Exec(I, al, first + 2, FusedNode(c, first, first + 1, At(g, c.kvUpdate).meta), t2)
  }

  /** The caches after inserting `key` for the site. */
  function NewCache(I: Interp, al: Aliases, x: Site, s: State, key: Data): Key -> Data {
    Insert(I, s, ArgVal(I, al, s, x.c.layer), Tensor(key), Tensor(Read(I, s, RefOf(al, x.c.value)))).cache
  }

  /** `s'` is `s` with `key` inserted and `a`, `b` stored in the site's outputs. */
  ghost predicate FusedTo(I: Interp, al: Aliases, x: Site, first: Id, t: State, out: (Data, Data), t': State) {
    && t'.store(first) == out.0 && t'.store(first + 1) == out.1 && t'.log == t.log
    && (forall r | r != first && r != first + 1 :: t'.store(r) == t.store(r))
    && t'.cache == NewCache(I, al, x, t, out.1)
  }

  lemma FusedOut(I: Interp, g: Graph, al: Aliases, xs: seq<Site>, i: nat, t: State)
    requires Setting(g, al, xs) && i < |xs|
    ensures FusedTo(I, al, xs[i], FirstId(g, i), t, BothOf(I, al, t, xs[i]), FusedSteps(I, g, al, xs, i, t))
  {
    hide Setting, Exec, EmptyNode, FusedNode, BothOf, FusedArg, Bad, RefOf, Names, Read, ArgVal, FusedTo, Insert, Written;
    var (x, first) := (xs[i], FirstId(g, i));
    var t1 := Exec(I, al, first, EmptyNode(x.c.qHead, At(g, x.c.qHead).meta), t);
    var t2 := Exec(I, al, first + 1, EmptyNode(x.c.kHead, At(g, x.c.kHead).meta), t1);
    NewRefs(g, al, xs, i);
    EmptyRun(I, al, first, x.c.qHead, At(g, x.c.qHead).meta, t);
    EmptyRun(I, al, first + 1, x.c.kHead, At(g, x.c.kHead).meta, t1);
    NotNew(I, g, al, xs, i, t, t2);
    FusedRun(I, al, x, first + 2, first, first + 1, At(g, x.c.kvUpdate).meta, t2);
    FusedLast(I, g, al, xs, i, t, t2, BothOf(I, al, t, x));
  }

  /** The fused call's writes and insertion, seen from before the outputs were made. */
  lemma FusedLast(I: Interp, g: Graph, al: Aliases, xs: seq<Site>, i: nat, t: State, t2: State, out: (Data, Data))
    requires Setting(g, al, xs) && i < |xs| && t2.cache == t.cache && t2.log == t.log
    requires forall r | r != FirstId(g, i) && r != FirstId(g, i) + 1 :: t2.store(r) == t.store(r)
    ensures var (x, first) := (xs[i], FirstId(g, i));
            var s' := Written(I, Written(I, t2, Ref(first, []), out.0), Ref(first + 1, []), out.1);
            FusedTo(I, al, x, first, t, out,
                    Insert(I, s', ArgVal(I, al, s', x.c.layer), Tensor(out.1), Tensor(Read(I, s', RefOf(al, x.c.value)))))
  {
    hide Setting, RefOf, Read, ArgVal;
    var first := FirstId(g, i);
    var s' := Written(I, Written(I, t2, Ref(first, []), out.0), Ref(first + 1, []), out.1);
    NotNew(I, g, al, xs, i, t, s');
  }

  lemma NewRefs(g: Graph, al: Aliases, xs: seq<Site>, i: nat)
    requires Setting(g, al, xs) && i < |xs|
    ensures RefOf(al, FirstId(g, i)) == Ref(FirstId(g, i), []) && RefOf(al, FirstId(g, i) + 1) == Ref(FirstId(g, i) + 1, [])
    ensures Names(xs[i])
  {
    hide Applicable, LintClean, Packed, Private, Rotates, ReadsLayer;
    assert Wired(g, xs[i]);
    assert FirstId(g, i) !in g.defs && FirstId(g, i) + 1 !in g.defs;
  }

  /** The outputs are not among the inputs. */
  lemma NotNew(I: Interp, g: Graph, al: Aliases, xs: seq<Site>, i: nat, t: State, t': State)
    requires Setting(g, al, xs) && i < |xs|
    requires forall r | r != FirstId(g, i) && r != FirstId(g, i) + 1 :: t'.store(r) == t.store(r)
    ensures BothOf(I, al, t', xs[i]) == BothOf(I, al, t, xs[i])
    ensures ArgVal(I, al, t', xs[i].c.layer) == ArgVal(I, al, t, xs[i].c.layer)
    ensures Read(I, t', RefOf(al, xs[i].c.value)) == Read(I, t, RefOf(al, xs[i].c.value))
  {
    hide Setting, Bad, RefOf;
    SiteNames(g, al, xs, i);
    NormsBad(g, xs, i);
    forall m | FusedArg(xs[i].c, m)
      ensures Read(I, t', RefOf(al, m)) == Read(I, t, RefOf(al, m))
    {
      InputsGood(g, al, xs, i, m);
    }
  }

  lemma KvOut(I: Interp, g: Graph, al: Aliases, xs: seq<Site>, i: nat, s: State)
    requires Setting(g, al, xs) && i < |xs|
    ensures var (x, s') := (xs[i], Run(I, g, al, xs[i].c.kvUpdate, s));
            s'.log == s.log && s'.store == s.store && s'.cache == NewCache(I, al, x, s, s.store(x.k.norm))
  {
    assert Wired(g, xs[i]);
    ChainOf(g, al, xs, i, xs[i].k);
    hide Setting, Packed, Private, Rotates, Run, ReadsLayer, RefOf, ArgVal, Read, CacheWith;
    KvRun(I, g, al, xs[i], s);
  }

  lemma StepKv(I: Interp, g: Graph, al: Aliases, xs: seq<Site>, i: nat, done: seq<Id>, rest: seq<Id>, s: State, t: State)
    requires Setting(g, al, xs) && i < |xs| && Now(g, done, xs[i].c.kvUpdate, rest) && Related(I, g, al, xs, done, s, t)
    ensures Related(I, g, al, xs, done + [xs[i].c.kvUpdate], Run(I, g, al, xs[i].c.kvUpdate, s), FusedSteps(I, g, al, xs, i, t))
  {
    hide Setting, SiteRel, Run, Bad, Elems, Agree, BothOf, FusedSteps, Around, NewCache, Now;
    var (x, z) := (xs[i], xs[i].c.kvUpdate);
    var (s', t') := (Run(I, g, al, z, s), FusedSteps(I, g, al, xs, i, t));
    KvOut(I, g, al, xs, i, s);
    FusedOut(I, g, al, xs, i, t);
    KvReady(g, al, xs, i, done, rest);
    KvNow(I, g, al, xs, i, done, s, t);
    KvPhase(I, al, x, FirstId(g, i), done, s, t, s', t');
    SameOutside(I, g, al, xs, done, s, t);
    StepSite(I, g, al, xs, i, done, z, rest, s, t, s', t');
  }

  lemma KvReady(g: Graph, al: Aliases, xs: seq<Site>, i: nat, done: seq<Id>, rest: seq<Id>)
    requires Setting(g, al, xs) && i < |xs| && Now(g, done, xs[i].c.kvUpdate, rest)
    ensures xs[i].c.rope in Elems(done) && xs[i].c.kvUpdate !in Elems(done) && Around(xs[i], xs[i].c.kvUpdate)
  {
    hide Setting, Now, Elems, Precedes, Unwritten, Wired, Applicable, Graph.Valid;
    SiteFacts(g, al, xs, i);
    KvOrder(g, xs[i], done, xs[i].c.kvUpdate, rest);
  }

  lemma OnlyNew(g: Graph, al: Aliases, xs: seq<Site>, i: nat, z: Id, t: State, t': State)
    requires g.Valid() && i < |xs|
    requires forall r | r != FirstId(g, i) && r != FirstId(g, i) + 1 :: t'.store(r) == t.store(r)
    ensures OnlyWrites(g, al, z, t, t')
  {
    hide Writes;
  }

  /** Both runs insert the same key and value for the same layer. */
  lemma KvNow(I: Interp, g: Graph, al: Aliases, xs: seq<Site>, i: nat, done: seq<Id>, s: State, t: State)
    requires Setting(g, al, xs) && i < |xs| && Agree(s, t, Bad(g, xs, |xs|))
    requires SiteRel(I, al, xs[i], FirstId(g, i), done, s, t)
    requires xs[i].c.rope in Elems(done) && xs[i].c.kvUpdate !in Elems(done)
    ensures var x := xs[i];
            && (s.store(x.q.norm), s.store(x.k.norm)) == BothOf(I, al, t, x)
            && NewCache(I, al, x, s, s.store(x.k.norm)) == NewCache(I, al, x, t, BothOf(I, al, t, x).1)
  {
    hide Setting, Bad, Elems, NormOf, BothOf, Read, RefOf;
    SiteNames(g, al, xs, i);
    SameInputs(I, g, al, xs, i, s, t);
  }

  lemma KvPhase(I: Interp, al: Aliases, x: Site, first: Id, done: seq<Id>, s: State, t: State, s': State, t': State)
    requires SiteRel(I, al, x, first, done, s, t) && x.c.rope in Elems(done) && x.c.kvUpdate !in Elems(done)
    requires (s'.store(x.q.norm), s'.store(x.k.norm)) == (t'.store(first), t'.store(first + 1))
    ensures SiteRel(I, al, x, first, done + [x.c.kvUpdate], s', t')
  {
    hide NormOf, BothOf, Elems;
    Later(done, x.c.kvUpdate, x.c.rope);
    Later(done, x.c.kvUpdate, x.c.kvUpdate);
  }

  // ----- the attention -----

  /** Every argument has one value in both runs, under its new name in the second. */
  ghost predicate SeesRenamed(I: Interp, al: Aliases, node: Node, sub: map<Id, Id>, s: State, t: State) {
    forall m | m in Refs(node) ::
      Read(I, s, RefOf(al, m)) == Read(I, t, RefOf(al, if m in sub then sub[m] else m))
  }

  lemma ValsRenamed(I: Interp, al: Aliases, node: Node, sub: map<Id, Id>, s: State, t: State)
    requires SeesRenamed(I, al, node, sub, s, t)
    ensures Vals(I, al, s, node.args) == Vals(I, al, t, Rename(node, sub).args)
    ensures NamedVals(I, al, s, node.kwargs) == NamedVals(I, al, t, Rename(node, sub).kwargs)
  {
    hide Read, RefOf;
    var out := Rename(node, sub);
    forall i | 0 <= i < |node.args|
      ensures ArgVal(I, al, s, node.args[i]) == ArgVal(I, al, t, out.args[i])
    {
      if node.args[i].NodeArg? { assert node.args[i].n in Refs(node); }
    }
    forall k | k in node.kwargs
      ensures ArgVal(I, al, s, node.kwargs[k]) == ArgVal(I, al, t, out.kwargs[k])
    {
      if node.kwargs[k].NodeArg? { assert node.kwargs[k].n in Refs(node); }
    }
  }

  lemma ArgRenamed(node: Node, sub: map<Id, Id>, i: nat, name: string)
    ensures ArgOf(Rename(node, sub), i, name) ==
            match ArgOf(node, i, name)
            case None => None
            case Some(a) => Some(RenameArg(a, sub))
  {
  }

  lemma AttendRenamed(I: Interp, al: Aliases, n: Id, node: Node, sub: map<Id, Id>, s: State, t: State, bad: set<Id>)
    requires Agree(s, t, bad) && SeesRenamed(I, al, node, sub, s, t)
    requires forall r | r in ArgRoot(al, ArgOf(node, 3, "output")) :: r !in bad
    requires var out := NodeOf(ArgOf(node, 3, "output")); out.Some? ==> out.value !in sub
    ensures var (s', t') := (Attend(I, al, n, node, s), Attend(I, al, n, Rename(node, sub), t));
            && Agree(s', t', bad)
            && forall r | r !in ArgRoot(al, ArgOf(node, 3, "output")) :: s'.store(r) == s.store(r) && t'.store(r) == t.store(r)
  {
    ValsRenamed(I, al, node, sub, s, t);
    ArgRenamed(node, sub, 3, "output");
    ArgRenamed(node, sub, 4, "layer_name");
    LayerRenamed(I, al, node, sub, s, t);
    hide Refs, Rename, Vals, NamedVals, SeesRenamed, ValOf;
  }

  lemma LayerRenamed(I: Interp, al: Aliases, node: Node, sub: map<Id, Id>, s: State, t: State)
    requires SeesRenamed(I, al, node, sub, s, t)
    ensures ValOf(I, al, s, ArgOf(node, 4, "layer_name")) == ValOf(I, al, t, ArgOf(Rename(node, sub), 4, "layer_name"))
  {
    ArgRenamed(node, sub, 4, "layer_name");
    ArgSees(node, 4, "layer_name");
    hide Read, RefOf, Rename;
  }

  /** The attention uses `q` as its query, `k` as its key and `kv` as its ordering argument only. */
  ghost predicate OnceEach(att: Node, q: Id, k: Id, kv: Id) {
    && att.target.Attention? && q != k && kv != q && kv != k
    && ArgOf(att, 0, "query") == Some(NodeArg(q)) && ArgOf(att, 1, "key") == Some(NodeArg(k))
    && !Uses(Stripped(att), q) && !Uses(Stripped(att), k) && !Uses(Visible(Stripped(att)), kv)
  }

  function Moved(att: Node, kv: Id, qOut: Id, kOut: Id, fused: Id): Node {
    Visible(Rename(Replaced(att, NodeArg(qOut), NodeArg(kOut)), map[kv := fused]))
  }

  lemma PositionUsed(node: Node, i: nat)
    requires i < |node.args| && node.args[i].NodeArg?
    ensures Uses(node, node.args[i].n)
  {
    PositionIsRef(node, i);
  }

  lemma KeywordUsed(node: Node, name: string)
    requires name in node.kwargs && node.kwargs[name].NodeArg?
    ensures Uses(node, node.kwargs[name].n)
  {
  }

  lemma ReplacedAt(att: Node, v: Arg, w: Arg, i: nat)
    requires i < |att.args|
    ensures |Replaced(att, v, w).args| == |att.args| && Replaced(att, v, w).target == att.target
    ensures Replaced(att, v, w).args[i] ==
            if i == 0 && "query" !in att.kwargs then v else if i == 1 && "key" !in att.kwargs then w else att.args[i]
  {
  }

  lemma VisibleAt(att: Node, i: nat)
    requires att.target.Attention? && i < |att.args|
    ensures |Visible(att).args| == |att.args| && Visible(att).args[i] == if i == 7 then NoneArg else att.args[i]
  {
  }

  lemma RenameAt(node: Node, sub: map<Id, Id>, i: nat)
    requires i < |node.args|
    ensures |Rename(node, sub).args| == |node.args| && Rename(node, sub).args[i] == RenameArg(node.args[i], sub)
    ensures Rename(node, sub).target == node.target
  {
  }

  lemma PositionMoved(att: Node, q: Id, k: Id, kv: Id, qOut: Id, kOut: Id, fused: Id, i: nat)
    requires OnceEach(att, q, k, kv) && qOut != kv && kOut != kv && i < |att.args|
    ensures |Moved(att, kv, qOut, kOut, fused).args| == |Rename(Visible(att), map[q := qOut, k := kOut]).args| == |att.args|
    ensures Moved(att, kv, qOut, kOut, fused).args[i] == Rename(Visible(att), map[q := qOut, k := kOut]).args[i]
  {
    hide Replaced, Visible, Rename, Uses;
    var (replaced, stripped) := (Replaced(att, NodeArg(qOut), NodeArg(kOut)), Stripped(att));
    ReplacedAt(att, NodeArg(qOut), NodeArg(kOut), i);
    ReplacedAt(att, NoneArg, NoneArg, i);
    RenameAt(replaced, map[kv := fused], i);
    VisibleAt(Rename(replaced, map[kv := fused]), i);
    VisibleAt(stripped, i);
    VisibleAt(att, i);
    RenameAt(Visible(att), map[q := qOut, k := kOut], i);
    if stripped.args[i].NodeArg? { PositionUsed(stripped, i); }
    if Visible(stripped).args[i].NodeArg? { PositionUsed(Visible(stripped), i); }
  }

  lemma KeywordMoved(att: Node, q: Id, k: Id, kv: Id, qOut: Id, kOut: Id, fused: Id, name: string)
    requires OnceEach(att, q, k, kv) && qOut != kv && kOut != kv
    ensures var (a, b) := (Moved(att, kv, qOut, kOut, fused), Rename(Visible(att), map[q := qOut, k := kOut]));
            (name in a.kwargs <==> name in b.kwargs) && (name in a.kwargs ==> a.kwargs[name] == b.kwargs[name])
  {
    var (stripped, shown) := (Stripped(att), Visible(Stripped(att)));
    if name in stripped.kwargs && stripped.kwargs[name].NodeArg? { KeywordUsed(stripped, name); }
    if name in shown.kwargs && shown.kwargs[name].NodeArg? { KeywordUsed(shown, name); }
    hide Uses;
  }

  /** Redirecting such an attention is renaming its query and key. */
  lemma VisibleRedirected(att: Node, q: Id, k: Id, kv: Id, qOut: Id, kOut: Id, fused: Id)
    requires OnceEach(att, q, k, kv) && qOut != kv && kOut != kv
    ensures Moved(att, kv, qOut, kOut, fused) == Rename(Visible(att), map[q := qOut, k := kOut])
  {
    var (a, b) := (Moved(att, kv, qOut, kOut, fused), Rename(Visible(att), map[q := qOut, k := kOut]));
    assert |a.args| == |b.args| == |att.args| && a.target == b.target && a.meta == b.meta;
    hide Moved, Rename, Visible, OnceEach;
    forall i | 0 <= i < |att.args|
      ensures a.args[i] == b.args[i]
    {
      PositionMoved(att, q, k, kv, qOut, kOut, fused, i);
    }
    forall name
      ensures (name in a.kwargs <==> name in b.kwargs) && (name in a.kwargs ==> a.kwargs[name] == b.kwargs[name])
    {
      KeywordMoved(att, q, k, kv, qOut, kOut, fused, name);
    }
    assert a.args == b.args && a.kwargs == b.kwargs;
  }

  lemma OnceEachSite(g: Graph, al: Aliases, xs: seq<Site>, i: nat)
    requires Setting(g, al, xs) && i < |xs|
    ensures OnceEach(At(g, xs[i].c.attention), xs[i].q.arg, xs[i].k.arg, xs[i].c.kvUpdate)
  {
    PlainOf(g, al, xs, i);
    assert Wired(g, xs[i]) && Usable(g, xs[i]);
    hide Setting, Packed, Private, Rotates, UsedAsWired, Reads, Uses, Stripped, Visible;
    SiteApartHere(g, al, xs, i);
  }

  lemma SiteApartHere(g: Graph, al: Aliases, xs: seq<Site>, i: nat)
    requires Setting(g, al, xs) && i < |xs|
    ensures var x := xs[i];
            x.q.arg != x.k.arg && x.c.kvUpdate != x.q.arg && x.c.kvUpdate != x.k.arg && x.c.kvUpdate < g.next
  {
    SiteFacts(g, al, xs, i);
    hide Setting, Graph.Valid, AllApart, Applicable, Wired;
    SiteUsable(g, xs, i);
    SiteApart(g, xs[i]);
    ApartFacts({xs[i].c.kvUpdate, xs[i].c.rope}, xs[i].c.attention, g.next + 2, xs[i].q, xs[i].k);
    SiteBasics(g, xs, i, xs[i].c.kvUpdate);
  }

  lemma SiteUsable(g: Graph, xs: seq<Site>, i: nat)
    requires Applicable(g, xs) && i < |xs|
    ensures Usable(g, xs[i])
  {
    hide Usable;
  }

  /** The attention's other arguments read storages that both runs share. */
  lemma AttentionArg(g: Graph, al: Aliases, xs: seq<Site>, i: nat, m: Id)
    requires Setting(g, al, xs) && i < |xs| && Uses(At(g, xs[i].c.attention), m) && m != xs[i].q.arg && m != xs[i].k.arg
    ensures m in g.defs && RootOf(al, m) !in Bad(g, xs, |xs|)
  {
    hide Setting, Applicable, Graph.Valid, Uses, Bad, Wired, Unwritten;
    SiteFacts(g, al, xs, i);
    var att := xs[i].c.attention;
    SiteBasics(g, xs, i, att);
    UseDefined(g, att, m);
    SiteUsable(g, xs, i);
    hide Usable;
    AsWired(g, xs[i], att);
    UsableTargets(g, xs[i]);
    forall j | 0 <= j < |xs|
      ensures !InChain(xs[j].q, m) && !InChain(xs[j].k, m)
    {
      if i != j && Own(xs[j], m) { AttentionForeign(g, xs, i, j, m); }
    }
    GoodRoot(g, al, xs, m);
  }

  lemma AttentionSees(I: Interp, g: Graph, al: Aliases, xs: seq<Site>, i: nat, done: seq<Id>, s: State, t: State)
    requires Setting(g, al, xs) && i < |xs| && Related(I, g, al, xs, done, s, t) && xs[i].c.kvUpdate in Elems(done)
    ensures var x := xs[i];
            SeesRenamed(I, al, Visible(At(g, x.c.attention)), map[x.q.arg := FirstId(g, i), x.k.arg := FirstId(g, i) + 1], s, t)
  {
    hide Setting, Visible, Bad, NormRel, BothOf, RefOf, Elems;
    var x := xs[i];
    var node := Visible(At(g, x.c.attention));
    ChainOf(g, al, xs, i, x.q);
    ChainOf(g, al, xs, i, x.k);
    NewRefs(g, al, xs, i);
    SiteApartHere(g, al, xs, i);
    assert SiteRel(I, al, x, FirstId(g, i), done, s, t);
    VisibleRefs(At(g, x.c.attention));
    forall m | m in Refs(node) && m != x.q.arg && m != x.k.arg
      ensures Read(I, s, RefOf(al, m)) == Read(I, t, RefOf(al, m))
    {
      UsesIs(At(g, x.c.attention), m);
      AttentionArg(g, al, xs, i, m);
    }
  }

  lemma OutputArg(g: Graph, al: Aliases, xs: seq<Site>, i: nat)
    requires Setting(g, al, xs) && i < |xs|
    ensures var out := NodeOf(ArgOf(Visible(At(g, xs[i].c.attention)), 3, "output"));
            out.Some? ==> out.value != xs[i].q.arg && out.value != xs[i].k.arg && RootOf(al, out.value) !in Bad(g, xs, |xs|)
  {
    hide Setting, Bad, Refs, Visible, Stripped, OnceEach;
    PlainOf(g, al, xs, i);
    AttentionTarget(g, al, xs, i);
    var att := At(g, xs[i].c.attention);
    OnceEachSite(g, al, xs, i);
    OutputSame(att);
    var out := NodeOf(ArgOf(Visible(att), 3, "output"));
    if out.Some? {
      ArgIsRef(Stripped(att), 3, "output", out.value);
      UsesIs(Stripped(att), out.value);
      StrippedUses(att, out.value);
      AttentionArg(g, al, xs, i, out.value);
    }
  }

  lemma OutputSame(att: Node)
    requires att.target.Attention?
    ensures ArgOf(Visible(att), 3, "output") == ArgOf(att, 3, "output") == ArgOf(Stripped(att), 3, "output")
  {
  }

  lemma StepAttention(I: Interp, g: Graph, al: Aliases, xs: seq<Site>, i: nat, h: Graph, done: seq<Id>, rest: seq<Id>, s: State, t: State)
    requires Setting(g, al, xs) && i < |xs| && NewAt(g, xs[i], FirstId(g, i), h)
    requires Now(g, done, xs[i].c.attention, rest) && Related(I, g, al, xs, done, s, t)
    ensures var z := xs[i].c.attention;
            Related(I, g, al, xs, done + [z], Run(I, g, al, z, s), Exec(I, al, z, h.defs[z], t))
  {
    hide Setting, Visible, Bad, SiteRel, Refs, Attend, Moved, OnceEach, Agree, SeesRenamed, Now, Writes;
    var (x, z, first) := (xs[i], xs[i].c.attention, FirstId(g, i));
    var (node, sub) := (Visible(At(g, z)), map[x.q.arg := first, x.k.arg := first + 1]);
    var (s', t') := (Attend(I, al, z, node, s), Attend(I, al, z, Rename(node, sub), t));
    KvBefore(g, al, xs, i, done, rest);
    OnceEachSite(g, al, xs, i);
    SiteApartHere(g, al, xs, i);
    VisibleRedirected(At(g, z), x.q.arg, x.k.arg, x.c.kvUpdate, first, first + 1, first + 2);
    AttentionExec(I, g, al, xs, i, h, s, t);
    AttentionSees(I, g, al, xs, i, done, s, t);
    OutputArg(g, al, xs, i);
    AttendRenamed(I, al, z, node, sub, s, t, Bad(g, xs, |xs|));
    AttentionWrites(g, al, xs, i, I, s);
    AttentionTarget(g, al, xs, i);
    NotSpecial(g, al, xs, z);
    KeptAll(I, g, al, xs, done, z, rest, s, t, s', t');
  }

  lemma AttentionTarget(g: Graph, al: Aliases, xs: seq<Site>, i: nat)
    requires Setting(g, al, xs) && i < |xs|
    ensures xs[i].c.attention in g.defs && g.defs[xs[i].c.attention].target.Attention?
  {
    assert Usable(g, xs[i]);
  }

  lemma AttentionEffect(I: Interp, al: Aliases, n: Id, node: Node, s: State)
    requires node.target.Attention?
    ensures Exec(I, al, n, node, s) == Attend(I, al, n, Visible(node), s)
    ensures Writes(al, n, node) == ArgRoot(al, ArgOf(Visible(node), 3, "output"))
  {
    hide Visible, Attend;
  }

  lemma AttentionWrites(g: Graph, al: Aliases, xs: seq<Site>, i: nat, I: Interp, s: State)
    requires Setting(g, al, xs) && i < |xs|
    ensures var z := xs[i].c.attention;
            Writes(al, z, At(g, z)) == ArgRoot(al, ArgOf(Visible(At(g, z)), 3, "output"))
  {
    hide Setting, Visible, Writes;
    AttentionTarget(g, al, xs, i);
    AttentionEffect(I, al, xs[i].c.attention, At(g, xs[i].c.attention), s);
  }

  lemma AttentionExec(I: Interp, g: Graph, al: Aliases, xs: seq<Site>, i: nat, h: Graph, s: State, t: State)
    requires Setting(g, al, xs) && i < |xs| && NewAt(g, xs[i], FirstId(g, i), h)
    ensures var (x, z, first) := (xs[i], xs[i].c.attention, FirstId(g, i));
            && Run(I, g, al, z, s) == Attend(I, al, z, Visible(At(g, z)), s)
            && Exec(I, al, z, h.defs[z], t) == Attend(I, al, z, Moved(At(g, z), x.c.kvUpdate, first, first + 1, first + 2), t)
  {
    hide Setting, Visible, Attend, Rename, Exec, Replaced, EmptyNode, FusedNode;
    var x := xs[i];
    AttentionTarget(g, al, xs, i);
    RedirectedMeta(g, x, FirstId(g, i));
    AttentionEffect(I, al, x.c.attention, At(g, x.c.attention), s);
    AttentionEffect(I, al, x.c.attention, h.defs[x.c.attention], t);
  }

  lemma KvBefore(g: Graph, al: Aliases, xs: seq<Site>, i: nat, done: seq<Id>, rest: seq<Id>)
    requires Setting(g, al, xs) && i < |xs| && Now(g, done, xs[i].c.attention, rest)
    ensures xs[i].c.kvUpdate in Elems(done)
  {
    hide Setting, Applicable, Uses, Wired, Unwritten, Graph.Valid, Now;
    SiteFacts(g, al, xs, i);
    var att := xs[i].c.attention;
    SiteBasics(g, xs, i, att);
    SiteUsable(g, xs, i);
    hide Usable;
    AsWired(g, xs[i], att);
    UseOrder(g, done, att, rest, xs[i].c.kvUpdate, att);
  }

  /** Attentions and views are no site's norm, RoPE or KV update. */
  lemma NotSpecial(g: Graph, al: Aliases, xs: seq<Site>, z: Id)
    requires Setting(g, al, xs) && z in g.defs && (g.defs[z].target.Attention? || g.defs[z].target.View?)
    ensures forall j | 0 <= j < |xs| ::
              z != xs[j].q.norm && z != xs[j].k.norm && z != xs[j].c.rope && z != xs[j].c.kvUpdate
  {
    forall j | 0 <= j < |xs|
      ensures z != xs[j].q.norm && z != xs[j].k.norm && z != xs[j].c.rope && z != xs[j].c.kvUpdate
    {
      assert Usable(g, xs[j]);
    }
  }

  /** A step that writes only what `z` writes, outside the bad storages, keeps every site. */
  lemma KeptAll(I: Interp, g: Graph, al: Aliases, xs: seq<Site>, done: seq<Id>, z: Id, rest: seq<Id>,
                s: State, t: State, s': State, t': State)
    requires Setting(g, al, xs) && Now(g, done, z, rest) && Related(I, g, al, xs, done, s, t)
    requires Agree(s', t', Bad(g, xs, |xs|))
    requires forall j | 0 <= j < |xs| :: z != xs[j].q.norm && z != xs[j].k.norm && z != xs[j].c.rope && z != xs[j].c.kvUpdate
    requires forall r | r in Writes(al, z, At(g, z)) :: r !in Bad(g, xs, |xs|)
    requires forall r | r !in Writes(al, z, At(g, z)) :: s'.store(r) == s.store(r) && t'.store(r) == t.store(r)
    ensures Related(I, g, al, xs, done + [z], s', t')
  {
    hide Setting, SiteRel, Now, Bad, Agree, Writes;
    forall j: nat | j < |xs|
      ensures SiteRel(I, al, xs[j], FirstId(g, j), done + [z], s', t')
    {
      NormsBad(g, xs, j);
      OtherSite(I, g, al, xs, j, done, z, rest, s, t, s', t');
    }
  }

  lemma StepView(I: Interp, g: Graph, al: Aliases, xs: seq<Site>, done: seq<Id>, z: Id, rest: seq<Id>, s: State, t: State)
    requires Setting(g, al, xs) && Now(g, done, z, rest) && Related(I, g, al, xs, done, s, t)
    requires z in g.defs && ViewBase(g.defs[z]).Some?
    ensures Related(I, g, al, xs, done + [z], Run(I, g, al, z, s), t)
  {
    hide Setting, SiteRel, Now, Bad, Agree;
    assert Run(I, g, al, z, s) == s && Writes(al, z, At(g, z)) == {};
    NotSpecial(g, al, xs, z);
    hide Writes, Run;
    assert Agree(s, t, Bad(g, xs, |xs|));
    KeptAll(I, g, al, xs, done, z, rest, s, t, s, t);
  }

  // ----- the whole runs -----

  lemma PlainDead(g: Graph, x: Site, n: Id)
    requires Plain(g, x)
    ensures n in Dead(g, x) <==> Own(x, n)
  {
    hide KeepsArg, FusedArg;
  }

  lemma {:induction false} RepsExact(g: Graph, xs: seq<Site>, m: nat, i: nat, n: Id)
    requires i < m <= |xs| && Applicable(g, xs) && n in Dead(g, xs[i])
    ensures var first := FirstId(g, i);
            RepOf(Reps(g, xs, m), n) == if n == xs[i].c.kvUpdate then [first, first + 1, first + 2] else []
  {
    hide Applicable, Dead;
    if i < m - 1 {
      RepsExact(g, xs, m - 1, i, n);
      OldDead(g, xs[i]);
      DeadApart(g, xs, m - 1, i, n);
    }
  }

  /** A step of a rewritten site's own node. */
  lemma OwnStep(I: Interp, g: Graph, al: Aliases, xs: seq<Site>, i: nat, done: seq<Id>, z: Id, rest: seq<Id>, s: State, t: State)
    requires Setting(g, al, xs) && i < |xs| && Now(g, done, z, rest) && Related(I, g, al, xs, done, s, t)
    requires Own(xs[i], z) && z != xs[i].c.kvUpdate
    ensures Related(I, g, al, xs, done + [z], Run(I, g, al, z, s), t)
  {
    hide Setting, Now, Related, Run;
    var x := xs[i];
    if z == x.q.norm {
      StepNorm(I, g, al, xs, i, x.q, done, rest, s, t);
    } else if z == x.k.norm {
      StepNorm(I, g, al, xs, i, x.k, done, rest, s, t);
    } else if z == x.c.rope {
      StepRope(I, g, al, xs, i, done, rest, s, t);
    } else {
      OwnView(g, al, xs, i, z);
      StepView(I, g, al, xs, done, z, rest, s, t);
    }
  }

  lemma OwnView(g: Graph, al: Aliases, xs: seq<Site>, i: nat, z: Id)
    requires Setting(g, al, xs) && i < |xs| && (z == xs[i].q.arg || z == xs[i].k.arg || z == xs[i].q.flat || z == xs[i].k.flat)
    ensures z in g.defs && ViewBase(g.defs[z]).Some?
  {
    assert Usable(g, xs[i]);
    hide Setting, UsedAsWired, Reads;
  }

  lemma OutsideAll(g: Graph, al: Aliases, xs: seq<Site>, z: Id)
    requires Setting(g, al, xs) && z !in Gone(g, xs, |xs|) && z !in Attended(xs, |xs|)
    ensures forall i | 0 <= i < |xs| :: !Around(xs[i], z)
  {
    hide Setting, Dead, Own, Plain;
    forall i: nat | i < |xs|
      ensures !Around(xs[i], z)
    {
      PlainOf(g, al, xs, i);
      PlainDead(g, xs[i], z);
      IsGone(g, xs, |xs|, i, z);
    }
  }

  /** `after` is what the nodes `rep` of the rewritten graph make of `t`. */
  ghost predicate Replaces(I: Interp, al: Aliases, rep: seq<Id>, h: Graph, t: State, after: State) {
    || (rep == [] && after == t)
    || (|rep| == 1 && rep[0] in h.defs && after == Exec(I, al, rep[0], h.defs[rep[0]], t))
    || (|rep| == 3 && rep[0] in h.defs && rep[1] in h.defs && rep[2] in h.defs
        && after == Exec(I, al, rep[2], h.defs[rep[2]], Exec(I, al, rep[1], h.defs[rep[1]], Exec(I, al, rep[0], h.defs[rep[0]], t))))
  }

  lemma AppliedAt(g: Graph, xs: seq<Site>, h: Graph, i: nat)
    requires Applied(g, xs, |xs|, h) && i < |xs|
    ensures NewAt(g, xs[i], FirstId(g, i), h)
  {
    hide NewAt, Spliced;
  }

  lemma AppliedKeeps(g: Graph, xs: seq<Site>, h: Graph, z: Id)
    requires Applied(g, xs, |xs|, h) && z in g.defs && z !in Gone(g, xs, |xs|)
    ensures z in h.defs && (z !in Attended(xs, |xs|) ==> h.defs[z] == g.defs[z])
  {
    hide NewAt, Spliced, Gone, Attended;
  }

  /** One step of the original and the steps that replace it. */
  lemma StepBoth(I: Interp, g: Graph, al: Aliases, xs: seq<Site>, h: Graph, done: seq<Id>, z: Id, rest: seq<Id>, s: State, t: State)
    returns (t': State)
    requires Setting(g, al, xs) && Applied(g, xs, |xs|, h) && z in g.defs
    requires Now(g, done, z, rest) && Related(I, g, al, xs, done, s, t)
    ensures Related(I, g, al, xs, done + [z], Run(I, g, al, z, s), t')
    ensures Replaces(I, al, RepOf(Reps(g, xs, |xs|), z), h, t, t')
  {
    hide Setting, Applied, Now, Related, Gone, Reps, Replaces, Run;
    if z in Gone(g, xs, |xs|) {
      t' := StepGone(I, g, al, xs, h, done, z, rest, s, t);
    } else {
      t' := StepKept(I, g, al, xs, h, done, z, rest, s, t);
    }
  }

  lemma StepGone(I: Interp, g: Graph, al: Aliases, xs: seq<Site>, h: Graph, done: seq<Id>, z: Id, rest: seq<Id>, s: State, t: State)
    returns (t': State)
    requires Setting(g, al, xs) && Applied(g, xs, |xs|, h) && z in Gone(g, xs, |xs|)
    requires Now(g, done, z, rest) && Related(I, g, al, xs, done, s, t)
    ensures Related(I, g, al, xs, done + [z], Run(I, g, al, z, s), t')
    ensures Replaces(I, al, RepOf(Reps(g, xs, |xs|), z), h, t, t')
  {
    hide Setting, Applied, Now, Related, Exec, Gone, Reps, NewAt, Dead, Run, Own, FusedSteps, Applicable, Wired, Graph.Valid, Unwritten;
    var i := GoneIs(g, xs, |xs|, z);
    SiteFacts(g, al, xs, i);
    RepsExact(g, xs, |xs|, i, z);
    if z == xs[i].c.kvUpdate {
      t' := FusedSteps(I, g, al, xs, i, t);
      StepKv(I, g, al, xs, i, done, rest, s, t);
      AppliedAt(g, xs, h, i);
      FusedStepsAre(I, g, al, xs, i, h, t);
    } else {
      t' := t;
      OldDead(g, xs[i]);
      OwnStep(I, g, al, xs, i, done, z, rest, s, t);
    }
  }

  lemma StepKept(I: Interp, g: Graph, al: Aliases, xs: seq<Site>, h: Graph, done: seq<Id>, z: Id, rest: seq<Id>, s: State, t: State)
    returns (t': State)
    requires Setting(g, al, xs) && Applied(g, xs, |xs|, h) && z in g.defs && z !in Gone(g, xs, |xs|)
    requires Now(g, done, z, rest) && Related(I, g, al, xs, done, s, t)
    ensures Related(I, g, al, xs, done + [z], Run(I, g, al, z, s), t')
    ensures Replaces(I, al, RepOf(Reps(g, xs, |xs|), z), h, t, t')
  {
    hide Setting, Applied, Now, Related, Exec, Gone, Attended, Reps, NewAt, Around;
    AppliedKeeps(g, xs, h, z);
    RepsAre(g, xs, |xs|, z, z);
    t' := Exec(I, al, z, h.defs[z], t);
    if z in Attended(xs, |xs|) {
      var i := AttendedIs(xs, |xs|, z);
      AppliedAt(g, xs, h, i);
      StepAttention(I, g, al, xs, i, h, done, rest, s, t);
    } else {
      OutsideAll(g, al, xs, z);
      StepOutsider(I, g, al, xs, done, z, rest, s, t);
    }
  }

  lemma FusedStepsAre(I: Interp, g: Graph, al: Aliases, xs: seq<Site>, i: nat, h: Graph, t: State)
    requires i < |xs| && NewAt(g, xs[i], FirstId(g, i), h)
    ensures var first := FirstId(g, i); Replaces(I, al, [first, first + 1, first + 2], h, t, FusedSteps(I, g, al, xs, i, t))
  {
    hide Exec, EmptyNode, FusedNode, Redirected;
    var (x, first) := (xs[i], FirstId(g, i));
    var rep := [first, first + 1, first + 2];
    assert rep[0] == first && rep[1] == first + 1 && rep[2] == first + 2;
  }

  lemma RestDefined(g: Graph, al: Aliases, xs: seq<Site>, h: Graph, todo: seq<Id>)
    requires Setting(g, al, xs) && Applied(g, xs, |xs|, h) && Elems(todo) <= g.defs.Keys
    ensures Elems(Spliced(todo, Reps(g, xs, |xs|))) <= h.defs.Keys
  {
    hide Setting, EmptyNode, FusedNode, Redirected, Dead, Gone, Reps;
    forall n | n in Elems(Spliced(todo, Reps(g, xs, |xs|)))
      ensures n in h.defs
    {
      var y := SplicedIn(todo, Reps(g, xs, |xs|), n);
      ListDefined(g, al, xs, h, y, n);
    }
  }

  lemma ListDefined(g: Graph, al: Aliases, xs: seq<Site>, h: Graph, y: Id, n: Id)
    requires Setting(g, al, xs) && Applied(g, xs, |xs|, h) && y in g.defs && n in Elems(RepOf(Reps(g, xs, |xs|), y))
    ensures n in h.defs
  {
    hide Setting, Applied, EmptyNode, FusedNode, Redirected, Dead, Gone, Reps, Applicable, Graph.Valid, Wired, Unwritten;
    if y in Gone(g, xs, |xs|) {
      var i := GoneIs(g, xs, |xs|, y);
      SiteFacts(g, al, xs, i);
      RepsExact(g, xs, |xs|, i, y);
      AppliedAt(g, xs, h, i);
      ThreeElems(FirstId(g, i), n);
    } else {
      RepsAre(g, xs, |xs|, y, y);
      OneElem(y, n);
      AppliedKeeps(g, xs, h, y);
    }
  }

  lemma ThreeElems(first: Id, n: Id)
    ensures n in Elems([first, first + 1, first + 2]) ==> n == first || n == first + 1 || n == first + 2
    ensures n !in Elems([])
  {
    ElemsAre([first, first + 1, first + 2], n);
  }

  lemma OneElem(y: Id, n: Id)
    ensures n in Elems([y]) ==> n == y
  {
    ElemsAre([y], n);
  }

  lemma ExecThree(I: Interp, al: Aliases, rep: seq<Id>, tail: seq<Id>, defs: map<Id, Node>, t: State)
    requires |rep| == 3 && rep[0] in defs && rep[1] in defs && rep[2] in defs && Elems(tail) <= defs.Keys
    requires Elems(rep + tail) <= defs.Keys
    ensures ExecAll(I, al, rep + tail, defs, t) ==
            ExecAll(I, al, tail, defs,
                    Exec(I, al, rep[2], defs[rep[2]], Exec(I, al, rep[1], defs[rep[1]], Exec(I, al, rep[0], defs[rep[0]], t))))
  {
    hide Exec;
    var l := rep + tail;
    assert l[0] == rep[0] && l[1..][0] == rep[1] && l[1..][1..][0] == rep[2] && l[1..][1..][1..] == tail;
    var t1 := Exec(I, al, rep[0], defs[rep[0]], t);
    assert ExecAll(I, al, l, defs, t) == ExecAll(I, al, l[1..], defs, t1);
    var t2 := Exec(I, al, rep[1], defs[rep[1]], t1);
    assert ExecAll(I, al, l[1..], defs, t1) == ExecAll(I, al, l[1..][1..], defs, t2);
  }

  lemma {:induction false} Simulate(I: Interp, g: Graph, al: Aliases, xs: seq<Site>, h: Graph, done: seq<Id>, todo: seq<Id>, s: State, t: State)
    requires Setting(g, al, xs) && Applied(g, xs, |xs|, h)
    requires g.order == done + todo && Elems(todo) <= g.defs.Keys && Related(I, g, al, xs, done, s, t)
    ensures Elems(Spliced(todo, Reps(g, xs, |xs|))) <= h.defs.Keys
    ensures Related(I, g, al, xs, g.order, ExecAll(I, al, todo, g.defs, s),
                    ExecAll(I, al, Spliced(todo, Reps(g, xs, |xs|)), h.defs, t))
    decreases |todo|
  {
    hide Setting, Related, Applied, Exec, Reps;
    RestDefined(g, al, xs, h, todo);
    if todo == [] {
      assert g.order == done;
    } else {
      var (z, rest) := (todo[0], todo[1..]);
      assert todo == [z] + rest && g.order == done + [z] + rest;
      NowIs(g, al, xs, done, z, rest);
      hide Now;
      var t' := StepBoth(I, g, al, xs, h, done, z, rest, s, t);
      Simulate(I, g, al, xs, h, done + [z], rest, Run(I, g, al, z, s), t');
      var (rep, tail) := (RepOf(Reps(g, xs, |xs|), z), Spliced(rest, Reps(g, xs, |xs|)));
      assert Spliced(todo, Reps(g, xs, |xs|)) == rep + tail;
      if rep == [] {
        assert rep + tail == tail;
      } else if |rep| == 1 {
        assert (rep + tail)[0] == rep[0] && (rep + tail)[1..] == tail;
      } else {
        ExecThree(I, al, rep, tail, h.defs, t);
      }
    }
  }

  lemma NowIs(g: Graph, al: Aliases, xs: seq<Site>, done: seq<Id>, z: Id, rest: seq<Id>)
    requires Setting(g, al, xs) && g.order == done + [z] + rest
    ensures Now(g, done, z, rest)
  {
  }
}
