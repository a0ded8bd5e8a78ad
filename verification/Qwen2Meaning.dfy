/** The rewritten Qwen2 graph runs as the original does. */
module Qwen2Meaning {
  import opened Options
  import opened FxGraph
  import opened EffectEval
  import opened Presplit
  import opened Qwen2Presplit
  import opened Qwen2Apply
  import opened Splice

  /** The storage that a site's RoPE rotates. */
  function Root(al: Aliases, c: Candidate): Id {
    RootOf(al, c.query)
  }

  function Run(I: Interp, g: Graph, al: Aliases, n: Id, s: State): State {
    Exec(I, al, n, At(g, n), s)
  }

  // ----- what the premises of the rewrite are -----

  /** Between RoPE and KV update nothing uses the packed storage or writes what RoPE reads. */
  ghost predicate Undisturbed(g: Graph, al: Aliases, c: Candidate) {
    forall x | Precedes(g.order, c.rope, x) && Precedes(g.order, x, c.kvUpdate) :: Harmless(g, al, c, x)
  }

  ghost predicate Harmless(g: Graph, al: Aliases, c: Candidate, x: Id) {
    && Root(al, c) !in Touched(al, x, At(g, x))
    && Writes(al, x, At(g, x)) !! Touched(al, c.rope, At(g, c.rope))
  }

  /** The attention takes the KV update as its ordering argument only. */
  ghost predicate DummyOnly(g: Graph, c: Candidate) {
    c.kvUpdate !in Refs(Visible(At(g, c.attention)))
  }

  ghost predicate Quiet(g: Graph, al: Aliases, c: Candidate) {
    Undisturbed(g, al, c) && DummyOnly(g, c)
  }

  /** RoPE comes first. */
  ghost predicate RopeFirst(g: Graph, c: Candidate) {
    Precedes(g.order, c.rope, c.kvUpdate)
  }

  ghost predicate Sound(g: Graph, al: Aliases, c: Candidate) {
    RopeFirst(g, c) && Quiet(g, al, c)
  }

  // ----- one site -----

  lemma ViewSame(g: Graph, al: Aliases, n: Id, base: Id)
    requires Labels(g, al) && n in g.defs && ViewBase(g.defs[n]) == Some(base)
    ensures RefOf(al, n) == RefOf(al, base)
  {
  }

  lemma ItemRoot(g: Graph, al: Aliases, n: Id, index: int, base: Id)
    requires Labels(g, al) && n in g.defs && SplitItem(g.defs[n], index) == Some(base)
    ensures RootOf(al, n) == RootOf(al, base)
  {
  }

  lemma SiteRefs(g: Graph, al: Aliases, c: Candidate, b: Bases)
    requires Labels(g, al) && Wired(g, c, b)
    ensures RefOf(al, c.query) == RefOf(al, b.query) && RefOf(al, c.key) == RefOf(al, b.key)
    ensures RootOf(al, b.query) == RootOf(al, b.key) == Root(al, c)
  {
    ViewSame(g, al, c.query, b.query);
    ViewSame(g, al, c.key, b.key);
    ItemRoot(g, al, b.query, 0, b.split);
    ItemRoot(g, al, b.key, 1, b.split);
  }

  lemma RopeCall(I: Interp, g: Graph, al: Aliases, c: Candidate, b: Bases, s: State)
    requires RotatesBases(g, c, b)
    requires RefOf(al, c.query) == RefOf(al, b.query) && RefOf(al, c.key) == RefOf(al, b.key)
    ensures Run(I, g, al, c.rope, s) ==
            Rotated(I, s, Tensor(Read(I, s, RefOf(al, c.positions))), RefOf(al, c.query), RefOf(al, c.key),
                    HEAD_64, Tensor(Read(I, s, RefOf(al, c.cosSin))), TRUE_VAL)
  {
    hide Rotated, Read, RefOf, At;
    assert ByValue(BoolArg(true)) == RealArg(1.0) && ByValue(IntArg(64)) == RealArg(64.0);
  }

  lemma RopeRun(I: Interp, g: Graph, al: Aliases, c: Candidate, b: Bases, s: State)
    requires Labels(g, al) && Wired(g, c, b)
    ensures Run(I, g, al, c.rope, s) ==
            Rotated(I, s, Tensor(Read(I, s, RefOf(al, c.positions))), RefOf(al, c.query), RefOf(al, c.key),
                    HEAD_64, Tensor(Read(I, s, RefOf(al, c.cosSin))), TRUE_VAL)
  {
    hide Private, Packed, ReadsLayer, Rotated, Read, RotatesBases, Run;
    SiteRefs(g, al, c, b);
    RopeCall(I, g, al, c, b, s);
  }

  lemma KvRun(I: Interp, g: Graph, al: Aliases, c: Candidate, s: State)
    requires ReadsLayer(g, c)
    ensures Run(I, g, al, c.kvUpdate, s) ==
            Insert(I, s, Imm(StrArg(c.layer)), Tensor(Read(I, s, RefOf(al, c.key))), Tensor(Read(I, s, RefOf(al, c.value))))
  {
    hide Read, Insert;
  }

  lemma FusedRun(I: Interp, al: Aliases, c: Candidate, n: Id, meta: Option<TensorMeta>, s: State)
    requires c.isNeox
    ensures Exec(I, al, n, FusedNode(c, meta), s) ==
            var s' := Rotated(I, s, Tensor(Read(I, s, RefOf(al, c.positions))), RefOf(al, c.query), RefOf(al, c.key),
                              HEAD_64, Tensor(Read(I, s, RefOf(al, c.cosSin))), TRUE_VAL);
            Insert(I, s', Imm(StrArg(c.layer)), Tensor(Read(I, s', RefOf(al, c.key))), Tensor(Read(I, s', RefOf(al, c.value))))
  {
    hide Read, Insert, Rotated;
    var node := FusedNode(c, meta);
    assert Kw(node, "query") == Some(NodeArg(c.query)) && Kw(node, "key") == Some(NodeArg(c.key));
    assert Kw(node, "value") == Some(NodeArg(c.value)) && Kw(node, "positions") == Some(NodeArg(c.positions));
    assert Kw(node, "cos_sin_cache") == Some(NodeArg(c.cosSin)) && Kw(node, "is_neox") == Some(BoolArg(true));
    assert Kw(node, "layer_name") == Some(StrArg(c.layer));
  }

  /** The fused call is the RoPE followed at once by the KV update. */
  lemma FusedIsBoth(I: Interp, g: Graph, al: Aliases, c: Candidate, b: Bases, n: Id, meta: Option<TensorMeta>, s: State)
    requires Labels(g, al) && Wired(g, c, b)
    ensures Exec(I, al, n, FusedNode(c, meta), s) == Run(I, g, al, c.kvUpdate, Run(I, g, al, c.rope, s))
  {
    RopeRun(I, g, al, c, b, s);
    KvRun(I, g, al, c, Run(I, g, al, c.rope, s));
    FusedRun(I, al, c, n, meta, s);
  }

  // ----- where the two runs stand -----

  /** A site whose RoPE has run in the original and whose KV update has not. */
  predicate Pending(c: Candidate, done: seq<Id>) {
    c.rope in Elems(done) && c.kvUpdate !in Elems(done)
  }

  /** The storages that the original has rotated and the rewritten graph has not. */
  function PendingRoots(al: Aliases, cs: seq<Candidate>, done: seq<Id>): set<Id> {
    set i | 0 <= i < |cs| && Pending(cs[i], done) :: Root(al, cs[i])
  }

  /** What a pending site's storage will hold in the rewritten run. */
  function Ahead(I: Interp, g: Graph, al: Aliases, c: Candidate, t: State): Data {
    Run(I, g, al, c.rope, t).store(Root(al, c))
  }

  ghost predicate Caught(I: Interp, g: Graph, al: Aliases, cs: seq<Candidate>, done: seq<Id>, s: State, t: State) {
    forall i | 0 <= i < |cs| && Pending(cs[i], done) :: s.store(Root(al, cs[i])) == Ahead(I, g, al, cs[i], t)
  }

  ghost predicate Related(I: Interp, g: Graph, al: Aliases, cs: seq<Candidate>, done: seq<Id>, s: State, t: State) {
    Agree(s, t, PendingRoots(al, cs, done)) && Caught(I, g, al, cs, done, s, t)
  }

  ghost predicate Setting(g: Graph, al: Aliases, cs: seq<Candidate>, bs: seq<Bases>) {
    && g.Valid() && Labels(g, al) && Applicable(g, cs) && |bs| == |cs|
    && forall i | 0 <= i < |cs| :: Wired(g, cs[i], bs[i]) && Quiet(g, al, cs[i])
  }

  /** Among `ns` no KV update comes before its RoPE. */
  ghost predicate InTurn(g: Graph, cs: seq<Candidate>, ns: seq<Id>) {
    forall i | 0 <= i < |cs| && (cs[i].rope in Elems(ns) || cs[i].kvUpdate in Elems(ns)) :: RopeFirst(g, cs[i])
  }

  lemma RopeWrites(g: Graph, al: Aliases, c: Candidate, b: Bases, r: Id)
    requires Labels(g, al) && Wired(g, c, b)
    ensures r in Writes(al, c.rope, At(g, c.rope)) <==> r == Root(al, c)
    ensures Root(al, c) in Touched(al, c.rope, At(g, c.rope))
  {
    SiteRefs(g, al, c, b);
    RopeArgs(g, al, c, b);
    hide Wired, Labels, Touched, Writes;
    WritesTouched(al, c.rope, At(g, c.rope), Root(al, c));
  }

  lemma RopeArgs(g: Graph, al: Aliases, c: Candidate, b: Bases)
    requires RotatesBases(g, c, b) && RootOf(al, b.query) == RootOf(al, b.key) == Root(al, c)
    ensures forall r :: r in Writes(al, c.rope, At(g, c.rope)) <==> r == Root(al, c)
  {
    hide RefOf;
  }

  lemma RopeOnlyStores(I: Interp, g: Graph, al: Aliases, c: Candidate, b: Bases, s: State)
    requires Labels(g, al) && Wired(g, c, b)
    ensures Run(I, g, al, c.rope, s).cache == s.cache && Run(I, g, al, c.rope, s).log == s.log
    ensures forall r | r != Root(al, c) :: Run(I, g, al, c.rope, s).store(r) == s.store(r)
  {
    SiteRefs(g, al, c, b);
    RopeRun(I, g, al, c, b, s);
  }

  /** What RoPE makes of its storage depends on what it touches. */
  lemma AheadLocal(I: Interp, g: Graph, al: Aliases, c: Candidate, b: Bases, s: State, t: State)
    requires Labels(g, al) && Wired(g, c, b)
    requires forall r | r in Touched(al, c.rope, At(g, c.rope)) :: s.store(r) == t.store(r)
    ensures Ahead(I, g, al, c, s) == Ahead(I, g, al, c, t)
  {
    SiteRefs(g, al, c, b);
    RopeRun(I, g, al, c, b, s);
    RopeRun(I, g, al, c, b, t);
    RopeTouches(g, al, c, b);
    hide Private, Packed, ReadsLayer, Touched, Wired;
  }

  lemma RopeTouches(g: Graph, al: Aliases, c: Candidate, b: Bases)
    requires Labels(g, al) && Wired(g, c, b)
    ensures var touched := Touched(al, c.rope, At(g, c.rope));
            RootOf(al, c.query) in touched && RootOf(al, c.key) in touched
            && RootOf(al, c.positions) in touched && RootOf(al, c.cosSin) in touched
  {
    SiteRefs(g, al, c, b);
    RopeNeeds(g, c, b);
    hide Private, Packed, ReadsLayer;
    ArgIsRef(At(g, c.rope), 1, "query", b.query);
    ArgIsRef(At(g, c.rope), 2, "key", b.key);
    hide Refs;
    assert [c.positions, c.cosSin][0] == c.positions && [c.positions, c.cosSin][1] == c.cosSin;
  }

  // ----- a node in between -----

  lemma PassBetween(g: Graph, al: Aliases, cs: seq<Candidate>, bs: seq<Bases>, done: seq<Id>, x: Id, rest: seq<Id>, i: nat)
    requires Setting(g, al, cs, bs) && g.order == done + [x] + rest
    requires i < |cs| && Pending(cs[i], done) && cs[i].kvUpdate != x
    ensures Harmless(g, al, cs[i], x)
  {
    var c := cs[i];
    assert Wired(g, c, bs[i]) && Quiet(g, al, c);
    hide Wired, Labels, Applicable, NoDup, Elems, Precedes, Harmless;
    NowBetween(g.order, done, x, rest, c.rope, c.kvUpdate);
  }

  lemma HarmlessAvoids(g: Graph, al: Aliases, cs: seq<Candidate>, done: seq<Id>, x: Id)
    requires forall i | 0 <= i < |cs| && Pending(cs[i], done) :: Harmless(g, al, cs[i], x)
    ensures forall r | r in PendingRoots(al, cs, done) :: r !in Touched(al, x, At(g, x))
  {
    hide Touched, Writes, Pending;
  }

  /** A harmless node keeps the runs related. */
  lemma Pass(I: Interp, g: Graph, al: Aliases, cs: seq<Candidate>, bs: seq<Bases>, done: seq<Id>, x: Id, s: State, t: State)
    requires Setting(g, al, cs, bs) && Related(I, g, al, cs, done, s, t)
    requires forall i | 0 <= i < |cs| && Pending(cs[i], done) :: Harmless(g, al, cs[i], x)
    ensures Related(I, g, al, cs, done, Run(I, g, al, x, s), Run(I, g, al, x, t))
  {
    hide Touched, Writes, Exec, Wired, Quiet, Labels, Graph.Valid, Applicable, Agree;
    var (s', t') := (Run(I, g, al, x, s), Run(I, g, al, x, t));
    HarmlessAvoids(g, al, cs, done, x);
    ExecAgrees(I, al, x, At(g, x), s, t, PendingRoots(al, cs, done));
    forall i | 0 <= i < |cs| && Pending(cs[i], done)
      ensures s'.store(Root(al, cs[i])) == Ahead(I, g, al, cs[i], t')
    {
      PassOne(I, g, al, cs[i], bs[i], x, s, t);
    }
  }

  lemma PassOne(I: Interp, g: Graph, al: Aliases, c: Candidate, b: Bases, x: Id, s: State, t: State)
    requires Labels(g, al) && Wired(g, c, b) && Harmless(g, al, c, x)
    requires s.store(Root(al, c)) == Ahead(I, g, al, c, t)
    ensures Run(I, g, al, x, s).store(Root(al, c)) == Ahead(I, g, al, c, Run(I, g, al, x, t))
  {
    hide Touched, Writes, Exec, Wired, Labels;
    var node := At(g, x);
    if Root(al, c) in Writes(al, x, node) { WritesTouched(al, x, node, Root(al, c)); }
    ExecFrame(I, al, x, node, s, Root(al, c));
    forall r | r in Touched(al, c.rope, At(g, c.rope))
      ensures Run(I, g, al, x, t).store(r) == t.store(r)
    {
      ExecFrame(I, al, x, node, t, r);
    }
    AheadLocal(I, g, al, c, b, t, Run(I, g, al, x, t));
  }

  // ----- one step of both runs -----

  lemma Later(done: seq<Id>, x: Id, n: Id)
    ensures n in Elems(done + [x]) <==> n in Elems(done) || n == x
  {
    ElemsSplit(done, [x], n);
    assert [x][0] == x && [x][1..] == [];
  }

  /** A node of no site changes nobody's turn. */
  lemma SamePending(I: Interp, g: Graph, al: Aliases, cs: seq<Candidate>, done: seq<Id>, x: Id, s: State, t: State)
    requires Related(I, g, al, cs, done, s, t)
    requires forall i | 0 <= i < |cs| :: cs[i].rope != x && cs[i].kvUpdate != x
    ensures Related(I, g, al, cs, done + [x], s, t)
  {
    forall i | 0 <= i < |cs|
      ensures Pending(cs[i], done + [x]) <==> Pending(cs[i], done)
    {
      Later(done, x, cs[i].rope);
      Later(done, x, cs[i].kvUpdate);
    }
    hide Pending, Run;
    forall r
      ensures r in PendingRoots(al, cs, done) <==> r in PendingRoots(al, cs, done + [x])
    {
    }
  }

  /** When RoPE runs, its site becomes pending. */
  lemma RopeTurn(I: Interp, g: Graph, al: Aliases, cs: seq<Candidate>, bs: seq<Bases>, done: seq<Id>, k: nat, s: State, t: State)
    requires Setting(g, al, cs, bs) && k < |cs| && Related(I, g, al, cs, done, s, t)
    requires cs[k].rope !in Elems(done) && cs[k].kvUpdate !in Elems(done)
    requires forall i | 0 <= i < |cs| && Pending(cs[i], done) :: Harmless(g, al, cs[i], cs[k].rope)
    ensures Related(I, g, al, cs, done + [cs[k].rope], Run(I, g, al, cs[k].rope, s), t)
  {
    hide Pending, Run, Wired, Quiet, Labels, Graph.Valid, Applicable, Touched, Writes;
    var (c, x) := (cs[k], cs[k].rope);
    var s' := Run(I, g, al, x, s);
    var done' := done + [x];
    RopePending(g, cs, done, k);
    RopeOnlyStores(I, g, al, c, bs[k], s);
    RopeWrites(g, al, c, bs[k], Root(al, c));
    MorePending(al, cs, done, done', k);
    RopeSees(I, g, al, cs, bs, done, k, s, t);
    forall i | 0 <= i < |cs| && Pending(cs[i], done')
      ensures s'.store(Root(al, cs[i])) == Ahead(I, g, al, cs[i], t)
    {
      if i != k { assert Harmless(g, al, cs[i], x); }
    }
  }

  lemma MorePending(al: Aliases, cs: seq<Candidate>, done: seq<Id>, done': seq<Id>, k: nat)
    requires k < |cs| && !Pending(cs[k], done) && Pending(cs[k], done')
    requires forall i | 0 <= i < |cs| && i != k :: Pending(cs[i], done') <==> Pending(cs[i], done)
    ensures forall r :: r in PendingRoots(al, cs, done') <==> r in PendingRoots(al, cs, done) || r == Root(al, cs[k])
  {
    hide Pending, Root;
    forall r
      ensures r in PendingRoots(al, cs, done') <==> r in PendingRoots(al, cs, done) || r == Root(al, cs[k])
    {
      if r in PendingRoots(al, cs, done) {
        var i :| 0 <= i < |cs| && Pending(cs[i], done) && r == Root(al, cs[i]);
        assert Pending(cs[i], done');
      }
    }
  }

  lemma RopePending(g: Graph, cs: seq<Candidate>, done: seq<Id>, k: nat)
    requires Applicable(g, cs) && k < |cs| && cs[k].rope !in Elems(done) && cs[k].kvUpdate !in Elems(done)
    ensures !Pending(cs[k], done) && Pending(cs[k], done + [cs[k].rope])
    ensures forall i | 0 <= i < |cs| && i != k :: Pending(cs[i], done + [cs[k].rope]) <==> Pending(cs[i], done)
  {
    var x := cs[k].rope;
    Later(done, x, x);
    assert Usable(g, cs[k]);
    Later(done, x, cs[k].kvUpdate);
    forall i | 0 <= i < |cs| && i != k
      ensures Pending(cs[i], done + [x]) <==> Pending(cs[i], done)
    {
      PartsDiffer(g, cs, i, k);
      Later(done, x, cs[i].rope);
      Later(done, x, cs[i].kvUpdate);
    }
  }

  /** RoPE reads the same in both runs. */
  lemma RopeSees(I: Interp, g: Graph, al: Aliases, cs: seq<Candidate>, bs: seq<Bases>, done: seq<Id>, k: nat, s: State, t: State)
    requires Setting(g, al, cs, bs) && k < |cs| && Related(I, g, al, cs, done, s, t)
    requires forall i | 0 <= i < |cs| && Pending(cs[i], done) :: Harmless(g, al, cs[i], cs[k].rope)
    ensures Ahead(I, g, al, cs[k], s) == Ahead(I, g, al, cs[k], t)
  {
    hide Pending, Run, Wired, Quiet, Labels, Graph.Valid, Applicable, Touched, Writes;
    HarmlessAvoids(g, al, cs, done, cs[k].rope);
    AheadLocal(I, g, al, cs[k], bs[k], s, t);
  }

  /** Two pending sites do not rotate what the other's RoPE touches. */
  lemma PendingApart(g: Graph, al: Aliases, cs: seq<Candidate>, bs: seq<Bases>, done: seq<Id>, todo: seq<Id>, i: nat, k: nat)
    requires Setting(g, al, cs, bs) && g.order == done + todo && i < |cs| && k < |cs| && i != k
    requires Pending(cs[i], done) && Pending(cs[k], done)
    ensures Root(al, cs[k]) !in Touched(al, cs[i].rope, At(g, cs[i].rope))
  {
    hide Wired, Labels, NoDup, Touched, Writes, Precedes, Run;
    var (c, d) := (cs[i], cs[k]);
    PartsDiffer(g, cs, i, k);
    assert Wired(g, d, bs[k]) && Quiet(g, al, c) && Quiet(g, al, d) && Usable(g, c) && Usable(g, d);
    RopeWrites(g, al, d, bs[k], Root(al, d));
    ElemsSplit(done, todo, c.kvUpdate);
    ElemsSplit(done, todo, d.kvUpdate);
    hide Elems, Usable;
    PrecedesTotal(g.order, c.rope, d.rope);
    if Precedes(g.order, c.rope, d.rope) {
      PrecedesAcross(done, todo, d.rope, c.kvUpdate);
      assert Harmless(g, al, c, d.rope);
    } else {
      PrecedesAcross(done, todo, c.rope, d.kvUpdate);
      assert Harmless(g, al, d, c.rope);
    }
  }

  lemma KvPending(g: Graph, cs: seq<Candidate>, done: seq<Id>, k: nat)
    requires Applicable(g, cs) && k < |cs|
    ensures !Pending(cs[k], done + [cs[k].kvUpdate])
    ensures forall i | 0 <= i < |cs| && i != k :: Pending(cs[i], done + [cs[k].kvUpdate]) <==> Pending(cs[i], done)
  {
    var x := cs[k].kvUpdate;
    Later(done, x, x);
    forall i | 0 <= i < |cs| && i != k
      ensures Pending(cs[i], done + [x]) <==> Pending(cs[i], done)
    {
      PartsDiffer(g, cs, i, k);
      Later(done, x, cs[i].rope);
      Later(done, x, cs[i].kvUpdate);
    }
  }

  /** Once the rewritten run rotates too, the site is no longer pending. */
  lemma CatchUp(I: Interp, g: Graph, al: Aliases, cs: seq<Candidate>, bs: seq<Bases>,
                done: seq<Id>, done': seq<Id>, k: nat, s: State, t: State)
    requires Setting(g, al, cs, bs) && k < |cs| && Related(I, g, al, cs, done, s, t)
    requires Pending(cs[k], done) && !Pending(cs[k], done')
    requires forall i | 0 <= i < |cs| && i != k :: Pending(cs[i], done') <==> Pending(cs[i], done)
    requires forall i | 0 <= i < |cs| && i != k && Pending(cs[i], done) ::
               Root(al, cs[k]) !in Touched(al, cs[i].rope, At(g, cs[i].rope))
    ensures Related(I, g, al, cs, done', s, Run(I, g, al, cs[k].rope, t))
  {
    hide Pending, Run, Wired, Quiet, Labels, Graph.Valid, Applicable, Touched, Writes;
    var c := cs[k];
    var t' := Run(I, g, al, c.rope, t);
    RopeOnlyStores(I, g, al, c, bs[k], t);
    MorePending(al, cs, done', done, k);
    forall i | 0 <= i < |cs| && Pending(cs[i], done')
      ensures s.store(Root(al, cs[i])) == Ahead(I, g, al, cs[i], t')
    {
      AheadLocal(I, g, al, cs[i], bs[i], t, t');
    }
  }

  lemma KvTurn(I: Interp, g: Graph, al: Aliases, cs: seq<Candidate>, bs: seq<Bases>,
               done: seq<Id>, rest: seq<Id>, k: nat, s: State, t: State)
    requires Setting(g, al, cs, bs) && k < |cs| && Related(I, g, al, cs, done, s, t)
    requires g.order == done + [cs[k].kvUpdate] + rest && Pending(cs[k], done)
    ensures var x := cs[k].kvUpdate;
            Related(I, g, al, cs, done + [x], Run(I, g, al, x, s), Run(I, g, al, x, Run(I, g, al, cs[k].rope, t)))
  {
    hide Pending, Run, Wired, Quiet, Labels, Graph.Valid, Applicable, Touched, Writes, Related;
    var x := cs[k].kvUpdate;
    KvPending(g, cs, done, k);
    assert g.order == done + ([x] + rest);
    forall i | 0 <= i < |cs| && i != k && Pending(cs[i], done)
      ensures Root(al, cs[k]) !in Touched(al, cs[i].rope, At(g, cs[i].rope)) && Harmless(g, al, cs[i], x)
    {
      PendingApart(g, al, cs, bs, done, [x] + rest, i, k);
      PartsDiffer(g, cs, i, k);
      PassBetween(g, al, cs, bs, done, x, rest, i);
    }
    CatchUp(I, g, al, cs, bs, done, done + [x], k, s, t);
    Pass(I, g, al, cs, bs, done + [x], x, s, Run(I, g, al, cs[k].rope, t));
  }

  // ----- the whole runs -----

  lemma {:induction false} RepsExact(g: Graph, cs: seq<Candidate>, m: nat, k: nat)
    requires k < m <= |cs| && Applicable(g, cs)
    ensures RepOf(Reps(g, cs, m), cs[k].rope) == [] && RepOf(Reps(g, cs, m), cs[k].kvUpdate) == [FusedId(g, k)]
  {
    hide Applicable;
    if k < m - 1 {
      RepsExact(g, cs, m - 1, k);
      PartsDiffer(g, cs, k, m - 1);
    } else {
      KvIsNotRope(g, cs, k);
    }
  }

  lemma KvIsNotRope(g: Graph, cs: seq<Candidate>, k: nat)
    requires k < |cs| && Applicable(g, cs)
    ensures cs[k].kvUpdate != cs[k].rope
  {
    assert Usable(g, cs[k]);
  }

  /** Redirecting the ordering argument does not show. */
  lemma VisibleSame(node: Node, kv: Id, fused: Id)
    requires node.target.Attention? && kv !in Refs(Visible(node))
    ensures Visible(Rename(node, map[kv := fused])) == Visible(node)
  {
    var v := Visible(node);
    RenameNothing(v, map[kv := fused]);
    assert Visible(Rename(node, map[kv := fused])) == Rename(v, map[kv := fused]);
  }

  lemma AttentionRuns(I: Interp, al: Aliases, n: Id, a: Node, b: Node, s: State)
    requires a.target.Attention? && b.target.Attention? && Visible(a) == Visible(b)
    ensures Exec(I, al, n, a, s) == Exec(I, al, n, b, s)
  {
    hide Visible, Attend;
  }

  lemma AttendedRuns(I: Interp, g: Graph, al: Aliases, cs: seq<Candidate>, h: Graph, i: nat, s: State)
    requires g.Valid() && Applicable(g, cs) && i < |cs| && DummyOnly(g, cs[i]) && FusedAt(g, cs[i], i, h)
    ensures Exec(I, al, cs[i].attention, h.defs[cs[i].attention], s) == Run(I, g, al, cs[i].attention, s)
  {
    assert Usable(g, cs[i]);
    hide Usable, Applicable, Visible, Graph.Valid, Refs, FusedNode, Exec;
    var x := cs[i].attention;
    VisibleSame(g.defs[x], cs[i].kvUpdate, FusedId(g, i));
    AttentionRuns(I, al, x, h.defs[x], g.defs[x], s);
  }

  /** A surviving node does in the rewritten graph what it did. */
  lemma SurvivorRuns(I: Interp, g: Graph, al: Aliases, cs: seq<Candidate>, bs: seq<Bases>, h: Graph, x: Id, s: State)
    requires Setting(g, al, cs, bs) && Applied(g, cs, |cs|, h) && x in g.defs && x !in Gone(cs, |cs|)
    ensures x in h.defs && Exec(I, al, x, h.defs[x], s) == Run(I, g, al, x, s)
  {
    hide Wired, Labels, Applicable, Graph.Valid, Exec, Undisturbed, DummyOnly, FusedAt;
    if x in Attended(cs, |cs|) {
      var i := AttendedIs(cs, |cs|, x);
      assert Quiet(g, al, cs[i]) && FusedAt(g, cs[i], i, h);
      AttendedRuns(I, g, al, cs, h, i, s);
    }
  }

  lemma RestDefined(g: Graph, cs: seq<Candidate>, h: Graph, todo: seq<Id>)
    requires g.Valid() && Applicable(g, cs) && Applied(g, cs, |cs|, h) && Elems(todo) <= g.defs.Keys
    ensures Elems(Spliced(todo, Reps(g, cs, |cs|))) <= h.defs.Keys
  {
    hide Applicable, FusedNode, Rename;
    forall n | n in Elems(Spliced(todo, Reps(g, cs, |cs|)))
      ensures n in h.defs
    {
      var x := SplicedIn(todo, Reps(g, cs, |cs|), n);
      if x in Gone(cs, |cs|) {
        var k := GoneIs(cs, |cs|, x);
        RepsExact(g, cs, |cs|, k);
        assert FusedAt(g, cs[k], k, h);
      } else {
        RepsAre(g, cs, |cs|, x, n);
      }
    }
  }

  /** One step of the original and the steps that replace it. */
  lemma StepBoth(I: Interp, g: Graph, al: Aliases, cs: seq<Candidate>, bs: seq<Bases>, h: Graph,
                 done: seq<Id>, x: Id, rest: seq<Id>, s: State, t: State) returns (t': State)
    requires Setting(g, al, cs, bs) && Applied(g, cs, |cs|, h) && x in g.defs
    requires g.order == done + [x] + rest && Related(I, g, al, cs, done, s, t)
    requires forall i | 0 <= i < |cs| && (cs[i].rope == x || cs[i].kvUpdate == x) :: RopeFirst(g, cs[i])
    ensures Related(I, g, al, cs, done + [x], Run(I, g, al, x, s), t')
    ensures var rep := RepOf(Reps(g, cs, |cs|), x);
            || (rep == [] && t' == t)
            || (|rep| == 1 && rep[0] in h.defs && t' == Exec(I, al, rep[0], h.defs[rep[0]], t))
  {
    hide Wired, Labels, Applicable, Graph.Valid, Exec, Quiet, Related, Harmless, Pending;
    if x in Gone(cs, |cs|) {
      var k := GoneIs(cs, |cs|, x);
      RepsExact(g, cs, |cs|, k);
      if x == cs[k].rope {
        t' := t;
        RopeStep(I, g, al, cs, bs, done, rest, k, s, t);
      } else {
        t' := Run(I, g, al, x, Run(I, g, al, cs[k].rope, t));
        KvStep(I, g, al, cs, bs, done, rest, k, s, t);
        assert FusedAt(g, cs[k], k, h);
        FusedIsBoth(I, g, al, cs[k], bs[k], FusedId(g, k), At(g, x).meta, t);
      }
    } else {
      t' := Run(I, g, al, x, t);
      RepsAre(g, cs, |cs|, x, x);
      SurvivorRuns(I, g, al, cs, bs, h, x, t);
      OtherStep(I, g, al, cs, bs, done, x, rest, s, t);
    }
  }

  lemma OtherStep(I: Interp, g: Graph, al: Aliases, cs: seq<Candidate>, bs: seq<Bases>, done: seq<Id>, x: Id, rest: seq<Id>,
                  s: State, t: State)
    requires Setting(g, al, cs, bs) && x !in Gone(cs, |cs|)
    requires g.order == done + [x] + rest && Related(I, g, al, cs, done, s, t)
    ensures Related(I, g, al, cs, done + [x], Run(I, g, al, x, s), Run(I, g, al, x, t))
  {
    hide Wired, Labels, Applicable, Graph.Valid, Exec, Quiet, Related, Harmless, Pending;
    forall i: nat | i < |cs|
      ensures cs[i].rope != x && cs[i].kvUpdate != x
    {
      IsGone(cs, |cs|, i);
    }
    forall i | 0 <= i < |cs| && Pending(cs[i], done)
      ensures Harmless(g, al, cs[i], x)
    {
      PassBetween(g, al, cs, bs, done, x, rest, i);
    }
    Pass(I, g, al, cs, bs, done, x, s, t);
    SamePending(I, g, al, cs, done, x, Run(I, g, al, x, s), Run(I, g, al, x, t));
  }

  /** At a site's RoPE neither it nor its KV update has run; at its KV update RoPE has. */
  lemma TurnOf(g: Graph, al: Aliases, cs: seq<Candidate>, bs: seq<Bases>, done: seq<Id>, x: Id, rest: seq<Id>, k: nat)
    requires Setting(g, al, cs, bs) && g.order == done + [x] + rest && k < |cs| && RopeFirst(g, cs[k])
    ensures x == cs[k].rope ==> x !in Elems(done) && cs[k].kvUpdate !in Elems(done)
    ensures x == cs[k].kvUpdate ==> Pending(cs[k], done)
  {
    hide Wired, Labels, Applicable, Quiet, Precedes, NoDup, Elems;
    Turns(g.order, done, x, rest, cs[k].rope, cs[k].kvUpdate);
  }

  lemma RopeStep(I: Interp, g: Graph, al: Aliases, cs: seq<Candidate>, bs: seq<Bases>, done: seq<Id>, rest: seq<Id>, k: nat,
                 s: State, t: State)
    requires Setting(g, al, cs, bs) && k < |cs| && Related(I, g, al, cs, done, s, t)
    requires g.order == done + [cs[k].rope] + rest && RopeFirst(g, cs[k])
    ensures Related(I, g, al, cs, done + [cs[k].rope], Run(I, g, al, cs[k].rope, s), t)
  {
    hide Wired, Labels, Applicable, Graph.Valid, Exec, Quiet, Related, Harmless, Pending;
    var x := cs[k].rope;
    TurnOf(g, al, cs, bs, done, x, rest, k);
    forall i | 0 <= i < |cs| && Pending(cs[i], done)
      ensures Harmless(g, al, cs[i], x)
    {
      NotMine(g, cs, done, i, k);
      PassBetween(g, al, cs, bs, done, x, rest, i);
    }
    RopeTurn(I, g, al, cs, bs, done, k, s, t);
  }

  lemma NotMine(g: Graph, cs: seq<Candidate>, done: seq<Id>, i: nat, k: nat)
    requires Applicable(g, cs) && i < |cs| && k < |cs| && Pending(cs[i], done) && cs[k].rope !in Elems(done)
    ensures cs[i].kvUpdate != cs[k].rope
  {
    if i != k { PartsDiffer(g, cs, i, k); }
  }

  lemma KvStep(I: Interp, g: Graph, al: Aliases, cs: seq<Candidate>, bs: seq<Bases>, done: seq<Id>, rest: seq<Id>, k: nat,
               s: State, t: State)
    requires Setting(g, al, cs, bs) && k < |cs| && Related(I, g, al, cs, done, s, t)
    requires g.order == done + [cs[k].kvUpdate] + rest && RopeFirst(g, cs[k])
    ensures var x := cs[k].kvUpdate;
            Related(I, g, al, cs, done + [x], Run(I, g, al, x, s), Run(I, g, al, x, Run(I, g, al, cs[k].rope, t)))
  {
    hide Wired, Labels, Applicable, Graph.Valid, Exec, Quiet, Related, Harmless, Pending;
    TurnOf(g, al, cs, bs, done, cs[k].kvUpdate, rest, k);
    KvTurn(I, g, al, cs, bs, done, rest, k, s, t);
  }

  /** Over any stretch of the list in which every site's RoPE comes first. */
  lemma {:induction false} Simulate(I: Interp, g: Graph, al: Aliases, cs: seq<Candidate>, bs: seq<Bases>, h: Graph,
                                    done: seq<Id>, todo: seq<Id>, after: seq<Id>, s: State, t: State)
    requires Setting(g, al, cs, bs) && Applied(g, cs, |cs|, h)
    requires g.order == (done + todo) + after && Elems(todo) <= g.defs.Keys && Related(I, g, al, cs, done, s, t)
    requires InTurn(g, cs, todo)
    ensures Elems(Spliced(todo, Reps(g, cs, |cs|))) <= h.defs.Keys
    ensures Related(I, g, al, cs, done + todo, ExecAll(I, al, todo, g.defs, s),
                    ExecAll(I, al, Spliced(todo, Reps(g, cs, |cs|)), h.defs, t))
    decreases |todo|
  {
    hide Wired, Labels, Applicable, Graph.Valid, Exec, Quiet, Related, Reps, RopeFirst;
    RestDefined(g, cs, h, todo);
    if todo == [] {
      assert done + todo == done;
    } else {
      var (x, rest) := (todo[0], todo[1..]);
      assert todo == [x] + rest && done + todo == (done + [x]) + rest;
      assert g.order == done + [x] + (rest + after) && g.order == ((done + [x]) + rest) + after;
      var t' := StepBoth(I, g, al, cs, bs, h, done, x, rest + after, s, t);
      Simulate(I, g, al, cs, bs, h, done + [x], rest, after, Run(I, g, al, x, s), t');
      var tail := Spliced(rest, Reps(g, cs, |cs|));
      var rep := RepOf(Reps(g, cs, |cs|), x);
      assert Spliced(todo, Reps(g, cs, |cs|)) == rep + tail;
      if rep == [] {
        assert rep + tail == tail;
      } else {
        assert (rep + tail)[0] == rep[0] && (rep + tail)[1..] == tail;
      }
    }
  }

  lemma NewLabel(g: Graph, al: Aliases, cs: seq<Candidate>, h: Graph, i: nat)
    requires g.Valid() && i < |cs| && FusedAt(g, cs[i], i, h) && al == AliasesOf(g)
    ensures RefOf(al, FusedId(g, i)) == AliasOf(FusedId(g, i), h.defs[FusedId(g, i)], al)
  {
    hide Rename;
    var n := FusedId(g, i);
    if n in al { AliasRunKeys(g.order, g.defs, map[], n); }
  }

  lemma AttentionLabel(g: Graph, al: Aliases, cs: seq<Candidate>, h: Graph, i: nat)
    requires g.Valid() && i < |cs| && Usable(g, cs[i]) && FusedAt(g, cs[i], i, h) && Labels(g, al)
    ensures RefOf(al, cs[i].attention) == AliasOf(cs[i].attention, h.defs[cs[i].attention], al)
  {
    hide Refs, FusedNode, Graph.Valid;
  }

  lemma LabelsStay(g: Graph, cs: seq<Candidate>, h: Graph)
    requires g.Valid() && LintClean(g) && Applicable(g, cs) && Applied(g, cs, |cs|, h)
    ensures Labels(h, AliasesOf(g))
  {
    hide LintClean, AliasOf, Usable, FusedAt, Refs;
    var al := AliasesOf(g);
    AliasesLabel(g);
    forall n | n in h.defs
      ensures RefOf(al, n) == AliasOf(n, h.defs[n], al)
    {
      if n in Attended(cs, |cs|) {
        var i := AttendedIs(cs, |cs|, n);
        AttentionLabel(g, al, cs, h, i);
      } else if n !in g.defs {
        NewLabel(g, al, cs, h, n - g.next);
      }
    }
  }

  /** The rewritten graph leaves the caches, the attention calls with all their inputs, and
      every storage exactly as the original does. */
  lemma RunPreserved(I: Interp, g: Graph, cs: seq<Candidate>, bs: seq<Bases>, h: Graph, s: State)
    requires g.Valid() && h.Valid() && LintClean(g) && LintClean(h)
    requires Applicable(g, cs) && Applied(g, cs, |cs|, h) && |bs| == |cs|
    requires forall i | 0 <= i < |cs| :: Wired(g, cs[i], bs[i]) && Sound(g, AliasesOf(g), cs[i])
    ensures Execute(I, h, s).cache == Execute(I, g, s).cache
    ensures Execute(I, h, s).log == Execute(I, g, s).log
    ensures forall r :: Execute(I, h, s).store(r) == Execute(I, g, s).store(r)
  {
    hide Wired, Applicable, Exec, Quiet, Reps, LintClean, Related, Graph.Valid, FusedAt, Labels, RopeFirst;
    AllDefined(g);
    var al := AliasesOf(g);
    AliasesLabel(g);
    LabelsStay(g, cs, h);
    ExecuteLabelled(I, h, al, s);
    assert ([] + g.order) + [] == g.order && [] + g.order == g.order;
    NoneStarted(I, g, al, cs, s);
    Simulate(I, g, al, cs, bs, h, [], g.order, [], s, s);
    NonePending(I, g, al, cs, ExecAll(I, al, g.order, g.defs, s), ExecAll(I, al, h.order, h.defs, s));
  }

  lemma AllDefined(g: Graph)
    requires g.Valid()
    ensures Elems(g.order) <= g.defs.Keys
  {
  }

  lemma NoneStarted(I: Interp, g: Graph, al: Aliases, cs: seq<Candidate>, s: State)
    ensures Related(I, g, al, cs, [], s, s)
  {
    hide Run;
  }

  lemma NonePending(I: Interp, g: Graph, al: Aliases, cs: seq<Candidate>, s: State, t: State)
    requires g.Valid() && Applicable(g, cs) && Related(I, g, al, cs, g.order, s, t)
    ensures s.cache == t.cache && s.log == t.log && forall r :: s.store(r) == t.store(r)
  {
    forall i | 0 <= i < |cs|
      ensures !Pending(cs[i], g.order)
    {
      Basics(g, cs, i);
    }
    hide Applicable, Run, Pending, Graph.Valid;
  }
}
