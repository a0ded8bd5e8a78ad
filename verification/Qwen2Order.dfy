/** Why RoPE has to come before the KV update, and that nothing else has to hold of the order: a
    Qwen2 rewrite keeps every run's caches exactly when every site's RoPE comes first. */
module Qwen2Order {
  import opened Options
  import opened FxGraph
  import opened EffectEval
  import opened Presplit
  import opened Qwen2Presplit
  import opened Qwen2Apply
  import opened Qwen2Meaning
  import opened Qwen2Outcome
  import opened Splice

  // ----- interpretations that tell a rotated key from an unrotated one -----

  /** Writing a part writes the whole, RoPE flips the key's bit, and insertion shows the bit. */
  ghost predicate Telling(I: Interp, bit: Data -> bool) {
    && (forall path, d :: I.part(path, d) == d)
    && (forall path, d, v :: I.patch(path, d, v) == v)
    && (forall pos, q, k, head, cos, neox :: bit(I.rope(pos, q, k, head, cos, neox).1) != bit(k))
    && (forall layer, c, k, v, k', v' :: bit(k) != bit(k') ==> I.insert(layer, c, Tensor(k), v) != I.insert(layer, c, Tensor(k'), v'))
  }

  lemma WholeRead(I: Interp, bit: Data -> bool, s: State, r: Ref)
    requires Telling(I, bit)
    ensures Read(I, s, r) == s.store(r.root)
  {
  }

  lemma KeyFlips(I: Interp, bit: Data -> bool, s: State, pos: Val, q: Ref, k: Ref, head: Val, cos: Val, neox: Val)
    requires Telling(I, bit)
    ensures bit(Read(I, Rotated(I, s, pos, q, k, head, cos, neox), k)) != bit(Read(I, s, k))
  {
    WholeRead(I, bit, s, k);
    WholeRead(I, bit, Rotated(I, s, pos, q, k, head, cos, neox), k);
  }

  // ----- the first KV update that comes before its RoPE -----

  lemma TurnKeeps(g: Graph, cs: seq<Candidate>, done: seq<Id>, x: Id, rest: seq<Id>)
    requires g.Valid() && Applicable(g, cs) && InTurn(g, cs, done) && g.order == done + [x] + rest
    requires forall i | 0 <= i < |cs| && cs[i].kvUpdate == x :: RopeFirst(g, cs[i])
    ensures InTurn(g, cs, done + [x])
  {
    forall i | 0 <= i < |cs| && (cs[i].rope in Elems(done + [x]) || cs[i].kvUpdate in Elems(done + [x]))
      ensures RopeFirst(g, cs[i])
    {
      Later(done, x, cs[i].rope);
      Later(done, x, cs[i].kvUpdate);
      if cs[i].rope == x && !RopeFirst(g, cs[i]) {
        KvFirst(g, cs, i);
        Turns(g.order, done, x, rest, cs[i].kvUpdate, cs[i].rope);
      }
    }
  }

  lemma KvFirst(g: Graph, cs: seq<Candidate>, i: nat)
    requires g.Valid() && Applicable(g, cs) && i < |cs| && !RopeFirst(g, cs[i])
    ensures Precedes(g.order, cs[i].kvUpdate, cs[i].rope)
  {
    Basics(g, cs, i);
    PrecedesTotal(g.order, cs[i].rope, cs[i].kvUpdate);
  }

  lemma {:induction false} FirstLate(g: Graph, cs: seq<Candidate>, done: seq<Id>, todo: seq<Id>, late: nat)
    returns (k: nat, before: seq<Id>, rest: seq<Id>)
    requires g.Valid() && Applicable(g, cs) && g.order == done + todo && InTurn(g, cs, done)
    requires late < |cs| && !RopeFirst(g, cs[late]) && cs[late].kvUpdate in Elems(todo)
    ensures k < |cs| && !RopeFirst(g, cs[k]) && g.order == before + [cs[k].kvUpdate] + rest && InTurn(g, cs, before)
    decreases |todo|
  {
    hide Applicable, Graph.Valid, RopeFirst, InTurn;
    var x := todo[0];
    assert todo == [x] + todo[1..] && done + todo == done + [x] + todo[1..];
    if i :| 0 <= i < |cs| && cs[i].kvUpdate == x && !RopeFirst(g, cs[i]) {
      k, before, rest := i, done, todo[1..];
    } else {
      TurnKeeps(g, cs, done, x, todo[1..]);
      k, before, rest := FirstLate(g, cs, done + [x], todo[1..], late);
    }
  }

  // ----- what the two runs insert there -----

  lemma KvTouchesKey(g: Graph, al: Aliases, c: Candidate, b: Bases)
    requires Labels(g, al) && Wired(g, c, b)
    ensures Root(al, c) in Touched(al, c.kvUpdate, At(g, c.kvUpdate))
  {
    SiteRefs(g, al, c, b);
    hide Private, Packed, RotatesBases, Refs;
    ArgIsRef(At(g, c.kvUpdate), 0, "key", c.key);
    assert Visible(At(g, c.kvUpdate)) == At(g, c.kvUpdate) && !Inert(At(g, c.kvUpdate));
  }

  /** Up to the first late KV update the runs agree on the key it is about to insert. */
  lemma KeysAgree(I: Interp, g: Graph, al: Aliases, cs: seq<Candidate>, bs: seq<Bases>, k: nat, before: seq<Id>, rest: seq<Id>,
                  s: State, t: State)
    requires Setting(g, al, cs, bs) && k < |cs| && !RopeFirst(g, cs[k])
    requires g.order == before + [cs[k].kvUpdate] + rest && InTurn(g, cs, before) && Related(I, g, al, cs, before, s, t)
    ensures s.cache == t.cache && s.store(Root(al, cs[k])) == t.store(Root(al, cs[k]))
  {
    hide Wired, Labels, Graph.Valid, Touched, Writes, RopeFirst, Run, Quiet;
    var x := cs[k].kvUpdate;
    KvTouchesKey(g, al, cs[k], bs[k]);
    forall i | 0 <= i < |cs| && Pending(cs[i], before)
      ensures Root(al, cs[i]) != Root(al, cs[k])
    {
      if i != k { PartsDiffer(g, cs, i, k); }
      PassBetween(g, al, cs, bs, before, x, rest, i);
    }
    hide Pending, Applicable;
  }

  lemma InsertAt(I: Interp, s: State, layer: Val, k: Val, v: Val)
    ensures var s' := Insert(I, s, layer, k, v);
            s'.cache(I.layer(layer)) == I.insert(I.layer(layer), s.cache(I.layer(layer)), k, v)
  {
  }

  /** The original inserts the key as it is, the rewritten graph the rotated one. */
  lemma InsertsDiffer(I: Interp, bit: Data -> bool, g: Graph, al: Aliases, c: Candidate, b: Bases, n: Id, meta: Option<TensorMeta>,
                      s: State, t: State) returns (ka: Data, va: Val, kb: Data, vb: Val)
    requires Telling(I, bit) && Labels(g, al) && Wired(g, c, b)
    requires s.cache == t.cache && s.store(Root(al, c)) == t.store(Root(al, c))
    ensures bit(ka) != bit(kb)
    ensures var layer := I.layer(Imm(StrArg(c.layer)));
            && Run(I, g, al, c.kvUpdate, s).cache(layer) == I.insert(layer, s.cache(layer), Tensor(ka), va)
            && Exec(I, al, n, FusedNode(c, meta), t).cache(layer) == I.insert(layer, s.cache(layer), Tensor(kb), vb)
  {
    hide Telling, Rotated, Private, Packed, Run;
    SiteRefs(g, al, c, b);
    var (layer, pos, cos) := (Imm(StrArg(c.layer)), Tensor(Read(I, t, RefOf(al, c.positions))), Tensor(Read(I, t, RefOf(al, c.cosSin))));
    var t' := Rotated(I, t, pos, RefOf(al, c.query), RefOf(al, c.key), HEAD_64, cos, TRUE_VAL);
    KvRun(I, g, al, c, s);
    FusedRun(I, al, c, n, meta, t);
    WholeRead(I, bit, s, RefOf(al, c.key));
    WholeRead(I, bit, t, RefOf(al, c.key));
    KeyFlips(I, bit, t, pos, RefOf(al, c.query), RefOf(al, c.key), HEAD_64, cos, TRUE_VAL);
    ka, va := Read(I, s, RefOf(al, c.key)), Tensor(Read(I, s, RefOf(al, c.value)));
    kb, vb := Read(I, t', RefOf(al, c.key)), Tensor(Read(I, t', RefOf(al, c.value)));
    InsertAt(I, s, layer, Tensor(ka), va);
    InsertAt(I, t', layer, Tensor(kb), vb);
    RotatedCache(I, t, pos, RefOf(al, c.query), RefOf(al, c.key), HEAD_64, cos, TRUE_VAL);
  }

  lemma RotatedCache(I: Interp, s: State, pos: Val, q: Ref, k: Ref, head: Val, cos: Val, neox: Val)
    ensures Rotated(I, s, pos, q, k, head, cos, neox).cache == s.cache
  {
  }

  // ----- the two runs from there on -----

  /** One layer's caches were equal, and then took keys with different bits. */
  ghost predicate Diverged(I: Interp, bit: Data -> bool, layer: Key, a: State, b: State) {
    exists c, ka, va, kb, vb :: bit(ka) != bit(kb) && Took(I, layer, c, ka, va, a) && Took(I, layer, c, kb, vb, b)
  }

  ghost predicate Took(I: Interp, layer: Key, c: Data, k: Data, v: Val, s: State) {
    s.cache(layer) == I.insert(layer, c, Tensor(k), v)
  }

  /** The runs `a` and `b` are at, right after the first late KV update and its fused call. */
  ghost predicate Parted(I: Interp, g: Graph, cs: seq<Candidate>, h: Graph, rest: seq<Id>, a: State, b: State, s: State)
    requires Elems(g.order) <= g.defs.Keys && Elems(h.order) <= h.defs.Keys
  {
    var after := Spliced(rest, Reps(g, cs, |cs|));
    && Elems(rest) <= g.defs.Keys && Elems(after) <= h.defs.Keys
    && Execute(I, g, s) == ExecAll(I, AliasesOf(g), rest, g.defs, a)
    && Execute(I, h, s) == ExecAll(I, AliasesOf(g), after, h.defs, b)
  }

  lemma SplicedThrough(g: Graph, cs: seq<Candidate>, k: nat, before: seq<Id>, rest: seq<Id>)
    requires Applicable(g, cs) && k < |cs| && g.order == before + [cs[k].kvUpdate] + rest
    ensures var reps := Reps(g, cs, |cs|);
            Spliced(g.order, reps) == Spliced(before, reps) + [FusedId(g, k)] + Spliced(rest, reps)
  {
    hide Applicable, Reps, Spliced;
    var (x, reps) := (cs[k].kvUpdate, Reps(g, cs, |cs|));
    RepsExact(g, cs, |cs|, k);
    assert g.order == before + ([x] + rest);
    SplicedConcat(before, [x] + rest, reps);
    SplicedConcat([x], rest, reps);
    SplicedOne(x, reps);
    assert Spliced(before, reps) + ([FusedId(g, k)] + Spliced(rest, reps)) == Spliced(before, reps) + [FusedId(g, k)] + Spliced(rest, reps);
  }

  lemma SplicedOne(x: Id, reps: map<Id, seq<Id>>)
    ensures Spliced([x], reps) == RepOf(reps, x)
  {
    assert [x][1..] == [] && RepOf(reps, x) + [] == RepOf(reps, x);
  }

  /** Where some KV update comes first, the runs part at the first such one. */
  lemma Part(I: Interp, bit: Data -> bool, g: Graph, cs: seq<Candidate>, bs: seq<Bases>, h: Graph, late: nat, s: State)
    returns (k: nat, before: seq<Id>, rest: seq<Id>, a: State, b: State)
    requires Telling(I, bit) && Rewritten(g, cs, h) && LintClean(h) && Setting(g, AliasesOf(g), cs, bs)
    requires late < |cs| && !RopeFirst(g, cs[late])
    ensures k < |cs| && g.order == before + [cs[k].kvUpdate] + rest
    ensures Elems(g.order) <= g.defs.Keys && Elems(h.order) <= h.defs.Keys && Parted(I, g, cs, h, rest, a, b, s)
    ensures Diverged(I, bit, I.layer(Imm(StrArg(cs[k].layer))), a, b)
  {
    hide Wired, Labels, Applicable, LintClean, Quiet, Telling, Related, RopeFirst, Reps, FusedAt, FusedNode, Exec, Graph.Valid, InTurn;
    Ordered(g, cs, h, late);
    var al := AliasesOf(g);
    LabelsStay(g, cs, h);
    ExecuteLabelled(I, h, al, s);
    assert [] + g.order == g.order;
    k, before, rest := FirstLate(g, cs, [], g.order, late);
    var x := cs[k].kvUpdate;
    SplicedThrough(g, cs, k, before, rest);
    RunThrough(I, al, g.defs, before, x, rest, s);
    RunThrough(I, al, h.defs, Spliced(before, Reps(g, cs, |cs|)), FusedId(g, k), Spliced(rest, Reps(g, cs, |cs|)), s);
    var (s1, t1) := (ExecAll(I, al, before, g.defs, s), ExecAll(I, al, Spliced(before, Reps(g, cs, |cs|)), h.defs, s));
    NoneStarted(I, g, al, cs, s);
    assert [] + before == before && ([] + before) + ([x] + rest) == g.order;
    Simulate(I, g, al, cs, bs, h, [], before, [x] + rest, s, s);
    KeysAgree(I, g, al, cs, bs, k, before, rest, s1, t1);
    a, b := Run(I, g, al, x, s1), Exec(I, al, FusedId(g, k), h.defs[FusedId(g, k)], t1);
    FusedThere(g, cs, h, k);
    var ka, va, kb, vb := InsertsDiffer(I, bit, g, al, cs[k], bs[k], FusedId(g, k), At(g, x).meta, s1, t1);
    var layer := I.layer(Imm(StrArg(cs[k].layer)));
    assert Took(I, layer, s1.cache(layer), ka, va, a) && Took(I, layer, s1.cache(layer), kb, vb, b);
  }

  lemma FusedThere(g: Graph, cs: seq<Candidate>, h: Graph, k: nat)
    requires Applied(g, cs, |cs|, h) && k < |cs|
    ensures FusedId(g, k) in h.defs && h.defs[FusedId(g, k)] == FusedNode(cs[k], At(g, cs[k].kvUpdate).meta)
  {
    assert FusedAt(g, cs[k], k, h);
  }

  lemma Ordered(g: Graph, cs: seq<Candidate>, h: Graph, late: nat)
    requires Rewritten(g, cs, h) && late < |cs|
    ensures Elems(g.order) <= g.defs.Keys && Elems(h.order) <= h.defs.Keys && cs[late].kvUpdate in Elems(g.order)
    ensures h.order == Spliced(g.order, Reps(g, cs, |cs|)) && InTurn(g, cs, [])
  {
    Basics(g, cs, late);
  }

  // ----- a layer that remembers all its keys -----

  predicate BitOf(bits: Data -> seq<bool>, d: Data) {
    bits(d) != [] && bits(d)[0]
  }

  /** Tensors hold lists of bits. A key is its first bit, and a cache the keys it took, in order. */
  function Recorder(layer: Key, tensor: seq<bool> -> Data, bits: Data -> seq<bool>): Interp {
    Interp((path, d) => d,
           (path, d, v) => v,
           name => layer,
           (pos, q, k, head, cos, neox) => (tensor([!BitOf(bits, k)]), tensor([!BitOf(bits, k)])),
           (x, shape, weight, eps) => tensor([]),
           (l, c, k: Val, v: Val) => tensor(bits(c) + [k.Tensor? && BitOf(bits, k.d)]),
           (args, kwargs, c) => tensor([]),
           (n, target, args, kwargs) => tensor([]),
           (n, target, r, args, kwargs, d) => tensor([]))
  }

  /** Insertion only adds to what a cache holds. */
  ghost predicate Recording(I: Interp, bits: Data -> seq<bool>) {
    forall layer, c, k, v :: bits(c) < bits(I.insert(layer, c, k, v))
  }

  lemma RecorderTells(layer: Key, tensor: seq<bool> -> Data, bits: Data -> seq<bool>)
    requires forall l :: bits(tensor(l)) == l
    ensures Telling(Recorder(layer, tensor, bits), d => BitOf(bits, d))
    ensures Recording(Recorder(layer, tensor, bits), bits)
  {
    var I := Recorder(layer, tensor, bits);
    forall l, c, k, v
      ensures I.insert(l, c, k, v) == tensor(bits(c) + [k.Tensor? && BitOf(bits, k.d)])
      ensures bits(I.insert(l, c, k, v)) == bits(c) + [k.Tensor? && BitOf(bits, k.d)]
    {
    }
    forall l, c, k, v, k', v' | BitOf(bits, k) != BitOf(bits, k')
      ensures I.insert(l, c, Tensor(k), v) != I.insert(l, c, Tensor(k'), v')
    {
      assert bits(I.insert(l, c, Tensor(k), v))[|bits(c)|] != bits(I.insert(l, c, Tensor(k'), v'))[|bits(c)|];
    }
  }

  lemma RecordGrows(I: Interp, bits: Data -> seq<bool>, al: Aliases, n: Id, node: Node, s: State, layer: Key)
    requires Recording(I, bits)
    ensures bits(s.cache(layer)) <= bits(Exec(I, al, n, node, s).cache(layer))
  {
  }

  lemma {:induction false} RecordKept(I: Interp, bits: Data -> seq<bool>, al: Aliases, order: seq<Id>, defs: map<Id, Node>, s: State, layer: Key)
    requires Recording(I, bits) && Elems(order) <= defs.Keys
    ensures bits(s.cache(layer)) <= bits(ExecAll(I, al, order, defs, s).cache(layer))
  {
    hide Recording, Exec;
    if order != [] {
      RecordGrows(I, bits, al, order[0], defs[order[0]], s, layer);
      RecordKept(I, bits, al, order[1..], defs, Exec(I, al, order[0], defs[order[0]], s), layer);
    }
  }

  lemma RecordsDiffer(layer: Key, tensor: seq<bool> -> Data, bits: Data -> seq<bool>, a: State, b: State)
    requires forall l :: bits(tensor(l)) == l
    requires Diverged(Recorder(layer, tensor, bits), d => BitOf(bits, d), layer, a, b)
    ensures !(bits(a.cache(layer)) <= bits(b.cache(layer))) && |bits(a.cache(layer))| == |bits(b.cache(layer))|
  {
    var I := Recorder(layer, tensor, bits);
    var c, ka, va, kb, vb :| BitOf(bits, ka) != BitOf(bits, kb) && Took(I, layer, c, ka, va, a) && Took(I, layer, c, kb, vb, b);
    assert a.cache(layer) == tensor(bits(c) + [BitOf(bits, ka)]) && b.cache(layer) == tensor(bits(c) + [BitOf(bits, kb)]);
    assert bits(a.cache(layer))[|bits(c)|] != bits(b.cache(layer))[|bits(c)|];
  }

  lemma StillDiffer(x: seq<bool>, y: seq<bool>, x': seq<bool>, y': seq<bool>)
    requires x <= x' && y <= y' && |x| == |y| && !(x <= y)
    ensures x' != y'
  {
  }

  /** Where some KV update comes first, the recording layer ends with another cache, from any state. */
  lemma LateRopeShows(g: Graph, cs: seq<Candidate>, bs: seq<Bases>, h: Graph, late: nat, layer: Key,
                      tensor: seq<bool> -> Data, bits: Data -> seq<bool>, s: State)
    requires Rewritten(g, cs, h) && LintClean(h) && Setting(g, AliasesOf(g), cs, bs)
    requires late < |cs| && !RopeFirst(g, cs[late]) && forall l :: bits(tensor(l)) == l
    ensures Elems(g.order) <= g.defs.Keys && Elems(h.order) <= h.defs.Keys
    ensures var I := Recorder(layer, tensor, bits); Execute(I, h, s).cache(layer) != Execute(I, g, s).cache(layer)
  {
    hide Setting, Rewritten, LintClean, RopeFirst, Telling, Recording, Diverged, ExecAll;
    var I := Recorder(layer, tensor, bits);
    RecorderTells(layer, tensor, bits);
    var k, before, rest, a, b := Part(I, d => BitOf(bits, d), g, cs, bs, h, late, s);
    RecordsDiffer(layer, tensor, bits, a, b);
    RecordKept(I, bits, AliasesOf(g), rest, g.defs, a, layer);
    RecordKept(I, bits, AliasesOf(g), Spliced(rest, Reps(g, cs, |cs|)), h.defs, b, layer);
    StillDiffer(bits(a.cache(layer)), bits(b.cache(layer)),
                bits(Execute(I, g, s).cache(layer)), bits(Execute(I, h, s).cache(layer)));
  }

  /** A rewrite of an accepted plan, with the premises that do not speak of RoPE's place. */
  ghost predicate QuietPlan(g: Graph, expected: int, cs: seq<Candidate>, h: Graph) {
    && g.Valid() && LintClean(g) && IsPlan(g, expected, cs)
    && h.Valid() && LintClean(h) && Applied(g, cs, |cs|, h)
    && forall i | 0 <= i < |cs| :: Quiet(g, AliasesOf(g), cs[i])
  }

  ghost predicate CachesAgree(I: Interp, g: Graph, h: Graph, s: State)
    requires g.Valid() && h.Valid()
  {
    Execute(I, h, s).cache == Execute(I, g, s).cache
  }

  lemma EarlyRopeAgrees(I: Interp, g: Graph, expected: int, cs: seq<Candidate>, h: Graph, s: State)
    requires QuietPlan(g, expected, cs, h) && forall i | 0 <= i < |cs| :: RopeFirst(g, cs[i])
    ensures CachesAgree(I, g, h, s)
  {
    hide LintClean, IsPlan, Applied, Quiet, RopeFirst, Execute;
    PlanPreservesRun(I, g, expected, cs, h, s);
  }

  lemma PlanSetting(g: Graph, expected: int, cs: seq<Candidate>, h: Graph) returns (bs: seq<Bases>)
    requires QuietPlan(g, expected, cs, h)
    ensures Rewritten(g, cs, h) && LintClean(h) && Elems(g.order) <= g.defs.Keys && Setting(g, AliasesOf(g), cs, bs)
  {
    hide LintClean, IsPlan, Applied, Quiet, Wired, Labels, Applicable;
    PlanApplicable(g, expected, cs);
    bs := PlanBases(g, expected, cs);
    AliasesLabel(g);
  }

  lemma LateRopeDisagrees(g: Graph, expected: int, cs: seq<Candidate>, h: Graph, late: nat, layer: Key,
                          tensor: seq<bool> -> Data, bits: Data -> seq<bool>, s: State)
    requires QuietPlan(g, expected, cs, h) && late < |cs| && !RopeFirst(g, cs[late]) && forall l :: bits(tensor(l)) == l
    ensures !CachesAgree(Recorder(layer, tensor, bits), g, h, s)
  {
    var bs := PlanSetting(g, expected, cs, h);
    hide QuietPlan, Rewritten, LintClean, Setting, RopeFirst, Execute, Recorder;
    LateRopeShows(g, cs, bs, h, late, layer, tensor, bits, s);
  }

  /** Such a rewrite keeps the caches of every run exactly when every RoPE precedes its KV update.
      That some tensor tells lists of bits apart is all the converse asks of the data. */
  lemma CachesAgreeIff(g: Graph, expected: int, cs: seq<Candidate>, h: Graph, layer: Key,
                       tensor: seq<bool> -> Data, bits: Data -> seq<bool>)
    requires QuietPlan(g, expected, cs, h) && forall l :: bits(tensor(l)) == l
    ensures (forall I, s :: CachesAgree(I, g, h, s)) <==> (forall i | 0 <= i < |cs| :: Precedes(g.order, cs[i].rope, cs[i].kvUpdate))
  {
    hide QuietPlan, Precedes, CachesAgree;
    if forall i | 0 <= i < |cs| :: RopeFirst(g, cs[i]) {
      forall I, s { EarlyRopeAgrees(I, g, expected, cs, h, s); }
    } else {
      var late: nat :| late < |cs| && !RopeFirst(g, cs[late]);
      assert !Precedes(g.order, cs[late].rope, cs[late].kvUpdate);
      var s := State(r => tensor([]), c => tensor([]), []);
      LateRopeDisagrees(g, expected, cs, h, late, layer, tensor, bits, s);
    }
  }
}
