/** Node lists in which some nodes give way to several new ones or to none, and the order of a
    list without repetition. */
module Splice {
  import opened FxGraph

  function RepOf(rep: map<Id, seq<Id>>, n: Id): seq<Id> {
    if n in rep then rep[n] else [n]
  }

  /** `order` with every node of `rep` replaced by its list. */
  function Spliced(order: seq<Id>, rep: map<Id, seq<Id>>): seq<Id> {
    if order == [] then [] else RepOf(rep, order[0]) + Spliced(order[1..], rep)
  }

  lemma {:induction false} SplicedNothing(order: seq<Id>)
    ensures Spliced(order, map[]) == order
  {
    if order != [] { SplicedNothing(order[1..]); }
  }

  lemma {:induction false} SplicedConcat(a: seq<Id>, b: seq<Id>, rep: map<Id, seq<Id>>)
    ensures Spliced(a + b, rep) == Spliced(a, rep) + Spliced(b, rep)
  {
    if a == [] {
      assert a + b == b;
    } else {
      assert (a + b)[1..] == a[1..] + b;
      SplicedConcat(a[1..], b, rep);
    }
  }

  lemma {:induction false} SplicedAgree(order: seq<Id>, a: map<Id, seq<Id>>, b: map<Id, seq<Id>>)
    requires forall x | x in Elems(order) :: RepOf(a, x) == RepOf(b, x)
    ensures Spliced(order, a) == Spliced(order, b)
  {
    if order != [] { SplicedAgree(order[1..], a, b); }
  }

  lemma {:induction false} InsertedIntoBoth(a: seq<Id>, b: seq<Id>, at: Id, n: Id)
    requires at !in a
    ensures InsertedBefore(a + b, at, n) == a + InsertedBefore(b, at, n)
  {
    if a == [] {
      assert a + b == b;
    } else {
      assert (a + b)[1..] == a[1..] + b;
      InsertedIntoBoth(a[1..], b, at, n);
    }
  }

  lemma {:induction false} WithoutBoth(a: seq<Id>, b: seq<Id>, ns: set<Id>)
    ensures Without(a + b, ns) == Without(a, ns) + Without(b, ns)
  {
    if a == [] {
      assert a + b == b;
    } else {
      assert (a + b)[1..] == a[1..] + b;
      WithoutBoth(a[1..], b, ns);
    }
  }

  lemma {:induction false} WithoutNothing(a: seq<Id>, x: Id)
    requires x !in a
    ensures Without(a, {x}) == a
  {
    if a != [] { WithoutNothing(a[1..], x); }
  }

  lemma {:induction false} SplicedSame(order: seq<Id>, rep: map<Id, seq<Id>>, x: Id, other: seq<Id>)
    requires x !in Elems(order)
    ensures Spliced(order, rep[x := other]) == Spliced(order, rep)
  {
    if order != [] { SplicedSame(order[1..], rep, x, other); }
  }

  /** No other node's list holds `x`. */
  ghost predicate OnlyOwn(order: seq<Id>, rep: map<Id, seq<Id>>, x: Id) {
    forall y | y in Elems(order) && y != x :: x !in RepOf(rep, y)
  }

  lemma {:induction false} SplicedWithout(order: seq<Id>, rep: map<Id, seq<Id>>, x: Id)
    requires x !in Elems(order) && OnlyOwn(order, rep, x)
    ensures x !in Spliced(order, rep)
  {
    if order != [] {
      assert order[0] in Elems(order);
      SplicedWithout(order[1..], rep, x);
    }
  }

  lemma InsertedHere(pre: seq<Id>, tail: seq<Id>, at: Id, n: Id)
    requires at !in pre
    ensures InsertedBefore((pre + [at]) + tail, at, n) == (pre + [n, at]) + tail
  {
    InsertedIntoBoth(pre, [at] + tail, at, n);
    assert (pre + [at]) + tail == pre + ([at] + tail);
    assert InsertedBefore([at] + tail, at, n) == [n] + ([at] + tail);
    assert pre + ([n] + ([at] + tail)) == (pre + [n, at]) + tail;
  }

  /** Inserting before a node that still stands extends its list, ... */
  lemma {:induction false} SpliceInsert(order: seq<Id>, rep: map<Id, seq<Id>>, at: Id, n: Id, pre: seq<Id>)
    requires NoDup(order) && at in Elems(order) && OnlyOwn(order, rep, at)
    requires RepOf(rep, at) == pre + [at] && at !in pre
    ensures InsertedBefore(Spliced(order, rep), at, n) == Spliced(order, rep[at := pre + [n, at]])
  {
    var (x, rest) := (order[0], order[1..]);
    var tail := Spliced(rest, rep);
    var rep' := rep[at := pre + [n, at]];
    if x == at {
      SplicedSame(rest, rep, at, pre + [n, at]);
      InsertedHere(pre, tail, at, n);
    } else {
      assert x in Elems(order);
      InsertedIntoBoth(RepOf(rep, x), tail, at, n);
      SpliceInsert(rest, rep, at, n, pre);
    }
  }

  lemma ErasedLast(pre: seq<Id>, x: Id)
    requires x !in pre
    ensures Without(pre + [x], {x}) == pre
  {
    WithoutBoth(pre, [x], {x});
    WithoutNothing(pre, x);
    assert Without([x], {x}) == [];
    assert pre + [] == pre;
  }

  /** ... and erasing it leaves what was inserted before it. */
  lemma {:induction false} SpliceErase(order: seq<Id>, rep: map<Id, seq<Id>>, x: Id, pre: seq<Id>)
    requires NoDup(order) && x in Elems(order) && OnlyOwn(order, rep, x)
    requires RepOf(rep, x) == pre + [x] && x !in pre
    ensures Without(Spliced(order, rep), {x}) == Spliced(order, rep[x := pre])
  {
    var (y, rest) := (order[0], order[1..]);
    var tail := Spliced(rest, rep);
    WithoutBoth(RepOf(rep, y), tail, {x});
    if x == y {
      SplicedSame(rest, rep, x, pre);
      SplicedWithout(rest, rep, x);
      WithoutNothing(tail, x);
      ErasedLast(pre, x);
    } else {
      assert y in Elems(order);
      WithoutNothing(RepOf(rep, y), x);
      SpliceErase(rest, rep, x, pre);
    }
  }

  /** Fusing `a` and dropping `b`: the new node takes the place of `a`. */
  lemma SpliceFused(order: seq<Id>, rep: map<Id, seq<Id>>, a: Id, b: Id, fused: Id)
    requires NoDup(order) && a in Elems(order) && b in Elems(order) && a != b && fused != a && fused != b
    requires OnlyOwn(order, rep, a) && OnlyOwn(order, rep, b) && RepOf(rep, a) == [a] && RepOf(rep, b) == [b]
    ensures Without(Without(InsertedBefore(Spliced(order, rep), a, fused), {a}), {b}) ==
            Spliced(order, rep[a := [fused]][b := []])
  {
    hide NoDup, Elems, Spliced;
    assert [] + [a] == [a] && [] + [b] == [b] && [] + [fused, a] == [fused, a] == [fused] + [a];
    SpliceInsert(order, rep, a, fused, []);
    var r1 := rep[a := [fused, a]];
    SpliceErase(order, r1, a, [fused]);
    var r2 := r1[a := [fused]];
    SpliceErase(order, r2, b, []);
    SplicedAgree(order, r2[b := []], rep[a := [fused]][b := []]);
  }

  /** Erasing from a spliced list is erasing from every node's list. */
  lemma {:induction false} SpliceWithout(order: seq<Id>, rep: map<Id, seq<Id>>, ns: set<Id>, after: map<Id, seq<Id>>)
    requires forall y | y in Elems(order) :: RepOf(after, y) == Without(RepOf(rep, y), ns)
    ensures Without(Spliced(order, rep), ns) == Spliced(order, after)
  {
    if order != [] {
      WithoutBoth(RepOf(rep, order[0]), Spliced(order[1..], rep), ns);
      SpliceWithout(order[1..], rep, ns, after);
    }
  }

  /** Three insertions before `at`. */
  lemma SpliceThree(order: seq<Id>, rep: map<Id, seq<Id>>, at: Id, a: Id, b: Id, c: Id)
    requires NoDup(order) && at in Elems(order) && OnlyOwn(order, rep, at) && RepOf(rep, at) == [at]
    requires at != a && at != b && at != c
    ensures InsertedBefore(InsertedBefore(InsertedBefore(Spliced(order, rep), at, a), at, b), at, c) ==
            Spliced(order, rep[at := [a, b, c, at]])
  {
    hide NoDup, Elems, Spliced;
    assert [] + [at] == [at] && [] + [a, at] == [a, at] == [a] + [at] && [a] + [b, at] == [a, b, at] == [a, b] + [at]
           && [a, b] + [c, at] == [a, b, c, at];
    SpliceInsert(order, rep, at, a, []);
    var r1 := rep[at := [a, at]];
    SpliceInsert(order, r1, at, b, [a]);
    var r2 := r1[at := [a, b, at]];
    SpliceInsert(order, r2, at, c, [a, b]);
    SplicedAgree(order, r2[at := [a, b, c, at]], rep[at := [a, b, c, at]]);
  }

  // ----- order -----

  predicate Precedes(order: seq<Id>, a: Id, b: Id) {
    order != [] && (if order[0] == a then b in Elems(order[1..]) else Precedes(order[1..], a, b))
  }

  lemma {:induction false} ElemsSplit(a: seq<Id>, b: seq<Id>, n: Id)
    ensures n in Elems(a + b) <==> n in Elems(a) || n in Elems(b)
  {
    if a == [] {
      assert a + b == b;
    } else {
      assert (a + b)[1..] == a[1..] + b;
      ElemsSplit(a[1..], b, n);
    }
  }

  lemma SplitThree(a: seq<Id>, x: Id, b: seq<Id>)
    ensures Elems(a) <= Elems(a + [x] + b) && Elems(b) <= Elems(a + [x] + b) && x in Elems(a + [x] + b)
    ensures a + [x] + b == a + ([x] + b) && ([x] + b)[0] == x && ([x] + b)[1..] == b
  {
    assert a + [x] + b == a + ([x] + b) && ([x] + b)[0] == x && ([x] + b)[1..] == b;
    forall n { ElemsSplit(a, [x] + b, n); }
  }

  lemma {:induction false} Cut(order: seq<Id>, n: Id) returns (before: seq<Id>, rest: seq<Id>)
    requires n in Elems(order)
    ensures order == before + [n] + rest
  {
    if order[0] == n {
      before, rest := [], order[1..];
    } else {
      before, rest := Cut(order[1..], n);
      before := [order[0]] + before;
    }
  }

  lemma {:induction false} NoDupSplit(a: seq<Id>, b: seq<Id>, n: Id)
    requires NoDup(a + b)
    ensures NoDup(a) && NoDup(b) && !(n in Elems(a) && n in Elems(b))
  {
    if a == [] {
      assert a + b == b;
    } else {
      assert (a + b)[1..] == a[1..] + b;
      NoDupSplit(a[1..], b, n);
      ElemsSplit(a[1..], b, a[0]);
    }
  }

  /** Across any cut of the list, `a` precedes `b` when `a` is before the cut and `b` after it. */
  lemma {:induction false} PrecedesAcross(done: seq<Id>, todo: seq<Id>, a: Id, b: Id)
    requires NoDup(done + todo) && a in Elems(done) && b in Elems(todo)
    ensures Precedes(done + todo, a, b)
  {
    assert (done + todo)[1..] == done[1..] + todo;
    if done[0] == a {
      ElemsSplit(done[1..], todo, b);
    } else {
      PrecedesAcross(done[1..], todo, a, b);
    }
  }

  /** At any moment of a run, a finished node precedes the current one and that the rest. */
  lemma NowBetween(order: seq<Id>, done: seq<Id>, x: Id, rest: seq<Id>, a: Id, b: Id)
    requires NoDup(order) && order == done + [x] + rest && a in Elems(done)
    requires b in Elems(order) && b !in Elems(done) && b != x
    ensures Precedes(order, a, x) && Precedes(order, x, b)
  {
    var todo := [x] + rest;
    assert order == done + todo && todo[1..] == rest && todo[0] == x;
    PrecedesAcross(done, todo, a, x);
    ElemsSplit(done, todo, b);
    ElemsSplit(done, [x], x);
    assert [x][0] == x && [x][1..] == [];
    PrecedesAcross(done + [x], rest, x, b);
  }

  /** A node that precedes a finished one is finished. */
  lemma {:induction false} PrecedesDone(done: seq<Id>, todo: seq<Id>, a: Id, b: Id)
    requires NoDup(done + todo) && Precedes(done + todo, a, b) && b in Elems(done)
    ensures a in Elems(done)
  {
    assert (done + todo)[1..] == done[1..] + todo;
    if done[0] != a {
      if done[0] == b {
        PrecedesIn(done[1..] + todo, a, b);
        assert false;
      }
      PrecedesDone(done[1..], todo, a, b);
    }
  }

  /** When `a` is reached nothing later has run; when `b` is reached `a` has. */
  lemma Turns(order: seq<Id>, done: seq<Id>, x: Id, rest: seq<Id>, a: Id, b: Id)
    requires NoDup(order) && order == done + [x] + rest && Precedes(order, a, b)
    ensures x == a ==> a !in Elems(done) && b !in Elems(done)
    ensures x == b ==> a in Elems(done) && b !in Elems(done)
  {
    var todo := [x] + rest;
    assert order == done + todo && todo[0] == x;
    NoDupSplit(done, todo, x);
    if b in Elems(done) { PrecedesDone(done, todo, a, b); }
    if x == b {
      PrecedesStrict(order, a, b);
      assert order == (done + [x]) + rest;
      ElemsSplit(done, [x], x);
      ElemsSplit(done, [x], a);
      assert [x][0] == x && [x][1..] == [];
      PrecedesDone(done + [x], rest, a, x);
    }
  }

  lemma {:induction false} PrecedesIn(order: seq<Id>, a: Id, b: Id)
    requires Precedes(order, a, b)
    ensures a in Elems(order) && b in Elems(order)
  {
    if order[0] != a { PrecedesIn(order[1..], a, b); }
  }

  lemma {:induction false} PrecedesTotal(order: seq<Id>, a: Id, b: Id)
    requires a in Elems(order) && b in Elems(order) && a != b
    ensures Precedes(order, a, b) || Precedes(order, b, a)
  {
    if order[0] != a && order[0] != b { PrecedesTotal(order[1..], a, b); }
  }

  lemma {:induction false} PrecedesStrict(order: seq<Id>, a: Id, b: Id)
    requires NoDup(order) && Precedes(order, a, b)
    ensures a != b && !Precedes(order, b, a)
  {
    if order[0] == b {
      PrecedesIn(order, a, b);
      if order[0] != a { PrecedesIn(order[1..], a, b); }
    } else if order[0] == a {
      if Precedes(order, b, a) { PrecedesIn(order[1..], b, a); }
    } else {
      PrecedesStrict(order[1..], a, b);
    }
  }

  /** In a lint-clean list an argument precedes its user. */
  lemma {:induction false} RefPrecedes(order: seq<Id>, defs: map<Id, Node>, seen: set<Id>, a: Id, b: Id)
    requires DefBeforeUse(order, defs, seen) && NoDup(order)
    requires b in Elems(order) && b in defs && a in Refs(defs[b]) && a !in seen
    ensures Precedes(order, a, b)
    decreases |order|
  {
    if order[0] != a && order[0] != b {
      RefPrecedes(order[1..], defs, seen + {order[0]}, a, b);
    }
  }

  lemma UsesPrecede(g: Graph, a: Id, b: Id)
    requires g.Valid() && LintClean(g) && b in g.defs && a in Refs(g.defs[b])
    ensures Precedes(g.order, a, b) && a != b && a in g.defs
  {
    RefPrecedes(g.order, g.defs, {}, a, b);
    PrecedesStrict(g.order, a, b);
  }

  // ----- lint as an order, and the order of a spliced list -----

  lemma {:induction false} PrecedesLint(order: seq<Id>, defs: map<Id, Node>, seen: set<Id>)
    requires NoDup(order) && Elems(order) <= defs.Keys
    requires forall b, a | b in Elems(order) && a in Refs(defs[b]) :: a in seen || Precedes(order, a, b)
    ensures DefBeforeUse(order, defs, seen)
    decreases |order|
  {
    if order != [] {
      var (x, rest) := (order[0], order[1..]);
      forall b, a | b in Elems(order) && a in Refs(defs[b])
        ensures b == x ==> a in seen
        ensures b in Elems(rest) ==> a in seen + {x} || Precedes(rest, a, b)
      {
        if a !in seen {
          PrecedesStrict(order, a, b);
          if a != x { PrecedesIn(rest, a, b); }
        }
      }
      PrecedesLint(rest, defs, seen + {x});
    }
  }

  lemma {:induction false} PrecedesConcat(l: seq<Id>, t: seq<Id>, a: Id, b: Id)
    ensures a in Elems(l) ==> (Precedes(l + t, a, b) <==> Precedes(l, a, b) || b in Elems(t))
    ensures a !in Elems(l) ==> (Precedes(l + t, a, b) <==> Precedes(t, a, b))
  {
    if l == [] {
      assert l + t == t;
    } else {
      assert (l + t)[1..] == l[1..] + t;
      PrecedesConcat(l[1..], t, a, b);
      ElemsSplit(l[1..], t, b);
      if l[0] != a && a in Elems(l) && Precedes(l[1..], a, b) { PrecedesIn(l[1..], a, b); }
    }
  }

  /** Only `x` gives way to a list that holds `a`. */
  ghost predicate Owned(order: seq<Id>, rep: map<Id, seq<Id>>, a: Id, x: Id) {
    forall z | z in Elems(order) :: a in Elems(RepOf(rep, z)) ==> z == x
  }

  lemma {:induction false} SplicedIn(order: seq<Id>, rep: map<Id, seq<Id>>, n: Id) returns (x: Id)
    requires n in Elems(Spliced(order, rep))
    ensures x in Elems(order) && n in Elems(RepOf(rep, x))
  {
    ElemsSplit(RepOf(rep, order[0]), Spliced(order[1..], rep), n);
    if n in Elems(RepOf(rep, order[0])) { x := order[0]; } else { x := SplicedIn(order[1..], rep, n); }
  }

  lemma {:induction false} InSpliced(order: seq<Id>, rep: map<Id, seq<Id>>, n: Id, x: Id)
    requires x in Elems(order) && n in Elems(RepOf(rep, x))
    ensures n in Elems(Spliced(order, rep))
  {
    ElemsSplit(RepOf(rep, order[0]), Spliced(order[1..], rep), n);
    if x != order[0] { InSpliced(order[1..], rep, n, x); }
  }

  lemma NotInTail(order: seq<Id>, rep: map<Id, seq<Id>>, b: Id, y: Id)
    requires Owned(order, rep, b, y) && y !in Elems(order)
    ensures b !in Elems(Spliced(order, rep))
  {
    if b in Elems(Spliced(order, rep)) {
      var z := SplicedIn(order, rep, b);
    }
  }

  /** New nodes stand in the order of the nodes they replace. */
  lemma {:induction false} PrecedesSpliced(order: seq<Id>, rep: map<Id, seq<Id>>, a: Id, x: Id, b: Id, y: Id)
    requires NoDup(order) && x in Elems(order) && y in Elems(order) && x != y
    requires a in Elems(RepOf(rep, x)) && b in Elems(RepOf(rep, y)) && Owned(order, rep, a, x) && Owned(order, rep, b, y)
    ensures Precedes(Spliced(order, rep), a, b) <==> Precedes(order, x, y)
  {
    var (z, rest) := (order[0], order[1..]);
    var (l, t) := (RepOf(rep, z), Spliced(rest, rep));
    PrecedesConcat(l, t, a, b);
    if z == x {
      if Precedes(l, a, b) { PrecedesIn(l, a, b); }
      InSpliced(rest, rep, b, y);
    } else if z == y {
      NotInTail(rest, rep, b, y);
      if Precedes(t, a, b) { PrecedesIn(t, a, b); }
      if Precedes(rest, x, y) { PrecedesIn(rest, x, y); }
    } else {
      PrecedesSpliced(rest, rep, a, x, b, y);
    }
  }

  /** Within one list the new nodes keep its order. */
  lemma {:induction false} PrecedesInside(order: seq<Id>, rep: map<Id, seq<Id>>, a: Id, b: Id, x: Id)
    requires x in Elems(order) && Precedes(RepOf(rep, x), a, b) && Owned(order, rep, a, x)
    ensures Precedes(Spliced(order, rep), a, b)
  {
    var (l, t) := (RepOf(rep, order[0]), Spliced(order[1..], rep));
    PrecedesConcat(l, t, a, b);
    PrecedesIn(RepOf(rep, x), a, b);
    if order[0] != x { PrecedesInside(order[1..], rep, a, b, x); }
  }

  lemma {:induction false} PrecedesTrans(order: seq<Id>, a: Id, b: Id, c: Id)
    requires NoDup(order) && Precedes(order, a, b) && Precedes(order, b, c)
    ensures Precedes(order, a, c)
  {
    PrecedesIn(order, b, c);
    if order[0] == a {
      PrecedesStrict(order, a, b);
      PrecedesIn(order[1..], b, c);
    } else if order[0] == b {
      PrecedesStrict(order, a, b);
      PrecedesIn(order[1..], a, b);
    } else {
      PrecedesTrans(order[1..], a, b, c);
    }
  }
}
