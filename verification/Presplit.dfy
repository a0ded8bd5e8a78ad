/** What the two pre-split planners share: their matchers and the search for calls. */
module Presplit {
  import opened Options
  import opened FxGraph
  import opened EffectEval

  const NO_NODE := Node(Output, [], map[], None)

  function At(g: Graph, n: Id): Node {
    if n in g.defs then g.defs[n] else NO_NODE
  }

  predicate HasTail(node: Node, heads: int, width: int) {
    && node.meta.Some?
    && var shape := node.meta.value.shape;
    && |shape| >= 2 && shape[|shape| - 2] == heads && shape[|shape| - 1] == width
  }

  predicate HasShape(node: Node, shape: seq<int>) {
    node.meta.Some? && node.meta.value.shape == shape
  }

  predicate IsBf16(node: Node) {
    node.meta.Some? && node.meta.value.dtype == BFloat16
  }

  function ViewBase(node: Node): Option<Id> {
    if node.target.View? && |node.args| > 0 && node.args[0].NodeArg? then Some(node.args[0].n) else None
  }

  function SplitItem(node: Node, index: int): Option<Id> {
    if node.target.GetItem? && |node.args| == 2 && ByValue(node.args[1]) == ByValue(IntArg(index)) && node.args[0].NodeArg?
    then Some(node.args[0].n)
    else None
  }

  function SplitSizes(node: Node): Option<seq<int>> {
    if !node.target.SplitMethod? && !node.target.SplitWithSizes? then None
    else
      var sizes := ArgOf(node, 1, if node.target.SplitMethod? then "split_size" else "split_sizes");
      var dim := ArgOf(node, 2, "dim");
      if sizes.Some? && sizes.value.IntsArg?
         && dim.Some? && (ByValue(dim.value) == RealArg(-1.0) || ByValue(dim.value) == RealArg(1.0))
      then Some(sizes.value.ints)
      else None
  }

  /** `view` shows a part of the packed tensor as heads of a width, all in the nodes' own fields. */
  predicate IsPart(g: Graph, view: Id, base: Id, split: Id, index: int, heads: int, width: int) {
    var (v, b) := (At(g, view), At(g, base));
    && v.target == View && |v.args| > 0 && v.args[0] == NodeArg(base)
    && v.meta.Some? && v.meta.value.dtype == BFloat16
    && |v.meta.value.shape| >= 2 && v.meta.value.shape[|v.meta.value.shape| - 2..] == [heads, width]
    && b.target == GetItem && |b.args| == 2 && b.args[0] == NodeArg(split)
    && (b.args[1] == IntArg(index) || b.args[1] == RealArg(index as real)
        || (index == 0 && b.args[1] == BoolArg(false)) || (index == 1 && b.args[1] == BoolArg(true)))
  }

  lemma PartIs(g: Graph, view: Id, base: Id, split: Id, index: int, heads: int, width: int)
    ensures IsPart(g, view, base, split, index, heads, width) <==>
            (ViewBase(At(g, view)) == Some(base) && SplitItem(At(g, base), index) == Some(split)
             && HasTail(At(g, view), heads, width) && IsBf16(At(g, view)))
  {
    hide At;
    var v := At(g, view);
    if v.meta.Some? && |v.meta.value.shape| >= 2 {
      var shape := v.meta.value.shape;
      assert shape[|shape| - 2..] == [shape[|shape| - 2], shape[|shape| - 1]];
    }
  }

  /** A call that cuts the packed tensor along its last or second dimension. */
  predicate Cuts(node: Node, sizes: seq<int>) {
    var dim := ArgOf(node, 2, "dim");
    && ((node.target == SplitMethod && ArgOf(node, 1, "split_size") == Some(IntsArg(sizes)))
        || (node.target == SplitWithSizes && ArgOf(node, 1, "split_sizes") == Some(IntsArg(sizes))))
    && dim.Some? && dim.value in [IntArg(1), IntArg(-1), RealArg(1.0), RealArg(-1.0), BoolArg(true)]
  }

  lemma CutsInto(node: Node, sizes: seq<int>)
    ensures Cuts(node, sizes) <==> SplitSizes(node) == Some(sizes)
  {
    var dim := ArgOf(node, 2, "dim");
    if dim.Some? && dim.value.IntArg? && (ByValue(dim.value) == RealArg(-1.0) || ByValue(dim.value) == RealArg(1.0)) {
      assert dim.value.i as real == -1.0 || dim.value.i as real == 1.0;
      assert dim.value.i == -1 || dim.value.i == 1;
    }
  }

  /** An argument that is a node. */
  function NodeOf(a: Option<Arg>): Option<Id> {
    if a.Some? && a.value.NodeArg? then Some(a.value.n) else None
  }

  function RopeUsers(g: Graph, n: Id): set<Id> {
    set m | m in g.Users(n) && At(g, m).target.Rope?
  }

  /** The calls of one operator, in list order. */
  function Calls(order: seq<Id>, g: Graph, target: Target): seq<Id> {
    if order == [] then []
    else (if At(g, order[0]).target == target then [order[0]] else []) + Calls(order[1..], g, target)
  }

  lemma {:induction false} CallsAre(order: seq<Id>, g: Graph, target: Target, n: Id)
    ensures n in Calls(order, g, target) <==> n in Elems(order) && At(g, n).target == target
  {
    if order != [] { CallsAre(order[1..], g, target, n); }
  }

  lemma {:induction false} CallsDistinct(order: seq<Id>, g: Graph, target: Target, i: nat, j: nat)
    requires NoDup(order) && i < j < |Calls(order, g, target)|
    ensures Calls(order, g, target)[i] != Calls(order, g, target)[j]
  {
    var rest := Calls(order[1..], g, target);
    if At(g, order[0]).target == target {
      assert Calls(order, g, target) == [order[0]] + rest;
      if i == 0 {
        CallsAre(order[1..], g, target, rest[j - 1]);
      } else {
        CallsDistinct(order[1..], g, target, i - 1, j - 1);
      }
    } else {
      assert Calls(order, g, target) == rest;
      CallsDistinct(order[1..], g, target, i, j);
    }
  }

  lemma {:induction false} CallsConcat(a: seq<Id>, b: seq<Id>, g: Graph, target: Target)
    ensures Calls(a + b, g, target) == Calls(a, g, target) + Calls(b, g, target)
  {
    if a == [] {
      assert a + b == b;
    } else {
      assert (a + b)[1..] == a[1..] + b;
      CallsConcat(a[1..], b, g, target);
    }
  }

  lemma OneMember(s: set<Id>, n: Id)
    requires |s| == 1 && n in s
    ensures s == {n}
  {
    assert |s - {n}| == 0;
    forall m | m in s
      ensures m == n
    {
      assert m == n || m in s - {n};
    }
    assert s == {n};
  }

  /** `if len(s) != 1 ... next(iter(s))`. */
  method Only(s: set<Id>) returns (n: Option<Id>)
    ensures n.Some? ==> s == {n.value}
    ensures n.None? ==> forall m :: s != {m}
  {
    if |s| != 1 { return None; }
    var m := AnyOf(s);
    OneMember(s, m);
    return Some(m);
  }

  /** Nodes that use `n` are exactly its users. */
  lemma UsersAre(g: Graph, n: Id, m: Id)
    ensures m in g.Users(n) <==> m in g.defs && n in Refs(g.defs[m])
  {
  }

  lemma ArgIsRef(node: Node, i: nat, name: string, m: Id)
    requires ArgOf(node, i, name) == Some(NodeArg(m))
    ensures m in Refs(node)
  {
    ArgSees(node, i, name);
  }

  lemma SameNodes(g: Graph, h: Graph)
    requires g.defs == h.defs
    ensures forall n :: At(g, n) == At(h, n)
    ensures forall n :: g.Users(n) == h.Users(n)
  {
  }

  // ----- the planners' seen sets -----

  predicate AllDiffer<T(==)>(xs: seq<T>) {
    forall i, j | 0 <= i < j < |xs| :: xs[i] != xs[j]
  }

  lemma PrefixDiffers<T>(xs: seq<T>, ys: seq<T>)
    requires |xs| <= |ys| && AllDiffer(ys) && forall i | 0 <= i < |xs| :: xs[i] == ys[i]
    ensures AllDiffer(xs)
  {
  }

  function Seen<T(==)>(xs: seq<T>): set<T> {
    if xs == [] then {} else Seen(xs[..|xs| - 1]) + {xs[|xs| - 1]}
  }

  lemma SeenMore<T>(xs: seq<T>, x: T)
    ensures Seen(xs + [x]) == Seen(xs) + {x}
  {
    assert (xs + [x])[..|xs|] == xs;
  }

  lemma {:induction false} SeenIs<T>(xs: seq<T>, x: T)
    ensures x in Seen(xs) <==> x in xs
  {
    if xs != [] {
      SeenIs(xs[..|xs| - 1], x);
      assert xs == xs[..|xs| - 1] + [xs[|xs| - 1]];
    }
  }

  /** A seen set catches exactly the values that occurred before. */
  lemma SeenClashes<T>(xs: seq<T>, x: T)
    requires AllDiffer(xs)
    ensures AllDiffer(xs + [x]) <==> x !in Seen(xs)
  {
    SeenIs(xs, x);
    var longer := xs + [x];
    assert longer[|xs|] == x && forall i | 0 <= i < |xs| :: longer[i] == xs[i];
    if x in xs {
      var i :| 0 <= i < |xs| && xs[i] == x;
      assert longer[i] == longer[|xs|];
    }
  }
}
