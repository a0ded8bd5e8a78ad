/** Graphs whose nodes are numbered in list order, to give examples with. */
module Numbered {
  import opened Options
  import opened FxGraph
  import opened EffectEval
  import opened Presplit
  import opened Splice

  function Range(lo: int, hi: int): seq<Id>
    decreases hi - lo
  {
    if lo >= hi then [] else [lo] + Range(lo + 1, hi)
  }

  lemma {:induction false} RangeElems(lo: int, hi: int, n: Id)
    ensures n in Elems(Range(lo, hi)) <==> lo <= n < hi
    decreases hi - lo
  {
    if lo < hi { RangeElems(lo + 1, hi, n); }
  }

  lemma {:induction false} RangeNoDup(lo: int, hi: int)
    ensures NoDup(Range(lo, hi))
    decreases hi - lo
  {
    if lo < hi {
      RangeNoDup(lo + 1, hi);
      RangeElems(lo + 1, hi, lo);
    }
  }

  lemma {:induction false} RangePrecedes(lo: int, hi: int, a: Id, b: Id)
    ensures Precedes(Range(lo, hi), a, b) <==> lo <= a < b < hi
    decreases hi - lo
  {
    if lo < hi {
      RangePrecedes(lo + 1, hi, a, b);
      RangeElems(lo + 1, hi, b);
    }
  }

  function Listed(nodes: seq<Node>): Graph {
    Graph(Range(0, |nodes|), map i | 0 <= i < |nodes| :: nodes[i], |nodes|)
  }

  /** Every node reads earlier ones. */
  predicate Backward(nodes: seq<Node>) {
    forall i, r | 0 <= i < |nodes| && r in Refs(nodes[i]) :: 0 <= r < i
  }

  lemma ListedOrder(nodes: seq<Node>)
    ensures NoDup(Listed(nodes).order) && Elems(Listed(nodes).order) == Listed(nodes).defs.Keys
  {
    RangeNoDup(0, |nodes|);
    forall n { RangeElems(0, |nodes|, n); }
    assert Elems(Listed(nodes).order) == Listed(nodes).defs.Keys;
  }

  lemma ListedIsClean(nodes: seq<Node>)
    requires Backward(nodes)
    ensures Listed(nodes).Valid() && LintClean(Listed(nodes))
  {
    var g := Listed(nodes);
    ListedOrder(nodes);
    forall a, b | b in g.defs && a in Refs(g.defs[b])
      ensures Precedes(g.order, a, b)
    {
      RangePrecedes(0, |nodes|, a, b);
    }
    PrecedesLint(g.order, g.defs, {});
  }

  lemma {:induction false} NoCall(order: seq<Id>, g: Graph, target: Target)
    requires forall n | n in Elems(order) :: At(g, n).target != target
    ensures Calls(order, g, target) == []
  {
    if order != [] { NoCall(order[1..], g, target); }
  }

  lemma {:induction false} OneCall(order: seq<Id>, g: Graph, target: Target, n: Id)
    requires NoDup(order) && n in Elems(order)
    requires forall m | m in Elems(order) :: At(g, m).target == target <==> m == n
    ensures Calls(order, g, target) == [n]
  {
    if order[0] == n {
      NoCall(order[1..], g, target);
    } else {
      OneCall(order[1..], g, target, n);
    }
  }
}
