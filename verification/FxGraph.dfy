/** The FX graph that the compiler passes edit in place: an ordered list of nodes, each a
    call with positional and keyword arguments. `Graph` is its value; `FxGraph` is the
    mutable object, and every editing method is specified by a function on the value. */
module FxGraph {
  import opened Options

  type Id = int

  /** An argument is another node or an immediate value. */
  datatype Arg =
    | NodeArg(n: Id)
    | IntArg(i: int)
    | RealArg(r: real)
    | StrArg(s: string)
    | BoolArg(b: bool)
    | IntsArg(ints: seq<int>)
    | NoneArg

  datatype Dtype = Float16 | BFloat16 | Float32 | OtherDtype(name: string)

  datatype Device = Device(kind: string, index: int)

  /** What a pass can see of a node's tensor; `fake` tells a fake tensor from a real one. */
  datatype TensorMeta =
    TensorMeta(fake: bool, device: Device, shape: seq<int>, dtype: Dtype, contiguous: bool)

  datatype Target =
    | Placeholder
    | Output
    | GetItem
    // the collective fusion pass
    | AllReduce
    | AddTensor
    | RmsNormIr
    | FusedAddRmsNorm
    | FusedAllReduceNorm(raw: bool)
    // the pre-split RoPE/KV passes
    | View
    | SplitMethod
    | SplitWithSizes
    | AtenRmsNorm
    | Rope
    | KvUpdate
    | Attention
    | EmptyLike
    | FusedQwen3
    | FusedQwen2
    // any other operator, with the argument positions and keywords it mutates
    | Other(name: string, writes: set<nat>, named: set<string>)

  datatype Node =
    Node(target: Target, args: seq<Arg>, kwargs: map<string, Arg>, meta: Option<TensorMeta>)

  // ----- references and renaming -----

  function ArgRefs(a: Arg): set<Id> {
    if a.NodeArg? then {a.n} else {}
  }

  function Refs(node: Node): set<Id> {
    (set i | 0 <= i < |node.args| && node.args[i].NodeArg? :: node.args[i].n) +
    (set k | k in node.kwargs && node.kwargs[k].NodeArg? :: node.kwargs[k].n)
  }

  lemma PositionIsRef(node: Node, i: nat)
    requires i < |node.args|
    ensures ArgRefs(node.args[i]) <= Refs(node)
  {
  }

  function RenameArg(a: Arg, sub: map<Id, Id>): Arg {
    if a.NodeArg? && a.n in sub then NodeArg(sub[a.n]) else a
  }

  function Rename(node: Node, sub: map<Id, Id>): Node {
    node.(args := seq(|node.args|, i requires 0 <= i < |node.args| => RenameArg(node.args[i], sub)),
          kwargs := map k | k in node.kwargs :: RenameArg(node.kwargs[k], sub))
  }

  lemma RenameRefs(node: Node, sub: map<Id, Id>)
    ensures Refs(Rename(node, sub)) ==
            set r | r in Refs(node) :: if r in sub then sub[r] else r
  {
    var out := Rename(node, sub);
    forall r | r in Refs(node)
      ensures (if r in sub then sub[r] else r) in Refs(out)
    {
      if i :| 0 <= i < |node.args| && node.args[i] == NodeArg(r) {
        assert out.args[i] == NodeArg(if r in sub then sub[r] else r);
      } else {
        var k :| k in node.kwargs && node.kwargs[k] == NodeArg(r);
        assert out.kwargs[k] == NodeArg(if r in sub then sub[r] else r);
      }
    }
  }

  /** Renaming in two steps is one renaming when the first introduces nothing the second renames. */
  lemma RenameTwice(node: Node, s: map<Id, Id>, t: map<Id, Id>)
    requires s.Keys !! t.Keys
    requires forall a | a in s :: s[a] !in t
    ensures Rename(Rename(node, s), t) == Rename(node, s + t)
  {
  }

  lemma RenameNothing(node: Node, sub: map<Id, Id>)
    requires Refs(node) !! sub.Keys
    ensures Rename(node, sub) == node
  {
    forall i | 0 <= i < |node.args|
      ensures RenameArg(node.args[i], sub) == node.args[i]
    {
      if node.args[i].NodeArg? { assert node.args[i].n in Refs(node); }
    }
    forall k | k in node.kwargs
      ensures RenameArg(node.kwargs[k], sub) == node.kwargs[k]
    {
      if node.kwargs[k].NodeArg? { assert node.kwargs[k].n in Refs(node); }
    }
  }

  // ----- orders -----

  function Elems(order: seq<Id>): set<Id> {
    if order == [] then {} else {order[0]} + Elems(order[1..])
  }

  predicate NoDup(order: seq<Id>) {
    order == [] || (order[0] !in Elems(order[1..]) && NoDup(order[1..]))
  }

  lemma {:induction false} ElemsAre(order: seq<Id>, n: Id)
    ensures n in order <==> n in Elems(order)
  {
    if order != [] {
      ElemsAre(order[1..], n);
      assert order == [order[0]] + order[1..];
    }
  }

  /** `order` with `n` right before `at`. */
  function InsertedBefore(order: seq<Id>, at: Id, n: Id): seq<Id> {
    if order == [] then []
    else if order[0] == at then [n] + order
    else [order[0]] + InsertedBefore(order[1..], at, n)
  }

  function Without(order: seq<Id>, ns: set<Id>): seq<Id> {
    if order == [] then []
    else if order[0] in ns then Without(order[1..], ns)
    else [order[0]] + Without(order[1..], ns)
  }

  lemma {:induction false} InsertedOrder(order: seq<Id>, at: Id, n: Id)
    requires NoDup(order) && n !in Elems(order) && at in Elems(order)
    ensures NoDup(InsertedBefore(order, at, n))
    ensures Elems(InsertedBefore(order, at, n)) == Elems(order) + {n}
  {
    var out := InsertedBefore(order, at, n);
    if order[0] == at {
      assert out[1..] == order;
    } else {
      InsertedOrder(order[1..], at, n);
      assert out[1..] == InsertedBefore(order[1..], at, n);
    }
  }

  lemma {:induction false} WithoutOrder(order: seq<Id>, ns: set<Id>)
    requires NoDup(order)
    ensures NoDup(Without(order, ns)) && Elems(Without(order, ns)) == Elems(order) - ns
  {
    if order != [] {
      WithoutOrder(order[1..], ns);
      if order[0] !in ns {
        assert Without(order, ns)[1..] == Without(order[1..], ns);
      }
    }
  }

  lemma {:induction false} WithoutTwice(order: seq<Id>, a: set<Id>, b: set<Id>)
    ensures Without(Without(order, a), b) == Without(order, a + b)
  {
    if order != [] {
      WithoutTwice(order[1..], a, b);
      if order[0] !in a {
        assert Without(order, a)[1..] == Without(order[1..], a);
      }
    }
  }

  // ----- the graph value and its edits -----

  datatype Graph = Graph(order: seq<Id>, defs: map<Id, Node>, next: int) {

    ghost predicate Valid() {
      && NoDup(order)
      && Elems(order) == defs.Keys
      && (forall n | n in defs :: n < next)
      && (forall m | m in defs :: Refs(defs[m]) <= defs.Keys)
    }

    /** The identity of the next node. */
    function New(): Id {
      next
    }

    function Users(n: Id): set<Id> {
      set m | m in defs && n in Refs(defs[m])
    }

    function Inserted(at: Id, node: Node): Graph {
      Graph(InsertedBefore(order, at, New()), defs[New() := node], next + 1)
    }

    /** Every node of `ms` reads `sub[a]` where it read `a`. */
    function Renamed(ms: set<Id>, sub: map<Id, Id>): Graph {
      this.(defs := map m | m in defs :: if m in ms then Rename(defs[m], sub) else defs[m])
    }

    function Erased(ns: set<Id>): Graph {
      this.(order := Without(order, ns), defs := defs - ns)
    }

    function ErasedIfUnused(n: Id): Graph {
      if n in defs && Users(n) == {} then Erased({n}) else this
    }
  }

  lemma InsertedValid(g: Graph, at: Id, node: Node)
    requires g.Valid() && at in g.defs && Refs(node) <= g.defs.Keys
    ensures g.Inserted(at, node).Valid()
  {
    InsertedOrder(g.order, at, g.New());
  }

  lemma RenamedValid(g: Graph, ms: set<Id>, sub: map<Id, Id>)
    requires g.Valid()
    requires forall a | a in sub :: sub[a] in g.defs
    ensures g.Renamed(ms, sub).Valid()
  {
    forall m | m in g.defs { RenameRefs(g.defs[m], sub); }
  }

  lemma ErasedValid(g: Graph, ns: set<Id>)
    requires g.Valid()
    requires forall n | n in ns :: g.Users(n) <= ns
    ensures g.Erased(ns).Valid()
  {
    WithoutOrder(g.order, ns);
    forall m, n | m in g.defs - ns && n in ns
      ensures n !in Refs(g.defs[m])
    {
      assert m !in g.Users(n);
    }
  }

  /** What `graph.lint()` demands: every argument is defined earlier in the list. */
  predicate DefBeforeUse(order: seq<Id>, defs: map<Id, Node>, seen: set<Id>) {
    order == [] ||
    (order[0] in defs && Refs(defs[order[0]]) <= seen &&
     DefBeforeUse(order[1..], defs, seen + {order[0]}))
  }

  predicate LintClean(g: Graph) {
    DefBeforeUse(g.order, g.defs, {})
  }

  /** A lint-clean list has no node that uses itself and no two nodes that use each other. */
  lemma {:induction false} LintAcyclic(order: seq<Id>, defs: map<Id, Node>, seen: set<Id>, a: Id, b: Id)
    requires NoDup(order) && Elems(order) !! seen && DefBeforeUse(order, defs, seen)
    requires a in Elems(order) && b in Elems(order)
    ensures a in defs && b in defs && !(a in Refs(defs[b]) && b in Refs(defs[a]))
    decreases |order|
  {
    if a != order[0] && b != order[0] {
      LintAcyclic(order[1..], defs, seen + {order[0]}, a, b);
    } else if a != order[0] {
      LintDefined(order, defs, seen, a);
    } else if b != order[0] {
      LintDefined(order, defs, seen, b);
    }
  }

  lemma {:induction false} LintDefined(order: seq<Id>, defs: map<Id, Node>, seen: set<Id>, a: Id)
    requires DefBeforeUse(order, defs, seen) && a in Elems(order)
    ensures a in defs
    decreases |order|
  {
    if a != order[0] { LintDefined(order[1..], defs, seen + {order[0]}, a); }
  }

  // ----- the mutable object -----

  /** A pass visits a node's users in some order; nothing proved depends on which. */
  method AnyOf(s: set<Id>) returns (n: Id)
    requires s != {}
    ensures n in s
  {
    assert (forall m :: m !in s) ==> s == {};
    n :| n in s;
  }

  /** The object that passes share and edit; its whole state is one graph value. */
  class FxGraph {
    var g: Graph

    constructor (start: Graph)
      requires start.Valid()
      ensures g == start
    {
      g := start;
    }

    method InsertBefore(at: Id, node: Node) returns (n: Id)
      requires g.Valid() && at in g.defs && Refs(node) <= g.defs.Keys
      modifies this
      ensures n == old(g).New() && g == old(g).Inserted(at, node) && g.Valid()
    {
      InsertedValid(g, at, node);
      n, g := g.New(), g.Inserted(at, node);
    }

    /** `replace_all_uses_with` and `replace_input_with`, on the users `ms`. */
    method ReplaceInput(ms: set<Id>, a: Id, b: Id)
      requires g.Valid() && b in g.defs
      modifies this
      ensures g == old(g).Renamed(ms, map[a := b]) && g.Valid()
    {
      RenamedValid(g, ms, map[a := b]);
      g := g.Renamed(ms, map[a := b]);
    }

    /** Assigning a node's arguments. */
    method SetNode(m: Id, node: Node)
      requires g.Valid() && m in g.defs && Refs(node) <= g.defs.Keys
      modifies this
      ensures g == old(g).(defs := old(g).defs[m := node]) && g.Valid()
    {
      g := g.(defs := g.defs[m := node]);
    }

    /** Erasing a node that still has users is an error in FX, so it is a precondition. */
    method Erase(n: Id)
      requires g.Valid() && n in g.defs && g.Users(n) == {}
      modifies this
      ensures g == old(g).Erased({n}) && g.Valid()
    {
      ErasedValid(g, {n});
      g := g.Erased({n});
    }

    method Lint() returns (ok: bool)
      requires g.Valid()
      ensures ok == LintClean(g)
    {
      var seen: set<Id> := {};
      var i := 0;
      while i < |g.order|
        invariant 0 <= i <= |g.order|
        invariant LintClean(g) == DefBeforeUse(g.order[i..], g.defs, seen)
      {
        ElemsAre(g.order, g.order[i]);
        if !(Refs(g.defs[g.order[i]]) <= seen) { return false; }
        assert g.order[i..][1..] == g.order[i + 1..];
        seen := seen + {g.order[i]};
        i := i + 1;
      }
      return true;
    }
  }
}
