/** The functional-group half of the patch metadata check: the dependency loop and the
    ownership of patches by groups. */
module PatchMetadata {
  import opened Options

  /** A group id or a patch number. */
  type Name(==, !new)

  /** A group as read from JSON; `None` stands for a value of the wrong type. */
  datatype Group = Group(id: Option<Name>, patches: Option<seq<Option<Name>>>,
                         dependsOn: Option<seq<Option<Name>>>)

  datatype Error =
    | UnknownPatch(entry: Option<Name>)
    | UnknownOrSelfDependency(group: Option<Name>, dependency: Option<Name>)
    | DependencyCycle
    | DuplicateOwnership(patch: Name)
    | MissingOwnership(patches: set<Name>)

  type Deps = map<Name, set<Name>>

  // ----- the dependency graph -----

  function Ids(groups: seq<Group>): seq<Name> {
    if groups == [] then []
    else (if groups[0].id.Some? then [groups[0].id.value] else []) + Ids(groups[1..])
  }

  function Names(deps: seq<Option<Name>>): set<Name> {
    set d | d in deps && d.Some? :: d.value
  }

  /** A group enters the graph when its id and all its dependencies are well formed. */
  predicate Admitted(g: Group, ids: seq<Name>) {
    g.id.Some? && g.dependsOn.Some? && forall d | d in g.dependsOn.value :: d.Some? && d.value in ids
  }

  /** Of several groups with one id the last counts. */
  function DepGraph(groups: seq<Group>, ids: seq<Name>): Deps {
    if groups == [] then map[]
    else
      var g := groups[|groups| - 1];
      var before := DepGraph(groups[..|groups| - 1], ids);
      if Admitted(g, ids) then before[g.id.value := Names(g.dependsOn.value)] else before
  }

  /** A closed walk along dependencies, all of whose nodes are in the graph. */
  predicate IsCycle(g: Deps, c: seq<Name>) {
    && c != []
    && forall i | 0 <= i < |c| :: c[i] in g && c[if i + 1 < |c| then i + 1 else 0] in g[c[i]]
  }

  ghost predicate HasCycle(g: Deps) {
    exists c :: IsCycle(g, c)
  }

  function Ready(remaining: Deps): set<Name> {
    set n | n in remaining && remaining[n] * remaining.Keys == {}
  }

  /** Every node of a cycle stays, because the next one on the cycle holds it back. */
  lemma CycleNotReady(g: Deps, remaining: Deps, c: seq<Name>)
    requires IsCycle(g, c) && (forall n | n in c :: n in remaining)
    requires forall n | n in remaining :: n in g && remaining[n] == g[n]
    ensures forall n | n in c :: n !in Ready(remaining)
  {
    forall i | 0 <= i < |c|
      ensures c[i] !in Ready(remaining)
    {
      var next := c[if i + 1 < |c| then i + 1 else 0];
      assert next in c && next in remaining[c[i]] * remaining.Keys;
    }
  }

  /** Where nobody is ready, following dependencies runs into a cycle. `path` is a walk
      through distinct nodes. */
  lemma WalkFindsCycle(remaining: Deps, path: seq<Name>, left: set<Name>)
    requires Ready(remaining) == {} && path != []
    requires forall i | 0 <= i < |path| :: path[i] in remaining
    requires forall i | 0 <= i < |path| - 1 :: path[i + 1] in remaining[path[i]]
    requires left == remaining.Keys - set n | n in path
    ensures HasCycle(remaining)
    decreases left
  {
    var last := path[|path| - 1];
    assert last !in Ready(remaining);
    var next :| next in remaining[last] * remaining.Keys;
    if next in path {
      var k :| 0 <= k < |path| && path[k] == next;
      var c := path[k..];
      forall i | 0 <= i < |c|
        ensures c[i] in remaining && c[if i + 1 < |c| then i + 1 else 0] in remaining[c[i]]
      {
        assert c[i] == path[k + i];
      }
      assert IsCycle(remaining, c);
    } else {
      assert next in left;
      WalkFindsCycle(remaining, path + [next], left - {next});
    }
  }

  lemma CycleInPart(g: Deps, part: Deps)
    requires forall n | n in part :: n in g && part[n] == g[n]
    ensures HasCycle(part) ==> HasCycle(g)
  {
    if c :| IsCycle(part, c) {
      assert IsCycle(g, c);
    }
  }

  /** Peels off the groups whose dependencies are all gone until none is left or none is ready. */
  method FindsCycle(graph: Deps) returns (cycle: bool)
    ensures cycle <==> HasCycle(graph)
  {
    var remaining := graph;
    while remaining.Keys != {}
      invariant forall n | n in remaining :: n in graph && remaining[n] == graph[n]
      invariant forall c | IsCycle(graph, c) :: c[0] in remaining.Keys && forall n | n in c :: n in remaining
      decreases remaining.Keys
    {
      var ready := Ready(remaining);
      if ready == {} {
        var n :| n in remaining;
        WalkFindsCycle(remaining, [n], remaining.Keys - set m | m in [n]);
        CycleInPart(graph, remaining);
        return true;
      }
      forall c | IsCycle(graph, c)
        ensures c[0] in remaining - ready && forall n | n in c :: n in remaining - ready
      {
        CycleNotReady(graph, remaining, c);
        assert c[0] in c;
      }
      var n :| n in ready;
      assert n in remaining.Keys && n !in (remaining - ready).Keys;
      remaining := remaining - ready;
    }
    return false;
  }

  // ----- ownership -----

  /** All patch entries of all groups, in order. */
  function Listed(groups: seq<Group>): seq<Option<Name>> {
    if groups == [] then []
    else Listed(groups[..|groups| - 1]) +
         (if groups[|groups| - 1].patches.Some? then groups[|groups| - 1].patches.value else [])
  }

  function Owned(listed: seq<Option<Name>>, present: set<Name>): seq<Name> {
    if listed == [] then []
    else
      var p := listed[|listed| - 1];
      Owned(listed[..|listed| - 1], present) + (if p.Some? && p.value in present then [p.value] else [])
  }

  /** Every present patch is listed by exactly one group, once, and nothing else is listed. */
  ghost predicate Partition(listed: seq<Option<Name>>, present: set<Name>) {
    && (forall p | p in listed :: p.Some? && p.value in present)
    && forall p | p in present :: multiset(listed)[Some(p)] == 1
  }

  lemma {:induction false} OwnedCounts(listed: seq<Option<Name>>, present: set<Name>, p: Name)
    ensures multiset(Owned(listed, present))[p] == if p in present then multiset(listed)[Some(p)] else 0
  {
    if listed != [] {
      var (front, last) := (listed[..|listed| - 1], listed[|listed| - 1]);
      OwnedCounts(front, present, p);
      assert listed == front + [last];
    }
  }

  function UnknownPatches(listed: seq<Option<Name>>, present: set<Name>): seq<Error> {
    if listed == [] then []
    else
      var p := listed[|listed| - 1];
      UnknownPatches(listed[..|listed| - 1], present)
      + (if p.Some? && p.value in present then [] else [UnknownPatch(p)])
  }

  lemma {:induction false} UnknownPatchesAre(listed: seq<Option<Name>>, present: set<Name>)
    ensures forall e | e in UnknownPatches(listed, present) :: e.UnknownPatch?
    ensures UnknownPatches(listed, present) == [] <==>
            forall p | p in listed :: p.Some? && p.value in present
    ensures forall p :: UnknownPatch(p) in UnknownPatches(listed, present) <==> p in listed && (p == None || p.value !in present)
  {
    if listed != [] {
      UnknownPatchesAre(listed[..|listed| - 1], present);
      assert listed == listed[..|listed| - 1] + [listed[|listed| - 1]];
    }
  }

  /** One error for each value that occurs more than once. */
  method Duplicates(owned: seq<Name>) returns (errors: seq<Error>)
    ensures forall e | e in errors :: e.DuplicateOwnership?
    ensures forall p :: DuplicateOwnership(p) in errors <==> multiset(owned)[p] > 1
  {
    errors := [];
    for i := 0 to |owned|
      invariant forall e | e in errors :: e.DuplicateOwnership? && multiset(owned)[e.patch] > 1
      invariant forall j | 0 <= j < i && multiset(owned)[owned[j]] > 1 :: DuplicateOwnership(owned[j]) in errors
    {
      if multiset(owned)[owned[i]] > 1 && DuplicateOwnership(owned[i]) !in errors {
        errors := errors + [DuplicateOwnership(owned[i])];
      }
    }
    forall p | multiset(owned)[p] > 1
      ensures DuplicateOwnership(p) in errors
    {
      assert p in owned;
    }
  }

  lemma OwnedMembers(listed: seq<Option<Name>>, present: set<Name>, p: Name)
    ensures p in Owned(listed, present) <==> p in present && Some(p) in listed
    ensures multiset(Owned(listed, present))[p] == if p in present then multiset(listed)[Some(p)] else 0
  {
    OwnedCounts(listed, present, p);
    assert p in Owned(listed, present) <==> multiset(Owned(listed, present))[p] > 0;
    assert Some(p) in listed <==> multiset(listed)[Some(p)] > 0;
  }

  method OwnedTwice(listed: seq<Option<Name>>, present: set<Name>) returns (errors: seq<Error>)
    ensures forall e | e in errors :: e.DuplicateOwnership?
    ensures forall p :: DuplicateOwnership(p) in errors <==> p in present && multiset(listed)[Some(p)] > 1
  {
    errors := Duplicates(Owned(listed, present));
    forall p
      ensures DuplicateOwnership(p) in errors <==> p in present && multiset(listed)[Some(p)] > 1
    {
      OwnedMembers(listed, present, p);
    }
  }

  method OwnedByNobody(listed: seq<Option<Name>>, present: set<Name>) returns (errors: seq<Error>)
    ensures errors == [] <==> forall p | p in present :: Some(p) in listed
    ensures errors != [] ==> errors == [MissingOwnership(set p | p in present && Some(p) !in listed)]
  {
    var owned: seq<Name> := Owned(listed, present);
    var missing := set p | p in present && p !in owned;
    forall p
      ensures p in owned <==> p in present && Some(p) in listed
    {
      OwnedMembers(listed, present, p);
    }
    assert missing == set p | p in present && Some(p) !in listed;
    errors := if missing == {} then [] else [MissingOwnership(missing)];
    assert missing == {} <==> forall p | p in present :: p !in missing;
  }

  /** Reports unknown patches, doubly owned ones, then the ones that nobody owns. */
  method CheckOwnership(groups: seq<Group>, present: set<Name>) returns (errors: seq<Error>)
    ensures errors == [] <==> Partition(Listed(groups), present)
    ensures forall p :: UnknownPatch(p) in errors <==> p in Listed(groups) && (p == None || p.value !in present)
    ensures forall p :: DuplicateOwnership(p) in errors <==>
              p in present && multiset(Listed(groups))[Some(p)] > 1
    ensures forall ps :: MissingOwnership(ps) in errors <==>
              ps != {} && ps == set p | p in present && Some(p) !in Listed(groups)
  {
    var listed := Listed(groups);
    var unknown := UnknownPatches(listed, present);
    UnknownPatchesAre(listed, present);
    var doubled := OwnedTwice(listed, present);
    var unowned := OwnedByNobody(listed, present);
    PartitionIff(listed, present, doubled);
    errors := unknown + doubled + unowned;
    assert forall e :: e in errors <==> e in unknown || e in doubled || e in unowned;
    MissingSet(listed, present);
  }

  lemma MissingSet(listed: seq<Option<Name>>, present: set<Name>)
    ensures (set p | p in present && Some(p) !in listed) == {} <==> forall p | p in present :: Some(p) in listed
  {
    var missing := set p | p in present && Some(p) !in listed;
    assert missing == {} <==> forall p | p in present :: p !in missing;
  }

  lemma PartitionIff(listed: seq<Option<Name>>, present: set<Name>, doubled: seq<Error>)
    requires forall e | e in doubled :: e.DuplicateOwnership?
    requires forall p :: DuplicateOwnership(p) in doubled <==> p in present && multiset(listed)[Some(p)] > 1
    ensures Partition(listed, present) <==>
            UnknownPatches(listed, present) == [] && doubled == [] && forall p | p in present :: Some(p) in listed
  {
    UnknownPatchesAre(listed, present);
    assert doubled == [] <==> forall p | p in present :: multiset(listed)[Some(p)] <= 1 by {
      if doubled != [] {
        var p := doubled[0].patch;
        assert DuplicateOwnership(p) in doubled && multiset(listed)[Some(p)] > 1;
      }
    }
    assert forall p :: Some(p) in listed <==> multiset(listed)[Some(p)] > 0;
  }

  // ----- the dependency checks together -----

  /** Dependencies that name no other group. */
  function BadDependencies(groups: seq<Group>, ids: seq<Name>): seq<Error> {
    if groups == [] then []
    else BadDependencies(groups[..|groups| - 1], ids) + BadIn(groups[|groups| - 1], ids)
  }

  function BadIn(g: Group, ids: seq<Name>): seq<Error> {
    if g.dependsOn.Some? then BadAmong(g, g.dependsOn.value, ids) else []
  }

  function BadAmong(g: Group, deps: seq<Option<Name>>, ids: seq<Name>): seq<Error> {
    if deps == [] then []
    else
      var d := deps[|deps| - 1];
      BadAmong(g, deps[..|deps| - 1], ids)
      + (if d == None || d.value !in ids || d == g.id then [UnknownOrSelfDependency(g.id, d)] else [])
  }

  method CheckDependencies(groups: seq<Group>) returns (errors: seq<Error>)
    ensures DependencyCycle in errors <==> HasCycle(DepGraph(groups, Ids(groups)))
    ensures forall e :: e in errors && e != DependencyCycle <==> e in BadDependencies(groups, Ids(groups))
  {
    var ids := Ids(groups);
    errors := BadDependencies(groups, ids);
    NoCycleAmongBad(groups, ids);
    var cycle := FindsCycle(DepGraph(groups, ids));
    if cycle { errors := errors + [DependencyCycle]; }
  }

  lemma {:induction false} BadAmongAre(g: Group, deps: seq<Option<Name>>, ids: seq<Name>)
    ensures forall e | e in BadAmong(g, deps, ids) :: e.UnknownOrSelfDependency?
    ensures BadAmong(g, deps, ids) == [] <==>
            forall d | d in deps :: d.Some? && d.value in ids && d != g.id
  {
    if deps != [] {
      BadAmongAre(g, deps[..|deps| - 1], ids);
      assert deps == deps[..|deps| - 1] + [deps[|deps| - 1]];
    }
  }

  lemma {:induction false} NoCycleAmongBad(groups: seq<Group>, ids: seq<Name>)
    ensures forall e | e in BadDependencies(groups, ids) :: e.UnknownOrSelfDependency?
  {
    if groups != [] {
      NoCycleAmongBad(groups[..|groups| - 1], ids);
      var g := groups[|groups| - 1];
      if g.dependsOn.Some? { BadAmongAre(g, g.dependsOn.value, ids); }
    }
  }

  lemma WellFormed(g: Group, ids: seq<Name>)
    requires BadIn(g, ids) == [] && g.id.Some? && g.dependsOn.Some?
    ensures Admitted(g, ids)
  {
    BadAmongAre(g, g.dependsOn.value, ids);
  }

  /** With no dependency error but the cycle, every well-typed group is in the graph the
      cycle was looked for in. */
  lemma {:induction false} CleanGraphIsWhole(groups: seq<Group>, ids: seq<Name>)
    requires BadDependencies(groups, ids) == []
    ensures forall g | g in groups && g.id.Some? && g.dependsOn.Some? ::
              Admitted(g, ids) && g.id.value in DepGraph(groups, ids)
  {
    if groups != [] {
      var (front, last) := (groups[..|groups| - 1], groups[|groups| - 1]);
      CleanGraphIsWhole(front, ids);
      assert groups == front + [last];
      forall g | g in groups && g.id.Some? && g.dependsOn.Some?
        ensures Admitted(g, ids) && g.id.value in DepGraph(groups, ids)
      {
        hide BadIn, Admitted, Names;
        if g == last { WellFormed(last, ids); }
      }
    }
  }

  /** The edges of a group in that graph are the dependencies it lists, all of them and no others;
      of several groups with one id, those of the last well-formed one. */
  lemma {:induction false} GraphFromGroups(groups: seq<Group>, ids: seq<Name>, n: Name) returns (i: nat)
    requires n in DepGraph(groups, ids)
    ensures i < |groups| && groups[i].id == Some(n) && groups[i].dependsOn.Some?
    ensures forall d :: d in DepGraph(groups, ids)[n] <==> Some(d) in groups[i].dependsOn.value
    ensures forall d | d in groups[i].dependsOn.value :: d.Some? && d.value in ids
    ensures forall j | i < j < |groups| && groups[j].id == Some(n) && groups[j].dependsOn.Some? ::
              exists d :: d in groups[j].dependsOn.value && (d == None || d.value !in ids)
  {
    var (front, last) := (groups[..|groups| - 1], groups[|groups| - 1]);
    if Admitted(last, ids) && last.id == Some(n) {
      i := |groups| - 1;
    } else {
      i := GraphFromGroups(front, ids, n);
    }
  }

  lemma {:induction false} IdsAre(groups: seq<Group>, n: Name)
    ensures n in Ids(groups) <==> exists g :: g in groups && g.id == Some(n)
  {
    if groups != [] {
      IdsAre(groups[1..], n);
      assert groups == [groups[0]] + groups[1..];
    }
  }

  lemma {:induction false} BadAmongIff(g: Group, deps: seq<Option<Name>>, ids: seq<Name>, d: Option<Name>)
    ensures UnknownOrSelfDependency(g.id, d) in BadAmong(g, deps, ids) <==>
            d in deps && (d == None || d == g.id || d.value !in ids)
    ensures forall e | e in BadAmong(g, deps, ids) :: e.UnknownOrSelfDependency? && e.group == g.id
  {
    if deps != [] {
      BadAmongIff(g, deps[..|deps| - 1], ids, d);
      assert deps == deps[..|deps| - 1] + [deps[|deps| - 1]];
    }
  }

  /** A dependency error names a group and an entry of its list that is malformed, the group itself,
      or no group's id; and each such entry is reported. */
  lemma {:induction false} BadDependenciesIff(groups: seq<Group>, ids: seq<Name>, id: Option<Name>, d: Option<Name>)
    ensures UnknownOrSelfDependency(id, d) in BadDependencies(groups, ids) <==>
            exists g :: g in groups && g.id == id && g.dependsOn.Some? && d in g.dependsOn.value
                        && (d == None || d == id || d.value !in ids)
  {
    if groups != [] {
      var (front, last) := (groups[..|groups| - 1], groups[|groups| - 1]);
      BadDependenciesIff(front, ids, id, d);
      assert groups == front + [last];
      if last.dependsOn.Some? { BadAmongIff(last, last.dependsOn.value, ids, d); }
    }
  }

  /** The patch entries are those of every group, in order. */
  lemma {:induction false} ListedConcat(a: seq<Group>, b: seq<Group>)
    ensures Listed(a + b) == Listed(a) + Listed(b)
  {
    if b == [] {
      assert a + b == a;
    } else {
      assert (a + b)[..|a + b| - 1] == a + b[..|b| - 1];
      ListedConcat(a, b[..|b| - 1]);
    }
  }

  lemma ListedOne(g: Group)
    ensures Listed([g]) == if g.patches.Some? then g.patches.value else []
  {
    assert [g][..0] == [];
  }
}
