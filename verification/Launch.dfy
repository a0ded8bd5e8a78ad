/** A kernel launch: independent programs whose stores reach the buffer in any order. A
    program's stores are a map from elements to values; `addr` places an element in the buffer. */
module Launch {

  /** No two stores of the whole grid meet: one program per element, one address per element. */
  ghost predicate Disjoint<P(!new), E(!new), V>(grid: set<P>, stores: P -> map<E, V>, addr: E -> int) {
    forall p, q, x, y | p in grid && q in grid && x in stores(p) && y in stores(q) && addr(x) == addr(y) ::
      p == q && x == y
  }

  ghost predicate InBounds<P(!new), E(!new), V>(grid: set<P>, stores: P -> map<E, V>, addr: E -> int, length: int) {
    forall p, x | p in grid && x in stores(p) :: 0 <= addr(x) < length
  }

  method Commit<E, V>(stores: map<E, V>, addr: E -> int, buf: array<V>)
    requires forall x | x in stores :: 0 <= addr(x) < buf.Length
    requires forall x, y | x in stores && y in stores && addr(x) == addr(y) :: x == y
    modifies buf
    ensures forall x | x in stores :: buf[addr(x)] == stores[x]
    ensures forall a | 0 <= a < buf.Length && (forall x | x in stores :: addr(x) != a) :: buf[a] == old(buf[a])
  {
    var todo := stores.Keys;
    while todo != {}
      invariant todo <= stores.Keys
      invariant forall x | x in stores && x !in todo :: buf[addr(x)] == stores[x]
      invariant forall a | 0 <= a < buf.Length && (forall x | x in stores :: addr(x) != a) :: buf[a] == old(buf[a])
      decreases todo
    {
      var x :| x in todo;
      buf[addr(x)] := stores[x];
      todo := todo - {x};
    }
  }

  /** What `was` has become in `now` once every program of the grid outside `todo` has stored. */
  ghost predicate Ran<P(!new), E(!new), V>(grid: set<P>, todo: set<P>, stores: P -> map<E, V>, addr: E -> int,
                                           was: seq<V>, now: seq<V>) {
    && |now| == |was|
    && (forall p, x | p in grid && p !in todo && x in stores(p) ::
          0 <= addr(x) < |now| && now[addr(x)] == stores(p)[x])
    && (forall a | 0 <= a < |now| && (forall p, x | p in grid && x in stores(p) :: addr(x) != a) :: now[a] == was[a])
  }

  lemma NoneRan<P(!new), E(!new), V>(grid: set<P>, stores: P -> map<E, V>, addr: E -> int, was: seq<V>)
    ensures Ran(grid, grid, stores, addr, was, was)
  {
  }

  /** Commits what program `p`, whichever of the waiting ones it is, has returned. */
  method CommitOne<P(!new), E(!new), V>(ghost grid: set<P>, ghost todo: set<P>, ghost stores: P -> map<E, V>, ghost p: P,
                                        mine: map<E, V>, addr: E -> int, ghost was: seq<V>, buf: array<V>)
    requires Disjoint(grid, stores, addr) && InBounds(grid, stores, addr, buf.Length)
    requires p in todo && todo <= grid && mine == stores(p) && Ran(grid, todo, stores, addr, was, buf[..])
    modifies buf
    ensures Ran(grid, todo - {p}, stores, addr, was, buf[..])
  {
    ghost var before := buf[..];
    Commit(mine, addr, buf);
    forall q, x | q in grid && q !in todo - {p} && x in stores(q)
      ensures 0 <= addr(x) < buf.Length && buf[addr(x)] == stores(q)[x]
    {
      if q != p { assert buf[addr(x)] == before[addr(x)]; }
    }
    forall a | 0 <= a < buf.Length && (forall q, x | q in grid && x in stores(q) :: addr(x) != a)
      ensures buf[a] == was[a]
    {
      assert buf[a] == before[a];
    }
  }

  /** Each element that some program stores holds that program's value, in whatever order they ran;
      the rest of the buffer is untouched. */
  lemma AllRan<P(!new), E(!new), V>(grid: set<P>, stores: P -> map<E, V>, addr: E -> int, was: seq<V>, now: seq<V>)
    requires Ran(grid, {}, stores, addr, was, now)
    ensures forall p, x | p in grid && x in stores(p) :: 0 <= addr(x) < |now| && now[addr(x)] == stores(p)[x]
    ensures forall a | 0 <= a < |now| && (forall p, x | p in grid && x in stores(p) :: addr(x) != a) :: now[a] == was[a]
  {
  }
}
