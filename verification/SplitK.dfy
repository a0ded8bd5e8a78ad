/** The split-K GEMM: slices of K summed by separate programs, then added up in a fixed order
    by a second launch. The addition is uninterpreted, as floating-point addition has no laws. */
module SplitK {
  import opened Options
  import opened Arithmetic
  import opened Launch

  type F(0, !new)
  /** All the kernel reads of one activation row: its values, and its scales if it has any. */
  type Row(!new)

  /** `term(row, n, kk)` is the scaled dot product of the 32-wide group at column `kk`. */
  datatype Problem = Problem(M: nat, N: nat, K: nat, rows: int -> Row, term: (Row, int, int) -> F,
                             zero: F, add: (F, F) -> F, strideC: nat)

  datatype Config = Config(split: nat, blockN: nat, unroll: nat, blockM: nat)

  /** What the configuration table and the shape check guarantee. */
  predicate Fits(p: Problem, c: Config) {
    && p.M > 0 && p.N > 0 && p.strideC >= p.N
    && c.split > 0 && c.blockN > 0 && c.unroll > 0 && c.blockM > 0
    && p.K % (c.split * 32 * c.unroll) == 0
  }

  function KPer(p: Problem, c: Config): nat
    requires Fits(p, c)
  {
    p.K / c.split
  }

  lemma SlicesAreWhole(p: Problem, c: Config)
    requires Fits(p, c)
    ensures c.split * 32 * c.unroll > 0
    ensures KPer(p, c) == p.K / (c.split * 32 * c.unroll) * c.unroll * 32
    ensures p.K == c.split * KPer(p, c)
  {
    var wide := 32 * c.unroll;
    var q := p.K / (c.split * 32 * c.unroll);
    assert c.split * 32 * c.unroll == c.split * wide;
    MulMono(1, c.split, wide);
    DivModSpec(p.K, c.split * wide);
    assert q * (c.split * wide) == q * wide * c.split;
    DivModUnique(p.K, c.split, q * wide, 0);
  }

  function Groups(p: Problem, c: Config): nat
    requires Fits(p, c)
  {
    KPer(p, c) / 32
  }

  lemma GroupsFill(p: Problem, c: Config)
    requires Fits(p, c)
    ensures KPer(p, c) == 32 * Groups(p, c)
    ensures p.K / 32 == Groups(p, c) * c.split
  {
    SlicesAreWhole(p, c);
    var (groups, kPer) := (p.K / (c.split * 32 * c.unroll) * c.unroll, KPer(p, c));
    DivModUnique(kPer, 32, groups, 0);
    FillOut(p.K, c.split, kPer, groups);
  }

  lemma FillOut(k: nat, split: nat, kPer: nat, groups: nat)
    requires k == split * kPer && kPer == 32 * groups
    ensures k / 32 == groups * split
  {
    assert split * kPer == (groups * split) * 32 by { Scale(split, groups, 32); }
    DivModUnique(k, 32, groups * split, 0);
  }

  lemma Scale(a: int, b: int, c: int)
    ensures a * (c * b) == (b * a) * c == (c * b) * a
  {
    MulAssoc(a, c, b);
    MulAssoc(b, a, c);
  }

  // ----- the value of one element -----

  /** Adds up `count` groups from column `start`, left to right. */
  function Slice(p: Problem, row: Row, n: int, start: int, count: nat): F {
    if count == 0 then p.zero
    else p.add(Slice(p, row, n, start, count - 1), p.term(row, n, start + 32 * (count - 1)))
  }

  /** Adds up the first `count` slices of `groups` groups each. */
  function Reduced(p: Problem, row: Row, n: int, groups: nat, count: nat): F {
    if count == 0 then p.zero
    else p.add(Reduced(p, row, n, groups, count - 1),
               Slice(p, row, n, 32 * groups * (count - 1), groups))
  }

  /** The value of an element depends on its own row, the weights, K and the number of slices;
      not on M, the tile or the unrolling. */
  function Output(p: Problem, row: Row, n: int, split: nat): F
    requires split > 0
  {
    Reduced(p, row, n, p.K / split / 32, split)
  }

  /** One lane of the first kernel: unrolled steps over one slice of K. */
  method SliceLoop(p: Problem, c: Config, row: Row, n: int, slice: nat) returns (acc: F)
    requires Fits(p, c)
    ensures acc == Slice(p, row, n, slice * KPer(p, c), KPer(p, c) / 32)
  {
    acc := p.zero;
    SlicesAreWhole(p, c);
    var kPer := KPer(p, c);
    var kStart := slice * kPer;
    var k0 := kStart;
    ghost var whole := p.K / (c.split * 32 * c.unroll);
    ghost var step, done := 0, 0;
    while k0 < kStart + kPer
      invariant 0 <= step <= whole && done == step * c.unroll && k0 == kStart + 32 * done
      invariant acc == Slice(p, row, n, kStart, done)
      decreases kStart + kPer - k0
    {
      acc := UnrolledStep(p, row, n, kStart, k0, c.unroll, acc, done);
      StepsLeft(step, whole, c.unroll, done);
      k0 := k0 + 32 * c.unroll;
      step, done := step + 1, done + c.unroll;
    }
    StepsDone(step, whole, c.unroll);
    DivModUnique(kPer, 32, whole * c.unroll, 0);
  }

  method UnrolledStep(p: Problem, row: Row, n: int, kStart: nat, k0: nat, unroll: nat, start: F, ghost done: nat)
    returns (acc: F)
    requires k0 == kStart + 32 * done && start == Slice(p, row, n, kStart, done)
    ensures acc == Slice(p, row, n, kStart, done + unroll)
  {
    acc := start;
    for j := 0 to unroll
      invariant acc == Slice(p, row, n, kStart, done + j)
    {
      acc := p.add(acc, p.term(row, n, k0 + j * 32));
    }
  }

  lemma StepsLeft(step: nat, whole: nat, unroll: nat, done: nat)
    requires step <= whole && done == step * unroll && done < whole * unroll
    ensures step < whole && done + unroll == (step + 1) * unroll
  {
  }

  lemma StepsDone(step: nat, whole: nat, unroll: nat)
    requires step <= whole && unroll > 0 && step * unroll >= whole * unroll
    ensures step == whole
  {
    if step < whole { MulMono(step + 1, whole, unroll); }
  }

  // ----- the first launch -----

  datatype Pid = Pid(m: int, n: int, k: int)
  /** A partial: element (m, n) of slice `k`. */
  datatype Part = Part(k: int, m: int, n: int)

  predicate IsPid(p: Problem, c: Config, pid: Pid)
    requires Fits(p, c)
  {
    0 <= pid.m < Cdiv(p.M, c.blockM) && 0 <= pid.n < Cdiv(p.N, c.blockN) && 0 <= pid.k < c.split
  }

  function Grid(p: Problem, c: Config): set<Pid>
    requires Fits(p, c)
  {
    set m, n, k | 0 <= m < Cdiv(p.M, c.blockM) && 0 <= n < Cdiv(p.N, c.blockN) && 0 <= k < c.split
                  && IsPid(p, c, Pid(m, n, k)) :: Pid(m, n, k)
  }

  predicate IsPart(p: Problem, c: Config, x: Part) {
    0 <= x.k < c.split && 0 <= x.m < p.M && 0 <= x.n < p.N
  }

  function Parts(p: Problem, c: Config): set<Part> {
    set k, m, n | 0 <= k < c.split && 0 <= m < p.M && 0 <= n < p.N && IsPart(p, c, Part(k, m, n)) :: Part(k, m, n)
  }

  predicate Owns(c: Config, pid: Pid, x: Part) {
    pid.k == x.k && pid.m * c.blockM <= x.m < pid.m * c.blockM + c.blockM
    && pid.n * c.blockN <= x.n < pid.n * c.blockN + c.blockN
  }

  function PartValue(p: Problem, c: Config, x: Part): F
    requires Fits(p, c)
  {
    Slice(p, p.rows(x.m), x.n, x.k * KPer(p, c), KPer(p, c) / 32)
  }

  function PartStores(p: Problem, c: Config): Pid -> map<Part, F>
    requires Fits(p, c)
  {
    pid => map x | x in Parts(p, c) && Owns(c, pid, x) :: PartValue(p, c, x)
  }

  /** One tile row of a program: columns past N are masked. */
  method PartRow(p: Problem, c: Config, slice: nat, m: nat, n0: nat) returns (row: map<Part, F>)
    requires Fits(p, c) && m < p.M && slice < c.split
    ensures forall x :: x in row <==> x.k == slice && x.m == m && n0 <= x.n < n0 + c.blockN && x.n < p.N
    ensures forall x | x in row :: row[x] == PartValue(p, c, x)
  {
    hide Fits, Slice;
    row := map[];
    for j := 0 to c.blockN
      invariant forall x :: x in row <==> x.k == slice && x.m == m && n0 <= x.n < n0 + j && x.n < p.N
      invariant forall x | x in row :: row[x] == PartValue(p, c, x)
    {
      if n0 + j < p.N {
        var acc := SliceLoop(p, c, p.rows(m), n0 + j, slice);
        row := row[Part(slice, m, n0 + j) := acc];
      }
    }
  }

  /** One program of the first kernel stores exactly its partials. */
  method PartProgram(p: Problem, c: Config, pid: Pid) returns (stores: map<Part, F>)
    requires Fits(p, c) && IsPid(p, c, pid)
    ensures stores == PartStores(p, c)(pid)
  {
    MulMono(0, pid.m, c.blockM);
    MulMono(0, pid.n, c.blockN);
    var (m0, n0) := (pid.m * c.blockM, pid.n * c.blockN);
    hide Fits, PartValue;
    stores := map[];
    for i := 0 to c.blockM
      invariant forall x :: x in stores <==>
                  x.k == pid.k && m0 <= x.m < m0 + i && x.m < p.M && n0 <= x.n < n0 + c.blockN && x.n < p.N
      invariant forall x | x in stores :: stores[x] == PartValue(p, c, x)
    {
      if m0 + i < p.M {
        var row := PartRow(p, c, pid.k, m0 + i, n0);
        stores := stores + row;
      }
    }
    forall x ensures x in Parts(p, c) <==> IsPart(p, c, x) { assert x == Part(x.k, x.m, x.n); }
    assert forall x :: x in stores <==> x in PartStores(p, c)(pid);
    assert stores == PartStores(p, c)(pid);
  }

  function PartAddr(p: Problem): Part -> int {
    (x: Part) => (x.k * p.M + x.m) * p.N + x.n
  }

  lemma TileUnique(x: int, limit: nat, block: nat) returns (tile: int)
    requires block > 0 && 0 <= x < limit
    ensures 0 <= tile < Cdiv(limit, block) && tile * block <= x < tile * block + block
    ensures forall t | t * block <= x < t * block + block :: t == tile
  {
    tile := x / block;
    DivModSpec(x, block);
    if tile < 0 { MulMono(tile, -1, block); }
    if tile >= Cdiv(limit, block) { MulMono(Cdiv(limit, block), tile, block); }
    forall t | t * block <= x < t * block + block
      ensures t == tile
    {
      DivModUnique(x, block, t, x - t * block);
    }
  }

  /** Every partial is stored by exactly one program. */
  lemma OneOwner(p: Problem, c: Config, x: Part) returns (owner: Pid)
    requires Fits(p, c) && IsPart(p, c, x)
    ensures owner in Grid(p, c) && x in PartStores(p, c)(owner)
    ensures PartStores(p, c)(owner)[x] == PartValue(p, c, x)
    ensures forall pid | Owns(c, pid, x) :: pid == owner
  {
    var m := TileUnique(x.m, p.M, c.blockM);
    var n := TileUnique(x.n, p.N, c.blockN);
    owner := Pid(m, n, x.k);
    assert IsPid(p, c, owner);
    assert IsPart(p, c, Part(x.k, x.m, x.n)) && Owns(c, owner, x);
  }

  lemma PartAddrUnique(p: Problem, c: Config, x: Part, y: Part)
    requires p.M > 0 && p.N > 0 && IsPart(p, c, x) && IsPart(p, c, y) && PartAddr(p)(x) == PartAddr(p)(y)
    ensures x == y
  {
    RowMajorUnique(x.k * p.M + x.m, x.n, y.k * p.M + y.m, y.n, p.N);
    RowMajorUnique(x.k, x.m, y.k, y.m, p.M);
  }

  lemma FirstLaunchFits(p: Problem, c: Config, length: int)
    requires Fits(p, c) && length >= c.split * p.M * p.N
    ensures Disjoint(Grid(p, c), PartStores(p, c), PartAddr(p))
    ensures InBounds(Grid(p, c), PartStores(p, c), PartAddr(p), length)
  {
    var (stores, addr) := (PartStores(p, c), PartAddr(p));
    forall q, r, x, y | q in Grid(p, c) && r in Grid(p, c) && x in stores(q) && y in stores(r) && addr(x) == addr(y)
      ensures q == r && x == y
    {
      PartAddrUnique(p, c, x, y);
      var owner := OneOwner(p, c, x);
    }
    forall q, x | q in Grid(p, c) && x in stores(q)
      ensures 0 <= addr(x) < length
    {
      RowMajorInside(x.k, x.m, c.split, p.M);
      RowMajorInside(x.k * p.M + x.m, x.n, c.split * p.M, p.N);
    }
  }

  // ----- the second launch -----

  const REDUCE_BLOCK := 128

  predicate IsReducer(p: Problem, pid: int) {
    0 <= pid < Cdiv(p.M * p.N, REDUCE_BLOCK)
  }

  function ReduceGrid(p: Problem): set<int> {
    set pid | 0 <= pid < Cdiv(p.M * p.N, REDUCE_BLOCK) && IsReducer(p, pid)
  }

  predicate Reduces(pid: int, offs: int) {
    pid * REDUCE_BLOCK <= offs < pid * REDUCE_BLOCK + REDUCE_BLOCK
  }

  /** The partials at one flat offset, added in slice order. */
  function FromParts(p: Problem, parts: seq<F>, offs: int, count: nat): F {
    if count == 0 then p.zero
    else p.add(FromParts(p, parts, offs, count - 1), At(p, parts, (count - 1) * (p.M * p.N) + offs))
  }

  function At(p: Problem, parts: seq<F>, i: int): F {
    if 0 <= i < |parts| then parts[i] else p.zero
  }

  /** One lane of the second kernel. */
  method ReduceLoop(p: Problem, parts: array<F>, offs: nat, split: nat) returns (acc: F)
    requires parts.Length >= split * (p.M * p.N) && offs < p.M * p.N
    ensures acc == FromParts(p, parts[..], offs, split)
  {
    acc := p.zero;
    for s := 0 to split
      invariant acc == FromParts(p, parts[..], offs, s)
    {
      RowMajorInside(s, offs, split, p.M * p.N);
      acc := p.add(acc, parts[s * (p.M * p.N) + offs]);
    }
  }

  function SumStores(p: Problem, parts: seq<F>, split: nat): int -> map<int, F> {
    pid => map offs | 0 <= offs < p.M * p.N && Reduces(pid, offs) :: FromParts(p, parts, offs, split)
  }

  /** One program of the second kernel. */
  method ReduceProgram(p: Problem, parts: array<F>, split: nat, pid: nat) returns (stores: map<int, F>)
    requires parts.Length >= split * (p.M * p.N)
    ensures stores == SumStores(p, parts[..], split)(pid)
  {
    hide FromParts;
    stores := map[];
    var first := pid * REDUCE_BLOCK;
    for lane := 0 to REDUCE_BLOCK
      invariant forall offs :: offs in stores <==> first <= offs < first + lane && offs < p.M * p.N
      invariant forall offs | offs in stores :: stores[offs] == FromParts(p, parts[..], offs, split)
    {
      if first + lane < p.M * p.N {
        var acc := ReduceLoop(p, parts, first + lane, split);
        stores := stores[first + lane := acc];
      }
    }
    assert forall offs :: offs in stores <==> offs in SumStores(p, parts[..], split)(pid);
    assert stores == SumStores(p, parts[..], split)(pid);
  }

  function SumAddr(p: Problem): int -> int
    requires p.N > 0
  {
    offs => offs / p.N * p.strideC + (offs - offs / p.N * p.N)
  }

  lemma OneReducer(p: Problem, parts: seq<F>, split: nat, offs: int) returns (owner: int)
    requires 0 <= offs < p.M * p.N
    ensures owner in ReduceGrid(p) && offs in SumStores(p, parts, split)(owner)
    ensures forall pid | Reduces(pid, offs) :: pid == owner
  {
    owner := TileUnique(offs, p.M * p.N, REDUCE_BLOCK);
    assert IsReducer(p, owner) && Reduces(owner, offs);
  }

  lemma SumAddrRange(p: Problem, offs: int)
    requires p.N > 0 && 0 <= offs < p.M * p.N && p.strideC >= p.N
    ensures 0 <= SumAddr(p)(offs) < p.M * p.strideC
    ensures 0 <= offs / p.N < p.M && 0 <= offs - offs / p.N * p.N < p.N
  {
    DivModSpec(offs, p.N);
    var row := offs / p.N;
    if row < 0 { MulMono(row, -1, p.N); }
    if row >= p.M { MulMono(p.M, row, p.N); }
    RowMajorInside(row, offs - row * p.N, p.M, p.strideC);
  }

  lemma SecondLaunchFits(p: Problem, parts: seq<F>, split: nat, length: int)
    requires p.N > 0 && p.strideC >= p.N && length >= p.M * p.strideC
    ensures Disjoint(ReduceGrid(p), SumStores(p, parts, split), SumAddr(p))
    ensures InBounds(ReduceGrid(p), SumStores(p, parts, split), SumAddr(p), length)
  {
    var (stores, addr) := (SumStores(p, parts, split), SumAddr(p));
    forall q, r, x, y | q in ReduceGrid(p) && r in ReduceGrid(p) && x in stores(q) && y in stores(r) && addr(x) == addr(y)
      ensures q == r && x == y
    {
      SumAddrRange(p, x);
      SumAddrRange(p, y);
      RowMajorUnique(x / p.N, x - x / p.N * p.N, y / p.N, y - y / p.N * p.N, p.strideC);
      var owner := OneReducer(p, parts, split, x);
    }
    forall q, x | q in ReduceGrid(p) && x in stores(q)
      ensures 0 <= addr(x) < length
    {
      SumAddrRange(p, x);
    }
  }

  ghost predicate HoldsParts(p: Problem, c: Config, parts: seq<F>)
    requires Fits(p, c)
  {
    forall x | IsPart(p, c, x) :: 0 <= PartAddr(p)(x) < |parts| && parts[PartAddr(p)(x)] == PartValue(p, c, x)
  }

  lemma SameFlat(k: int, m: int, n: int, rows: int, cols: int)
    ensures (k * rows + m) * cols + n == k * (rows * cols) + (m * cols + n)
  {
    MulAssoc(k, rows, cols);
  }

  lemma PartRead(p: Problem, c: Config, parts: seq<F>, k: int, m: int, n: int)
    requires Fits(p, c) && HoldsParts(p, c, parts) && IsPart(p, c, Part(k, m, n))
    ensures At(p, parts, k * (p.M * p.N) + (m * p.N + n)) == Slice(p, p.rows(m), n, 32 * Groups(p, c) * k, Groups(p, c))
  {
    var x := Part(k, m, n);
    SameFlat(k, m, n, p.M, p.N);
    assert PartAddr(p)(x) == k * (p.M * p.N) + (m * p.N + n);
    GroupsFill(p, c);
    Scale(k, Groups(p, c), 32);
    assert PartValue(p, c, x) == Slice(p, p.rows(m), n, k * KPer(p, c), Groups(p, c));
  }

  /** Every partial the second kernel reads is the one the first kernel stored there. */
  lemma {:induction false} PartsReduce(p: Problem, c: Config, parts: seq<F>, m: int, n: int, count: nat)
    requires Fits(p, c) && HoldsParts(p, c, parts) && count <= c.split
    requires 0 <= m < p.M && 0 <= n < p.N
    ensures FromParts(p, parts, m * p.N + n, count) == Reduced(p, p.rows(m), n, Groups(p, c), count)
  {
    if count > 0 {
      PartsReduce(p, c, parts, m, n, count - 1);
      PartRead(p, c, parts, count - 1, m, n);
      Scale(count - 1, Groups(p, c), 32);
    }
  }

  lemma SumAddrAt(p: Problem, m: int, n: int)
    requires 0 <= m < p.M && 0 <= n < p.N
    ensures 0 <= m * p.N + n < p.M * p.N && SumAddr(p)(m * p.N + n) == m * p.strideC + n
  {
    RowMajorInside(m, n, p.M, p.N);
    DivModUnique(m * p.N + n, p.N, m, n);
  }

  lemma InGrid(p: Problem, c: Config, q: Pid)
    requires Fits(p, c) && q in Grid(p, c)
    ensures IsPid(p, c, q)
  {
  }

  method FirstLaunch(p: Problem, c: Config, parts: array<F>)
    requires Fits(p, c) && parts.Length >= c.split * p.M * p.N
    modifies parts
    ensures HoldsParts(p, c, parts[..])
  {
    hide Fits, InBounds, Disjoint, Ran, Grid, PartStores;
    FirstLaunchFits(p, c, parts.Length);
    ghost var was := parts[..];
    var todo := Grid(p, c);
    NoneRan(Grid(p, c), PartStores(p, c), PartAddr(p), was);
    while todo != {}
      invariant todo <= Grid(p, c) && Ran(Grid(p, c), todo, PartStores(p, c), PartAddr(p), was, parts[..])
      decreases todo
    {
      var q :| q in todo;
      InGrid(p, c, q);
      var mine := PartProgram(p, c, q);
      CommitOne(Grid(p, c), todo, PartStores(p, c), q, mine, PartAddr(p), was, parts);
      todo := todo - {q};
    }
    AllRan(Grid(p, c), PartStores(p, c), PartAddr(p), was, parts[..]);
    forall x | IsPart(p, c, x)
      ensures 0 <= PartAddr(p)(x) < parts.Length && parts[PartAddr(p)(x)] == PartValue(p, c, x)
    {
      var owner := OneOwner(p, c, x);
    }
  }

  method SecondLaunch(p: Problem, parts: array<F>, split: nat, out: array<F>)
    requires p.N > 0 && p.strideC >= p.N && out.Length >= p.M * p.strideC
    requires parts != out && parts.Length >= split * (p.M * p.N)
    modifies out
    ensures forall offs | 0 <= offs < p.M * p.N ::
              0 <= SumAddr(p)(offs) < out.Length && out[SumAddr(p)(offs)] == FromParts(p, parts[..], offs, split)
    ensures forall a | 0 <= a < out.Length && (forall offs | 0 <= offs < p.M * p.N :: SumAddr(p)(offs) != a) ::
              out[a] == old(out[a])
  {
    hide InBounds, Disjoint, Ran, FromParts, SumAddr;
    ghost var read := parts[..];
    SecondLaunchFits(p, read, split, out.Length);
    ghost var was := out[..];
    var todo := ReduceGrid(p);
    NoneRan(ReduceGrid(p), SumStores(p, read, split), SumAddr(p), was);
    while todo != {}
      invariant todo <= ReduceGrid(p) && Ran(ReduceGrid(p), todo, SumStores(p, read, split), SumAddr(p), was, out[..])
      invariant parts[..] == read
      decreases todo
    {
      var q :| q in todo;
      var mine := ReduceProgram(p, parts, split, q);
      CommitOne(ReduceGrid(p), todo, SumStores(p, read, split), q, mine, SumAddr(p), was, out);
      todo := todo - {q};
    }
    AllRan(ReduceGrid(p), SumStores(p, read, split), SumAddr(p), was, out[..]);
    forall offs | 0 <= offs < p.M * p.N
      ensures 0 <= SumAddr(p)(offs) < out.Length && out[SumAddr(p)(offs)] == FromParts(p, read, offs, split)
    {
      var owner := OneReducer(p, read, split, offs);
    }
  }

  /** The whole GEMM: the two launches, whatever the scratch buffer held. */
  method SplitKMm(p: Problem, c: Config, parts: array<F>, out: array<F>)
    requires Fits(p, c) && parts != out
    requires parts.Length >= c.split * p.M * p.N && out.Length >= p.M * p.strideC
    modifies parts, out
    ensures forall m, n | 0 <= m < p.M && 0 <= n < p.N ::
              0 <= m * p.strideC + n < out.Length && out[m * p.strideC + n] == Output(p, p.rows(m), n, c.split)
    ensures forall a | 0 <= a < out.Length && (a / p.strideC >= p.M || a % p.strideC >= p.N) :: out[a] == old(out[a])
  {
    hide HoldsParts, Output;
    FirstLaunch(p, c, parts);
    ghost var done := parts[..];
    MulAssoc(c.split, p.M, p.N);
    SecondLaunch(p, parts, c.split, out);
    forall m, n | 0 <= m < p.M && 0 <= n < p.N
      ensures 0 <= m * p.strideC + n < out.Length
      ensures out[m * p.strideC + n] == Output(p, p.rows(m), n, c.split)
    {
      SumAddrAt(p, m, n);
      PartsReduce(p, c, done, m, n, c.split);
      OutputIs(p, c, p.rows(m), n);
      assert out[SumAddr(p)(m * p.N + n)] == FromParts(p, done, m * p.N + n, c.split);
    }
    forall a | 0 <= a < out.Length && (a / p.strideC >= p.M || a % p.strideC >= p.N)
      ensures out[a] == old(out[a])
    {
      GapUnstored(p, a);
    }
  }

  lemma OutputIs(p: Problem, c: Config, row: Row, n: int)
    requires Fits(p, c)
    ensures Output(p, row, n, c.split) == Reduced(p, row, n, Groups(p, c), c.split)
  {
  }

  lemma GapUnstored(p: Problem, a: int)
    requires p.N > 0 && p.strideC >= p.N && (a / p.strideC >= p.M || a % p.strideC >= p.N)
    ensures forall offs | 0 <= offs < p.M * p.N :: SumAddr(p)(offs) != a
  {
    forall offs | 0 <= offs < p.M * p.N
      ensures SumAddr(p)(offs) != a
    {
      SumAddrRange(p, offs);
      GapIsNoCell(offs / p.N, offs - offs / p.N * p.N, p.M, p.N, p.strideC, a);
    }
  }

  // ----- choosing the configuration -----

  /** A row of the table, with the rows it admits while a graph is captured and eagerly. */
  datatype Entry = Entry(split: nat, blockN: nat, unroll: nat, minRows: nat, maxRows: nat, tileM: nat, eagerMax: nat)

  const BLOCK_M := 16

  function Lookup(n: nat, k: nat): Option<Entry> {
    if (n, k) == (1792, 5120) then Some(Entry(16, 64, 2, 2, 59, 32, 192))
    else if (n, k) == (576, 5120) then Some(Entry(16, 64, 2, 4, 64, 16, 320))
    else if (n, k) == (1024, 4096) then Some(Entry(16, 64, 2, 3, 191, 16, 320))
    else if (n, k) == (4096, 1280) then Some(Entry(8, 64, 1, 4, 59, 32, 96))
    else if (n, k) == (5120, 1024) then Some(Entry(8, 64, 2, 4, 48, 16, 48))
    else if (n, k) == (5120, 15360) then Some(Entry(8, 64, 2, 2, 64, 16, 96))
    else if (n, k) == (25600, 768) then Some(Entry(2, 64, 1, 2, 32, 16, 32))
    else None
  }

  /** `tileM` unless it pads more rows than tiles of `BLOCK_M` rows. */
  function TileRows(rows: nat, tileM: nat): nat
    requires tileM > 0
  {
    if Cdiv(rows, tileM) * tileM == Cdiv(rows, BLOCK_M) * BLOCK_M then tileM else BLOCK_M
  }

  function Admitted(n: nat, k: nat, rows: nat, capturing: bool): Option<Config> {
    match Lookup(n, k)
    case None => None
    case Some(e) =>
      if e.minRows <= rows <= (if capturing then e.maxRows else e.eagerMax) && k % (e.split * 32 * e.unroll) == 0
      then Some(Config(e.split, e.blockN, e.unroll, TileRows(rows, e.tileM)))
      else None
  }

  /** An admitted configuration is one both kernels are sound for. Its tiles pad no more rows
      than 16-row tiles, and the division of K does not depend on the number of rows or on
      whether a graph is being captured. */
  lemma AdmittedFits(p: Problem, capturing: bool, rows: nat, capturing': bool)
    requires p.strideC >= p.N && Admitted(p.N, p.K, p.M, capturing).Some?
    ensures var c := Admitted(p.N, p.K, p.M, capturing).value;
            Fits(p, c) && Cdiv(p.M, c.blockM) * c.blockM == Cdiv(p.M, BLOCK_M) * BLOCK_M
    ensures Admitted(p.N, p.K, rows, capturing').Some? ==>
              var (c, d) := (Admitted(p.N, p.K, p.M, capturing).value, Admitted(p.N, p.K, rows, capturing').value);
              c.split == d.split && c.unroll == d.unroll && c.blockN == d.blockN
  {
    var e := Lookup(p.N, p.K).value;
    assert e.split > 0 && e.blockN > 0 && e.unroll > 0 && e.tileM > 0 && e.minRows > 0;
  }

  // ----- consequences -----

  /** The two problems agree on the weights, K and the arithmetic. */
  ghost predicate SameArithmetic(p: Problem, q: Problem) {
    p.K == q.K && p.term == q.term && p.zero == q.zero && p.add == q.add
  }

  /** A row gives the same output in every admitted batch, whatever its neighbours, its place,
      the batch size and the tile height: bit for bit, as no law of addition is used. */
  lemma RowIndependence(p: Problem, q: Problem, r: int, s: int, n: int, capturing: bool, capturing': bool)
    requires SameArithmetic(p, q) && p.N == q.N && p.strideC >= p.N && p.rows(r) == q.rows(s)
    requires Admitted(p.N, p.K, p.M, capturing).Some? && Admitted(q.N, q.K, q.M, capturing').Some?
    ensures Admitted(p.N, p.K, p.M, capturing).value.split > 0
    ensures Admitted(q.N, q.K, q.M, capturing').value.split > 0
    ensures Output(p, p.rows(r), n, Admitted(p.N, p.K, p.M, capturing).value.split) ==
            Output(q, q.rows(s), n, Admitted(q.N, q.K, q.M, capturing').value.split)
  {
    AdmittedFits(p, capturing, q.M, capturing');
    var split := Admitted(p.N, p.K, p.M, capturing).value.split;
    ReducedSame(p, q, p.rows(r), n, p.K / split / 32, split);
  }

  lemma {:induction false} ReducedSame(p: Problem, q: Problem, row: Row, n: int, groups: nat, count: nat)
    requires SameArithmetic(p, q)
    ensures Reduced(p, row, n, groups, count) == Reduced(q, row, n, groups, count)
  {
    if count > 0 {
      ReducedSame(p, q, row, n, groups, count - 1);
      SliceSame(p, q, row, n, 32 * groups * (count - 1), groups);
    }
  }

  lemma {:induction false} SliceSame(p: Problem, q: Problem, row: Row, n: int, start: int, count: nat)
    requires SameArithmetic(p, q)
    ensures Slice(p, row, n, start, count) == Slice(q, row, n, start, count)
  {
    if count > 0 { SliceSame(p, q, row, n, start, count - 1); }
  }

  lemma {:induction false} SliceConcat(p: Problem, row: Row, n: int, start: int, a: nat, b: nat)
    requires IsMonoid(p.add, p.zero)
    ensures Slice(p, row, n, start, a + b) ==
            p.add(Slice(p, row, n, start, a), Slice(p, row, n, start + 32 * a, b))
  {
    if b > 0 { SliceConcat(p, row, n, start, a, b - 1); }
  }

  lemma {:induction false} ReducedIsSlice(p: Problem, row: Row, n: int, groups: nat, count: nat, total: nat)
    requires IsMonoid(p.add, p.zero) && total == groups * count
    ensures Reduced(p, row, n, groups, count) == Slice(p, row, n, 0, total)
  {
    if count == 0 {
      assert total == 0;
    } else {
      hide IsMonoid, Slice, Reduced;
      LessOne(groups, count);
      ReducedIsSlice(p, row, n, groups, count - 1, total - groups);
      MulAssoc(32, groups, count - 1);
      ReducedStep(p, row, n, groups, count - 1, total - groups);
    }
  }

  lemma ReducedStep(p: Problem, row: Row, n: int, groups: nat, count: nat, before: nat)
    requires IsMonoid(p.add, p.zero) && Reduced(p, row, n, groups, count) == Slice(p, row, n, 0, before)
    requires 32 * groups * count == 32 * before
    ensures Reduced(p, row, n, groups, count + 1) == Slice(p, row, n, 0, before + groups)
  {
    hide IsMonoid;
    SliceConcat(p, row, n, 0, before, groups);
  }

  lemma LessOne(groups: nat, count: nat)
    requires count > 0
    ensures groups * count - groups == groups * (count - 1) >= 0
  {
  }

  lemma {:induction false} SliceIsFold(p: Problem, row: Row, n: int, start: int, count: nat)
    ensures Slice(p, row, n, start, count) == Fold(p.add, p.zero, seq(count, (g: int) => p.term(row, n, start + 32 * g)))
  {
    if count > 0 {
      SliceIsFold(p, row, n, start, count - 1);
      var before := seq(count - 1, (g: int) => p.term(row, n, start + 32 * g));
      FoldMore(p.add, p.zero, before, p.term(row, n, start + 32 * (count - 1)));
      assert seq(count, (g: int) => p.term(row, n, start + 32 * g)) == before + [p.term(row, n, start + 32 * (count - 1))];
    }
  }

  /** Slice `k`: the left fold of the groups `k * groups .. (k + 1) * groups`. */
  lemma SliceOf(p: Problem, row: Row, n: int, groups: nat, k: nat)
    ensures Slice(p, row, n, 32 * groups * k, groups) ==
            Fold(p.add, p.zero, seq(groups, (g: int) => p.term(row, n, 32 * (k * groups + g))))
  {
    SliceIsFold(p, row, n, 32 * groups * k, groups);
    assert 32 * groups * k == 32 * (k * groups);
    assert seq(groups, (g: int) => p.term(row, n, 32 * groups * k + 32 * g)) ==
           seq(groups, (g: int) => p.term(row, n, 32 * (k * groups + g)));
  }

  lemma {:induction false} ReducedIsFold(p: Problem, row: Row, n: int, groups: nat, count: nat)
    ensures Reduced(p, row, n, groups, count) ==
            Fold(p.add, p.zero, seq(count, (k: int) =>
              Fold(p.add, p.zero, seq(groups, (g: int) => p.term(row, n, 32 * (k * groups + g))))))
  {
    if count > 0 {
      ReducedIsFold(p, row, n, groups, count - 1);
      SliceOf(p, row, n, groups, count - 1);
      var slice := (k: int) => Fold(p.add, p.zero, seq(groups, (g: int) => p.term(row, n, 32 * (k * groups + g))));
      FoldMore(p.add, p.zero, seq(count - 1, slice), slice(count - 1));
      assert seq(count, slice) == seq(count - 1, slice) + [slice(count - 1)];
    }
  }

  /** With no law of addition: of the K / 32 group terms in column order, slice `k` is the left fold
      of its own stretch of K / 32 / split, and the output the left fold of the slices. */
  lemma OutputIsFolds(p: Problem, c: Config, row: Row, n: int)
    requires Fits(p, c)
    ensures p.K / 32 == c.split * (p.K / 32 / c.split)
    ensures Output(p, row, n, c.split) ==
            Fold(p.add, p.zero, seq(c.split, (k: int) =>
              Fold(p.add, p.zero, seq(p.K / 32 / c.split, (g: int) => p.term(row, n, 32 * (k * (p.K / 32 / c.split) + g))))))
  {
    GroupsFill(p, c);
    DivModUnique(p.K / 32, c.split, Groups(p, c), 0);
    ReducedIsFold(p, row, n, Groups(p, c), c.split);
  }

  /** Where addition is associative, splitting changes nothing: the output is the sum of all the
      32-wide groups of K, each once. */
  lemma SplitIsUnsplit(p: Problem, c: Config, row: Row, n: int)
    requires Fits(p, c) && IsMonoid(p.add, p.zero)
    ensures Output(p, row, n, c.split) == Fold(p.add, p.zero, seq(p.K / 32, (g: int) => p.term(row, n, 32 * g)))
  {
    GroupsFill(p, c);
    ReducedIsSlice(p, row, n, Groups(p, c), c.split, p.K / 32);
    SliceIsFold(p, row, n, 0, p.K / 32);
    assert seq(p.K / 32, (g: int) => p.term(row, n, 0 + 32 * g)) == seq(p.K / 32, (g: int) => p.term(row, n, 32 * g));
  }
}
