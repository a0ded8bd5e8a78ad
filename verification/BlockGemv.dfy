/** The small-M FP8 GEMV, which takes wide K tiles with one scale per group, over exact reals:
    the meaning of a routed row. */
module BlockGemv {
  import opened Arithmetic
  import opened Launch
  import B = BlockGemm

  /** `a` has `aGroupK` columns per scale, expert `e` of `b` `groupN` rows and `bGroupK` columns.
      Output row `o` sums the routed rows `o * slots .. (o + 1) * slots`. A dense weight is one
      expert that every row goes to; without router weights they are ones. */
  datatype Problem = Problem(
    N: nat, K: nat, outRows: nat, slots: nat, perToken: nat, experts: nat, ids: int -> int, weight: int -> real,
    a: (int, int) -> real, aScale: (int, int) -> real, b: (int, int, int) -> real, bScale: (int, int, int) -> real,
    groupN: nat, aGroupK: nat, bGroupK: nat, strideC: nat, round: real -> real)

  datatype Tiling = Tiling(bn: nat, bk: nat, groupK: nat)

  predicate Sized(p: Problem) {
    p.groupN > 0 && p.aGroupK > 0 && p.bGroupK > 0 && p.slots > 0 && p.perToken > 0
  }

  predicate Fits(p: Problem, t: Tiling) {
    && Sized(p) && p.strideC >= p.N
    && t.bn > 0 && t.bk > 0 && t.groupK > 0
    && p.groupN % t.bn == 0 && t.bk % t.groupK == 0 && p.aGroupK % t.groupK == 0 && p.bGroupK % t.groupK == 0
  }

  // ----- the meaning -----

  /** Both operands dequantized, multiplied at column `k`. */
  function Term(p: Problem, row: int, e: int, n: int, k: int): real
    requires Sized(p)
  {
    (p.a(row, k) * p.aScale(row, k / p.aGroupK)) * (p.b(e, n, k) * p.bScale(e, n / p.groupN, k / p.bGroupK))
  }

  function Terms(p: Problem, row: int, e: int, n: int): int -> real
    requires Sized(p)
  {
    k => Term(p, row, e, n, k)
  }

  /** `dequant(a[row]) @ dequant(weight[e]).T`, column `n`. */
  function Dot(p: Problem, row: int, e: int, n: int): real
    requires Sized(p)
  {
    Sum(Terms(p, row, e, n), 0, p.K)
  }

  predicate Valid(p: Problem, r: int) {
    0 <= p.ids(r) < p.experts
  }

  /** A routed row; rows of no expert of ours contribute zeros. */
  function RowOut(p: Problem, n: int): int -> real
    requires Sized(p)
  {
    r => (if Valid(p, r) then Dot(p, r / p.perToken, p.ids(r), n) else 0.0) * p.weight(r)
  }

  /** The output: the slots of a row, rounded once. */
  function Out(p: Problem, o: int, n: int): real
    requires Sized(p)
  {
    p.round(Sum(RowOut(p, n), o * p.slots, o * p.slots + p.slots))
  }

  // ----- scale groups within wide tiles -----

  /** The start of a small group lies in the same large group. */
  lemma GroupStart(k: nat, small: nat, large: nat)
    requires small > 0 && large > 0 && large % small == 0
    ensures (k / small * small) / large == k / large
  {
    var (q, r, m) := (k / large, k % large, large / small);
    DivModSpec(k, large);
    DivModSpec(large, small);
    DivModSpec(r, small);
    assert k == (q * m + r / small) * small + r % small by { Regroup(q, m, small, large, r); }
    DivModUnique(k, small, q * m + r / small, r % small);
    assert k / small * small == q * large + r / small * small by { Regroup(q, m, small, large, r); }
    if r / small < 0 { MulMono(r / small, -1, small); }
    MulMono(0, r / small, small);
    DivModUnique(k / small * small, large, q, r / small * small);
  }

  lemma Regroup(q: int, m: int, small: int, large: int, r: int)
    requires large == m * small && small > 0 && r == r / small * small + r % small
    ensures (q * m + r / small) * small == q * large + r / small * small
  {
    assert (q * m) * small == q * (m * small);
  }

  lemma StartInTile(k0: nat, i: nat, g: nat)
    requires g > 0 && k0 % g == 0
    ensures k0 + i / g * g == (k0 + i) / g * g
  {
    DivModSpec(k0, g);
    DivModSpec(i, g);
    assert k0 + i == (k0 / g + i / g) * g + i % g;
    DivModUnique(k0 + i, g, k0 / g + i / g, i % g);
  }

  /** What lane `i` of the tile at `k0` multiplies, as the kernel indexes its scales. */
  function LaneTerm(p: Problem, t: Tiling, row: int, e: int, n: int, scaleRow: int, k0: int, i: int): real
    requires Fits(p, t)
  {
    var (k, start) := (k0 + i, k0 + i / t.groupK * t.groupK);
    p.b(e, n, k) * (p.a(row, k) * (p.aScale(row, start / p.aGroupK) * p.bScale(e, scaleRow, start / p.bGroupK)))
  }

  lemma Reordered(a: real, x: real, b: real, y: real)
    ensures b * (a * (x * y)) == (a * x) * (b * y)
  {
    assert b * (a * (x * y)) == b * ((a * x) * y);
    assert b * ((a * x) * y) == (a * x) * (b * y);
  }

  lemma LaneIsTerm(p: Problem, t: Tiling, row: int, e: int, n: int, k0: nat, i: nat)
    requires Fits(p, t) && k0 % t.groupK == 0
    ensures LaneTerm(p, t, row, e, n, n / p.groupN, k0, i) == Term(p, row, e, n, k0 + i)
  {
    var k := k0 + i;
    StartInTile(k0, i, t.groupK);
    GroupStart(k, t.groupK, p.aGroupK);
    GroupStart(k, t.groupK, p.bGroupK);
    Reordered(p.a(row, k), p.aScale(row, k / p.aGroupK), p.b(e, n, k), p.bScale(e, n / p.groupN, k / p.bGroupK));
  }

  // ----- the loops -----

  function Least(a: int, b: int): int {
    if a <= b then a else b
  }

  /** One K tile: masked lanes load zero. */
  method TileSum(p: Problem, t: Tiling, row: int, e: int, live: bool, n: int, scaleRow: int, k0: nat) returns (sum: real)
    requires Fits(p, t) && k0 % t.groupK == 0 && k0 <= p.K && scaleRow == n / p.groupN
    ensures sum == if live then Sum(Terms(p, row, e, n), k0, Least(k0 + t.bk, p.K)) else 0.0
  {
    assert Sized(p);
    hide LaneTerm, Term, Fits, Sized;
    sum := 0.0;
    for i := 0 to t.bk
      invariant sum == if live then Sum(Terms(p, row, e, n), k0, Least(k0 + i, p.K)) else 0.0
    {
      LaneIsTerm(p, t, row, e, n, k0, i);
      if live && k0 + i < p.K { sum := sum + LaneTerm(p, t, row, e, n, scaleRow, k0, i); }
    }
  }

  /** The K loop. */
  method GemvDot(p: Problem, t: Tiling, row: int, e: int, live: bool, n: int, scaleRow: int) returns (acc: real)
    requires Fits(p, t) && scaleRow == n / p.groupN
    ensures acc == if live then Dot(p, row, e, n) else 0.0
  {
    hide Terms;
    acc := 0.0;
    var k0 := 0;
    while k0 < p.K
      invariant k0 % t.groupK == 0 && acc == if live then Sum(Terms(p, row, e, n), 0, Least(k0, p.K)) else 0.0
    {
      var part := TileSum(p, t, row, e, live, n, scaleRow, k0);
      SumSplit(Terms(p, row, e, n), 0, k0, Least(k0 + t.bk, p.K));
      NextTile(k0, t.bk, t.groupK);
      acc := acc + part;
      k0 := k0 + t.bk;
    }
  }

  lemma NextTile(k0: nat, bk: nat, g: nat)
    requires g > 0 && k0 % g == 0 && bk % g == 0
    ensures (k0 + bk) % g == 0
  {
    DivModSpec(k0, g);
    DivModSpec(bk, g);
    assert k0 + bk == (k0 / g + bk / g) * g;
    DivModUnique(k0 + bk, g, k0 / g + bk / g, 0);
  }

  /** One routed row; the weight of no expert is never read. */
  method RoutedRow(p: Problem, t: Tiling, pidN: nat, row: nat, n: nat) returns (part: real)
    requires Fits(p, t) && pidN * t.bn <= n < pidN * t.bn + t.bn
    ensures part == RowOut(p, n)(row)
  {
    ScaleRowShared(p, t, pidN, n);
    hide Dot;
    var live := Valid(p, row);
    part := GemvDot(p, t, row / p.perToken, if live then p.ids(row) else 0, live, n, pidN * t.bn / p.groupN);
    part := part * p.weight(row);
  }

  /** The slots of an output row, from routed row `first`. */
  method SlotRows(p: Problem, t: Tiling, pidN: nat, first: nat, n: nat) returns (acc: real)
    requires Fits(p, t) && pidN * t.bn <= n < pidN * t.bn + t.bn
    ensures acc == Sum(RowOut(p, n), first, first + p.slots)
  {
    assert Sized(p);
    hide RowOut, Fits, Sized;
    acc := 0.0;
    for slot := 0 to p.slots
      invariant acc == Sum(RowOut(p, n), first, first + slot)
    {
      var part := RoutedRow(p, t, pidN, first + slot, n);
      acc := acc + part;
    }
  }

  /** One lane of a program. */
  method Lane(p: Problem, t: Tiling, pidN: nat, o: nat, n: nat) returns (v: real)
    requires Fits(p, t) && pidN * t.bn <= n < pidN * t.bn + t.bn
    ensures v == Out(p, o, n)
  {
    assert Sized(p);
    hide RowOut, Fits, Sized;
    MulMono(0, o, p.slots);
    var acc := SlotRows(p, t, pidN, o * p.slots, n);
    v := p.round(acc);
  }

  /** The columns of a program share one row of weight scales. */
  lemma ScaleRowShared(p: Problem, t: Tiling, pidN: nat, n: nat)
    requires Fits(p, t) && pidN * t.bn <= n < pidN * t.bn + t.bn
    ensures p.groupN > 0 && pidN * t.bn / p.groupN == n / p.groupN
  {
    DivModUnique(n, t.bn, pidN, n - pidN * t.bn);
    GroupStart(n, t.bn, p.groupN);
  }

  // ----- the launch -----

  datatype Pid = Pid(n: int, row: int)

  datatype Cell = Cell(row: int, n: int)

  predicate IsCell(p: Problem, x: Cell) {
    0 <= x.row < p.outRows && 0 <= x.n < p.N
  }

  function Tiles(p: Problem, t: Tiling): nat
    requires t.bn > 0
  {
    Cdiv(p.N, t.bn)
  }

  function Grid(p: Problem, t: Tiling): set<Pid>
    requires t.bn > 0
  {
    set n, row | 0 <= n < Tiles(p, t) && 0 <= row < p.outRows :: Pid(n, row)
  }

  function Cells(p: Problem): set<Cell> {
    set row, n | 0 <= row < p.outRows && 0 <= n < p.N :: Cell(row, n)
  }

  predicate Owns(t: Tiling, q: Pid, x: Cell) {
    q.row == x.row && q.n * t.bn <= x.n < q.n * t.bn + t.bn
  }

  function Stores(p: Problem, t: Tiling): Pid -> map<Cell, real>
    requires Fits(p, t)
  {
    (q: Pid) => map x | x in Cells(p) && Owns(t, q, x) :: Out(p, x.row, x.n)
  }

  function Addr(p: Problem): Cell -> int {
    (x: Cell) => x.row * p.strideC + x.n
  }

  /** One program stores its live lanes. */
  method Program(p: Problem, t: Tiling, q: Pid) returns (stores: map<Cell, real>)
    requires Fits(p, t) && q in Grid(p, t)
    ensures stores == Stores(p, t)(q)
  {
    var n0 := q.n * t.bn;
    MulMono(0, q.n, t.bn);
    assert Sized(p);
    hide Out, Fits, Sized;
    stores := map[];
    for j := 0 to t.bn
      invariant forall x :: x in stores <==> x.row == q.row && n0 <= x.n < n0 + j && x.n < p.N
      invariant forall x | x in stores :: stores[x] == Out(p, x.row, x.n)
    {
      if n0 + j < p.N {
        var v := Lane(p, t, q.n, q.row, n0 + j);
        stores := stores[Cell(q.row, n0 + j) := v];
      }
    }
    assert forall x :: x in stores <==> x in Cells(p) && Owns(t, q, x);
    assert stores == Stores(p, t)(q);
  }

  lemma Owner(p: Problem, t: Tiling, x: Cell) returns (q: Pid)
    requires Fits(p, t) && IsCell(p, x)
    ensures q in Grid(p, t) && Owns(t, q, x) && forall r | Owns(t, r, x) :: r == q
  {
    B.QuotientInside(x.n, p.N, t.bn);
    DivModSpec(x.n, t.bn);
    q := Pid(x.n / t.bn, x.row);
    forall r | Owns(t, r, x)
      ensures r == q
    {
      DivModUnique(x.n, t.bn, r.n, x.n - r.n * t.bn);
    }
  }

  lemma LaunchFits(p: Problem, t: Tiling, length: int)
    requires Fits(p, t) && length >= p.outRows * p.strideC
    ensures Disjoint(Grid(p, t), Stores(p, t), Addr(p)) && InBounds(Grid(p, t), Stores(p, t), Addr(p), length)
  {
    hide Out, Owns;
    forall q, r, x, y | q in Grid(p, t) && r in Grid(p, t) && x in Stores(p, t)(q) && y in Stores(p, t)(r) && Addr(p)(x) == Addr(p)(y)
      ensures q == r && x == y
    {
      RowMajorUnique(x.row, x.n, y.row, y.n, p.strideC);
      var owner := Owner(p, t, x);
    }
    forall q, x | q in Grid(p, t) && x in Stores(p, t)(q)
      ensures 0 <= Addr(p)(x) < length
    {
      RowMajorInside(x.row, x.n, p.outRows, p.strideC);
    }
  }

  /** The whole launch: every output element holds its routed rows' dequantized products, and the
      gaps between the output's rows keep what they held. */
  method MoeGemv(p: Problem, t: Tiling, c: array<real>)
    requires Fits(p, t) && c.Length >= p.outRows * p.strideC
    modifies c
    ensures forall o, n | 0 <= o < p.outRows && 0 <= n < p.N ::
              0 <= o * p.strideC + n < c.Length && c[o * p.strideC + n] == Out(p, o, n)
    ensures forall i | 0 <= i < c.Length && (p.N == 0 || i / p.strideC >= p.outRows || i % p.strideC >= p.N) :: c[i] == old(c[i])
  {
    LaunchFits(p, t, c.Length);
    assert Sized(p);
    forall o, n ensures Addr(p)(Cell(o, n)) == o * p.strideC + n {}
    hide Out, Addr, Fits, Sized, Disjoint, InBounds, Ran, Grid;
    ghost var was := c[..];
    var todo := Grid(p, t);
    NoneRan(Grid(p, t), Stores(p, t), Addr(p), was);
    while todo != {}
      invariant todo <= Grid(p, t) && Ran(Grid(p, t), todo, Stores(p, t), Addr(p), was, c[..])
      decreases todo
    {
      var q :| q in todo;
      var mine := Program(p, t, q);
      CommitOne(Grid(p, t), todo, Stores(p, t), q, mine, Addr(p), was, c);
      todo := todo - {q};
    }
    AllRan(Grid(p, t), Stores(p, t), Addr(p), was, c[..]);
    forall o, n | 0 <= o < p.outRows && 0 <= n < p.N
      ensures 0 <= o * p.strideC + n < c.Length && c[o * p.strideC + n] == Out(p, o, n)
    {
      var q := Owner(p, t, Cell(o, n));
      assert Cell(o, n) in Stores(p, t)(q);
      assert c[..][Addr(p)(Cell(o, n))] == Out(p, o, n);
    }
    forall i | 0 <= i < c.Length && (p.N == 0 || i / p.strideC >= p.outRows || i % p.strideC >= p.N)
      ensures c[i] == was[i]
    {
      GapUnstored(p, t, i);
    }
  }

  lemma GapUnstored(p: Problem, t: Tiling, a: int)
    requires Fits(p, t) && (p.N == 0 || a / p.strideC >= p.outRows || a % p.strideC >= p.N)
    ensures forall q, x | q in Grid(p, t) && x in Stores(p, t)(q) :: Addr(p)(x) != a
  {
    hide Out;
    forall q, x | q in Grid(p, t) && x in Stores(p, t)(q)
      ensures Addr(p)(x) != a
    {
      GapIsNoCell(x.row, x.n, p.outRows, p.N, p.strideC, a);
    }
  }

  // ----- the tiles the gate admits -----

  const POWERS: set<nat> := {1, 2, 4, 8, 16, 32, 64, 128}

  /** (BLOCK_N, BLOCK_K), from the measured table and the defaults. */
  function TileFor(n: nat, k: nat, routed: bool, rows: nat): (nat, nat) {
    if (n, k, routed) == (576, 5120, true) then (4, 512)
    else if (n, k, routed) == (576, 5120, false) && rows == 1 then (4, 4096)
    else if (n, k, routed) == (1792, 5120, false) && rows == 1 then (8, 2048)
    else if (n, k, routed) == (1024, 4096, false) && rows == 1 then (4, 4096)
    else if (n, k, routed) == (5120, 288, true) then (32, 512)
    else if (n, k, routed) == (5120, 288, false) && rows == 1 then (32, 512)
    else if (n, k, routed) == (25600, 6144, false) && rows == 1 then (32, 256)
    else if k >= 4096 && n <= 1024 then (4, 2048)
    else if k >= 4096 && n <= 2048 then (8, 1024)
    else if n >= 16384 then (16, 512)
    else (8, 512)
  }

  /** Whatever the tile, the group sizes the gate accepts make the launch sound. */
  lemma AdmittedFits(p: Problem, routed: bool, rows: nat)
    requires p.slots > 0 && p.perToken > 0 && p.strideC >= p.N && p.groupN in POWERS
    requires p.aGroupK in {16, 32, 64, 128} && p.bGroupK in {16, 32, 64, 128}
    ensures var (bn, bk) := TileFor(p.N, p.K, routed, rows);
            Fits(p, Tiling(Least(bn, p.groupN), bk, Least(p.aGroupK, p.bGroupK)))
  {
    var (bn, bk) := TileFor(p.N, p.K, routed, rows);
    assert bn in {4, 8, 16, 32} && bk in {256, 512, 1024, 2048, 4096};
    hide TileFor;
    assert p.groupN % Least(bn, p.groupN) == 0;
    var g := Least(p.aGroupK, p.bGroupK);
    assert p.aGroupK % g == 0 && p.bGroupK % g == 0;
    assert g in {16, 32, 64, 128} && bk % g == 0;
  }

  // ----- the same element as the block GEMM -----

  /** A dense row of `p` and the operands of `q` are the same, with one group size along K. */
  ghost predicate SameOperands(p: Problem, q: B.Problem) {
    && Sized(p) && p.K == q.K && p.groupN == q.groupN > 0 && p.aGroupK == p.bGroupK == q.groupK > 0
    && (forall m, k :: p.a(m, k) == q.a(m, k)) && (forall n, k :: p.b(0, n, k) == q.b(n, k))
    && (forall m, g :: p.aScale(m, g) == q.aScale(m, g)) && (forall n, g :: p.bScale(0, n, g) == q.bScale(n, g))
  }

  function Products(q: B.Problem, m: int, n: int): int -> real {
    k => q.a(m, k) * q.b(n, k)
  }

  /** One group's columns share their scales. */
  lemma {:induction false} GroupSum(p: Problem, q: B.Problem, m: int, n: int, g: nat, lo: nat, count: nat)
    requires SameOperands(p, q) && count <= q.groupK && lo == g * q.groupK
    ensures Sum(Terms(p, m, 0, n), lo, lo + count) ==
            Sum(Products(q, m, n), lo, lo + count) * q.aScale(m, g) * q.bScale(n / q.groupN, g)
  {
    if count > 0 {
      GroupSum(p, q, m, n, g, lo, count - 1);
      var k := lo + count - 1;
      DivModUnique(k, q.groupK, g, count - 1);
      Factor(Sum(Products(q, m, n), lo, k), q.a(m, k), q.b(n, k), q.aScale(m, g), q.bScale(n / q.groupN, g));
    }
  }

  lemma Factor(s: real, a: real, b: real, x: real, y: real)
    ensures s * x * y + (a * x) * (b * y) == (s + a * b) * x * y
  {
    assert (a * x) * (b * y) == (a * b) * x * y by {
      assert (a * x) * (b * y) == a * (x * (b * y));
      assert x * (b * y) == b * (x * y);
      assert a * (b * (x * y)) == (a * b) * (x * y);
      assert (a * b) * (x * y) == (a * b) * x * y;
    }
    assert s * x * y + (a * b) * x * y == (s * x + (a * b) * x) * y;
  }

  function GroupTerms(q: B.Problem, m: int, n: int): int -> real
    requires q.groupN > 0
  {
    g => B.GroupTerm(q, m, n, g)
  }

  lemma {:induction false} GroupsAddUp(p: Problem, q: B.Problem, m: int, n: int, groups: nat)
    requires SameOperands(p, q) && groups <= Cdiv(q.K, q.groupK)
    ensures Sum(Terms(p, m, 0, n), 0, Least(groups * q.groupK, q.K)) == Sum(GroupTerms(q, m, n), 0, groups)
  {
    assert Sized(p) && q.groupK > 0 && q.groupN > 0;
    hide Terms, SameOperands, Sized, B.GroupTerm;
    if groups > 0 {
      GroupsAddUp(p, q, m, n, groups - 1);
      LastGroup(q.K, q.groupK, groups);
      GroupSplit(p, q, m, n, groups - 1, (groups - 1) * q.groupK, Least(groups * q.groupK, q.K));
    }
  }

  lemma GroupSplit(p: Problem, q: B.Problem, m: int, n: int, g: nat, lo: nat, hi: nat)
    requires SameOperands(p, q) && lo == g * q.groupK && lo < hi && hi == Least(lo + q.groupK, q.K)
    ensures Sum(Terms(p, m, 0, n), 0, hi) == Sum(Terms(p, m, 0, n), 0, lo) + B.GroupTerm(q, m, n, g)
  {
    assert Sized(p) && q.groupK > 0 && q.groupN > 0;
    hide Terms, SameOperands, Sized, B.GroupTerm;
    SumSplit(Terms(p, m, 0, n), 0, lo, hi);
    GroupSum(p, q, m, n, g, lo, hi - lo);
    GroupTermIs(q, m, n, g, lo, hi);
  }

  lemma GroupTermIs(q: B.Problem, m: int, n: int, g: nat, lo: nat, hi: int)
    requires q.groupN > 0 && lo == g * q.groupK && hi == Least(lo + q.groupK, q.K)
    ensures B.GroupTerm(q, m, n, g) == Sum(Products(q, m, n), lo, hi) * q.aScale(m, g) * q.bScale(n / q.groupN, g)
  {
    SumSame(Products(q, m, n), k => q.a(m, k) * q.b(n, k), lo, hi);
  }

  lemma LastGroup(K: nat, groupK: nat, groups: nat)
    requires groupK > 0 && 0 < groups <= Cdiv(K, groupK)
    ensures (groups - 1) * groupK < Least(groups * groupK, K) <= (groups - 1) * groupK + groupK
    ensures Least((groups - 1) * groupK, K) == (groups - 1) * groupK >= 0
    ensures Least((groups - 1) * groupK + groupK, K) == Least(groups * groupK, K)
  {
    MulMono(groups - 1, Cdiv(K, groupK) - 1, groupK);
    assert (groups - 1) * groupK + groupK == groups * groupK;
  }

  /** The wide-tile GEMV and the block GEMM compute the same elements, however K is tiled. */
  lemma GemvIsGemm(p: Problem, q: B.Problem, m: int, n: int)
    requires SameOperands(p, q)
    ensures Dot(p, m, 0, n) == B.Element(q, m, n)
  {
    var all := Cdiv(q.K, q.groupK);
    GroupsAddUp(p, q, m, n, all);
    SumSame(GroupTerms(q, m, n), g => B.GroupTerm(q, m, n, g), 0, all);
  }
}
