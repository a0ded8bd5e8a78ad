/** The small-token FP8 MoE: four launches that read each routed expert's weights once. Every
    operation on values is uninterpreted, so equalities are bit for bit. */
module MoeMma {
  import opened Arithmetic
  import opened Launch
  import opened RouteMap

  type F(0, !new)

  const SPLIT := 8
  const BLOCK_N := 64
  const SUM_BLOCK := 1024

  /** The batch and what the kernels compute with. `term1(tok, e, n, kk)` is the scaled dot of
      the token's 32-wide group at column `kk` with column `n` of expert `e`; `term2` the same
      for a quantized activation group; `code` and `scale` quantize the clamped SwiGLU. */
  datatype Problem = Problem(
    ro: Routing, tokens: nat, topK: nat, hidden: nat, inter: nat, strideOut: nat, weight: int -> F,
    term1: (int, int, int, int) -> F,
    code: (seq<F>, seq<F>, int) -> F, scale: (seq<F>, seq<F>) -> F,
    term2: (seq<F>, F, int, int, int) -> F,
    zero: F, add: (F, F) -> F, mul: (F, F) -> F)

  function R(p: Problem): nat {
    p.tokens * p.topK
  }

  function N1(p: Problem): nat {
    2 * p.inter
  }

  /** The shapes the path admits. */
  predicate Supported(p: Problem) {
    && 0 < R(p) <= MAX_R && p.tokens <= 16 && |p.ro.ids| == R(p) && p.topK > 0
    && p.inter % 32 == 0 && N1(p) % BLOCK_N == 0 && p.hidden % (SPLIT * 32) == 0 && p.hidden % BLOCK_N == 0
    && p.strideOut >= p.hidden
  }

  function Get(buf: seq<F>, i: int, zero: F): F {
    if 0 <= i < |buf| then buf[i] else zero
  }

  // ----- the meaning of a routed row -----

  function KPer(p: Problem): nat {
    p.hidden / SPLIT
  }

  /** `count` groups from column `start`, left to right. */
  function Sum1(p: Problem, tok: int, e: int, n: int, start: int, count: nat): F {
    if count == 0 then p.zero
    else p.add(Sum1(p, tok, e, n, start, count - 1), p.term1(tok, e, n, start + 32 * (count - 1)))
  }

  /** The gate/up projection of row `r` on K slice `k`. */
  function Part1(p: Problem, r: int, e: int, n: int, k: int): F
    requires p.topK > 0
  {
    Sum1(p, r / p.topK, e, n, k * KPer(p), KPer(p) / 32)
  }

  /** The projection, its K slices added in order. */
  function Project1(p: Problem, r: int, e: int, n: int, slices: nat): F
    requires p.topK > 0
  {
    if slices == 0 then p.zero else p.add(Project1(p, r, e, n, slices - 1), Part1(p, r, e, n, slices - 1))
  }

  /** Column `j` of the 32-wide chunk `c`. */
  function Col(c: int, j: int): int {
    c * 32 + j
  }

  function Gates(p: Problem, r: int, e: int, c: int): seq<F>
    requires p.topK > 0
  {
    seq(32, (j: int) => Project1(p, r, e, Col(c, j), SPLIT))
  }

  function Ups(p: Problem, r: int, e: int, c: int): seq<F>
    requires p.topK > 0
  {
    seq(32, (j: int) => Project1(p, r, e, p.inter + Col(c, j), SPLIT))
  }

  function Codes(p: Problem, r: int, e: int, c: int): seq<F>
    requires p.topK > 0
  {
    seq(32, (j: int) => p.code(Gates(p, r, e, c), Ups(p, r, e, c), j))
  }

  function Project2(p: Problem, r: int, e: int, n: int, groups: nat): F
    requires p.topK > 0
  {
    if groups == 0 then p.zero
    else p.add(Project2(p, r, e, n, groups - 1),
               p.term2(Codes(p, r, e, groups - 1), p.scale(Gates(p, r, e, groups - 1), Ups(p, r, e, groups - 1)),
                       e, n, groups - 1))
  }

  /** The definition a routed row must meet: both projections by its expert, times its weight. */
  function RowOut(p: Problem, r: int, e: int, n: int): F
    requires p.topK > 0
  {
    p.mul(Project2(p, r, e, n, p.inter / 32), p.weight(r))
  }

  /** A token's output: its routed rows in slot order, rows of no expert counting zero. */
  function TokenOut(p: Problem, t: int, n: int, slots: nat): F
    requires p.topK > 0
  {
    if slots == 0 then p.zero
    else
      var r := t * p.topK + (slots - 1);
      p.add(TokenOut(p, t, n, slots - 1), if Valid(p.ro, r) then RowOut(p, r, p.ro.ids[r], n) else p.zero)
  }

  // ----- tiles -----

  lemma Tile(x: int, limit: nat, block: nat) returns (tile: int)
    requires block > 0 && 0 <= x < limit && limit % block == 0
    ensures 0 <= tile < limit / block && tile * block <= x < tile * block + block
    ensures forall t | t * block <= x < t * block + block :: t == tile
  {
    tile := x / block;
    DivModSpec(x, block);
    DivModSpec(limit, block);
    if tile < 0 { MulMono(tile, -1, block); }
    if tile >= limit / block { MulMono(limit / block, tile, block); }
    forall t | t * block <= x < t * block + block
      ensures t == tile
    {
      DivModUnique(x, block, t, x - t * block);
    }
  }

  predicate InTile(tile: int, block: int, x: int) {
    tile * block <= x < tile * block + block
  }

  predicate HasLane(m: seq<int>, u: int, row: int) {
    exists i | 0 <= i < BLOCK_M :: RowValid(m, u, i) && RowAt(m, u, i) == row
  }

  /** Only the program of a packed row's expert holds the row. */
  lemma LaneOwner(p: Problem, m: seq<int>, u: nat, row: int)
    requires Supported(p) && HoldsMap(p.ro, m) && HasLane(m, u, row)
    ensures Packs(p.ro, row) && u == Owner(p.ro, row) && ExpertAt(m, u) == p.ro.ids[row] && 0 <= row < R(p)
  {
    var i :| 0 <= i < BLOCK_M && RowValid(m, u, i) && RowAt(m, u, i) == row;
    var r := LaneHolds(p.ro, m, u, i);
  }

  lemma PackedHasLane(p: Problem, m: seq<int>, row: nat) returns (u: nat)
    requires Supported(p) && HoldsMap(p.ro, m) && Packs(p.ro, row)
    ensures u < R(p) && u < At(m, MAX_R * WIDTH) && HasLane(m, u, row) && ExpertAt(m, u) == p.ro.ids[row]
  {
    RowFound(p.ro, m, row);
    u := Owner(p.ro, row);
    var f := OwnerIs(p.ro, row);
    FirstsMono(p.ro, f + 1, f + 1);
    FirstsBound(p.ro, f + 1);
  }

  // ----- the gate/up launch -----

  datatype Pid1 = Pid1(u: int, n: int, k: int)
  datatype Cell1 = Cell1(k: int, row: int, n: int)

  predicate IsPid1(p: Problem, q: Pid1) {
    0 <= q.u < R(p) && 0 <= q.n < N1(p) / BLOCK_N && 0 <= q.k < SPLIT
  }

  function Grid1(p: Problem): set<Pid1> {
    set u, n, k | 0 <= u < R(p) && 0 <= n < N1(p) / BLOCK_N && 0 <= k < SPLIT && IsPid1(p, Pid1(u, n, k)) :: Pid1(u, n, k)
  }

  predicate IsCell1(p: Problem, x: Cell1) {
    0 <= x.k < SPLIT && 0 <= x.row < R(p) && 0 <= x.n < N1(p)
  }

  function Cells1(p: Problem): set<Cell1> {
    set k, row, n | 0 <= k < SPLIT && 0 <= row < R(p) && 0 <= n < N1(p) && IsCell1(p, Cell1(k, row, n)) :: Cell1(k, row, n)
  }

  predicate Stores1(m: seq<int>, q: Pid1, x: Cell1) {
    q.u < At(m, MAX_R * WIDTH) && q.k == x.k && InTile(q.n, BLOCK_N, x.n) && HasLane(m, q.u, x.row)
  }

  function Writes1(p: Problem, m: seq<int>): Pid1 -> map<Cell1, F>
    requires p.topK > 0
  {
    q => map x | x in Cells1(p) && Stores1(m, q, x) :: Part1(p, x.row, ExpertAt(m, q.u), x.n, x.k)
  }

  function Addr1(p: Problem): Cell1 -> int {
    (x: Cell1) => (x.k * R(p) + x.row) * N1(p) + x.n
  }

  /** One lane of the first kernel. */
  method Lane1(p: Problem, tok: int, e: int, n: int, k: nat) returns (acc: F)
    requires Supported(p)
    ensures acc == Sum1(p, tok, e, n, k * KPer(p), KPer(p) / 32)
  {
    acc := p.zero;
    var kStart := k * KPer(p);
    var kk := kStart;
    ghost var done := 0;
    while kk < kStart + KPer(p)
      invariant kk == kStart + 32 * done && 0 <= done <= KPer(p) / 32
      invariant acc == Sum1(p, tok, e, n, kStart, done)
      decreases kStart + KPer(p) - kk
    {
      acc := p.add(acc, p.term1(tok, e, n, kk));
      kk, done := kk + 32, done + 1;
    }
  }

  predicate HasLaneBelow(m: seq<int>, u: int, row: int, lanes: int) {
    exists i | 0 <= i < lanes :: RowValid(m, u, i) && RowAt(m, u, i) == row
  }

  lemma OneMoreLane(m: seq<int>, u: int, row: int, i: nat)
    ensures HasLaneBelow(m, u, row, i + 1) <==> HasLaneBelow(m, u, row, i) || (RowValid(m, u, i) && RowAt(m, u, i) == row)
    ensures HasLaneBelow(m, u, row, BLOCK_M) <==> HasLane(m, u, row)
  {
  }

  /** One row of a program's tile. */
  method TileRow1(p: Problem, row: nat, e: int, n0: nat, k: nat) returns (stores: map<Cell1, F>)
    requires Supported(p)
    ensures forall x :: x in stores <==> x.k == k && x.row == row && n0 <= x.n < n0 + BLOCK_N
    ensures forall x | x in stores :: stores[x] == Part1(p, x.row, e, x.n, x.k)
  {
    TopKPositive(p);
    hide Supported, Sum1;
    stores := map[];
    for j := 0 to BLOCK_N
      invariant forall x :: x in stores <==> x.k == k && x.row == row && n0 <= x.n < n0 + j
      invariant forall x | x in stores :: stores[x] == Part1(p, x.row, e, x.n, x.k)
    {
      var acc := Lane1(p, row / p.topK, e, n0 + j, k);
      stores := stores[Cell1(k, row, n0 + j) := acc];
    }
  }

  lemma TileInside(p: Problem, tile: int, x: int, limit: nat)
    requires limit % BLOCK_N == 0 && 0 <= tile < limit / BLOCK_N && InTile(tile, BLOCK_N, x)
    ensures 0 <= x < limit
  {
  }

  lemma Writes1Are(p: Problem, m: seq<int>, q: Pid1, x: Cell1)
    requires Supported(p) && HoldsMap(p.ro, m) && IsPid1(p, q)
    ensures x in Writes1(p, m)(q) <==> Stores1(m, q, x)
  {
    hide HoldsMap, HasLane, Part1;
    if Stores1(m, q, x) {
      LaneOwner(p, m, q.u, x.row);
      TileInside(p, q.n, x.n, N1(p));
      assert IsCell1(p, Cell1(x.k, x.row, x.n));
    }
  }

  /** One program of the first kernel: the rows of its expert, if it has one. */
  method Program1(p: Problem, m: seq<int>, q: Pid1) returns (stores: map<Cell1, F>)
    requires Supported(p) && HoldsMap(p.ro, m) && IsPid1(p, q)
    ensures stores == Writes1(p, m)(q)
  {
    TopKPositive(p);
    MulMono(0, q.n, BLOCK_N);
    var n0 := q.n * BLOCK_N;
    forall x ensures x in Writes1(p, m)(q) <==> Stores1(m, q, x) { Writes1Are(p, m, q, x); }
    hide Supported, HoldsMap, Part1, HasLaneBelow, HasLane, RowValid, RowAt, ExpertAt;
    stores := map[];
    if q.u < At(m, MAX_R * WIDTH) {
      NoLanes(m, q.u);
      for i := 0 to BLOCK_M
        invariant forall x :: x in stores <==> x.k == q.k && HasLaneBelow(m, q.u, x.row, i) && n0 <= x.n < n0 + BLOCK_N
        invariant forall x | x in stores :: stores[x] == Part1(p, x.row, ExpertAt(m, q.u), x.n, x.k)
      {
        forall row ensures HasLaneBelow(m, q.u, row, i + 1) <==>
                           HasLaneBelow(m, q.u, row, i) || (RowValid(m, q.u, i) && RowAt(m, q.u, i) == row) {
          OneMoreLane(m, q.u, row, i);
        }
        if RowValid(m, q.u, i) {
          LaneRow(p, m, q.u, i);
          var row := TileRow1(p, RowAt(m, q.u, i), ExpertAt(m, q.u), n0, q.k);
          stores := stores + row;
        }
      }
      forall row ensures HasLaneBelow(m, q.u, row, BLOCK_M) <==> HasLane(m, q.u, row) { OneMoreLane(m, q.u, row, 0); }
    }
    assert forall x :: x in stores <==> x in Writes1(p, m)(q);
    assert stores == Writes1(p, m)(q);
  }

  lemma NoLanes(m: seq<int>, u: int)
    ensures forall row :: !HasLaneBelow(m, u, row, 0)
  {
  }

  lemma LaneRow(p: Problem, m: seq<int>, u: nat, i: nat)
    requires Supported(p) && HoldsMap(p.ro, m) && i < BLOCK_M && RowValid(m, u, i)
    ensures 0 <= RowAt(m, u, i) < R(p)
  {
    assert HasLane(m, u, RowAt(m, u, i));
    hide HoldsMap, RowAt, RowValid;
    LaneOwner(p, m, u, RowAt(m, u, i));
  }

  lemma Owner1(p: Problem, m: seq<int>, x: Cell1) returns (q: Pid1)
    requires Supported(p) && HoldsMap(p.ro, m) && IsCell1(p, x) && Packs(p.ro, x.row)
    ensures q in Grid1(p) && x in Writes1(p, m)(q)
    ensures Writes1(p, m)(q)[x] == Part1(p, x.row, p.ro.ids[x.row], x.n, x.k)
  {
    var u := PackedHasLane(p, m, x.row);
    var n := Tile(x.n, N1(p), BLOCK_N);
    q := Pid1(u, n, x.k);
    assert IsPid1(p, q) && Stores1(m, q, x) && IsCell1(p, Cell1(x.k, x.row, x.n));
  }

  lemma SameOwner1(p: Problem, m: seq<int>, q: Pid1, r: Pid1, x: Cell1)
    requires Supported(p) && HoldsMap(p.ro, m) && q in Grid1(p) && r in Grid1(p)
    requires IsCell1(p, x) && Stores1(m, q, x) && Stores1(m, r, x)
    ensures q == r
  {
    LaneOwner(p, m, q.u, x.row);
    LaneOwner(p, m, r.u, x.row);
    var n := Tile(x.n, N1(p), BLOCK_N);
  }

  lemma Addr1Unique(p: Problem, x: Cell1, y: Cell1)
    requires IsCell1(p, x) && IsCell1(p, y) && Addr1(p)(x) == Addr1(p)(y)
    ensures x == y
  {
    RowMajorUnique(x.k * R(p) + x.row, x.n, y.k * R(p) + y.row, y.n, N1(p));
    RowMajorUnique(x.k, x.row, y.k, y.row, R(p));
  }

  lemma Fits1(p: Problem, m: seq<int>, length: int)
    requires Supported(p) && HoldsMap(p.ro, m) && length >= SPLIT * R(p) * N1(p)
    ensures Disjoint(Grid1(p), Writes1(p, m), Addr1(p)) && InBounds(Grid1(p), Writes1(p, m), Addr1(p), length)
  {
    hide Supported, HoldsMap, Stores1, R, N1, Part1;
    TopKPositive(p);
    var (stores, addr) := (Writes1(p, m), Addr1(p));
    forall q, r, x, y | q in Grid1(p) && r in Grid1(p) && x in stores(q) && y in stores(r) && addr(x) == addr(y)
      ensures q == r && x == y
    {
      Addr1Unique(p, x, y);
      SameOwner1(p, m, q, r, x);
    }
    forall q, x | q in Grid1(p) && x in stores(q)
      ensures 0 <= addr(x) < length
    {
      Addr1Inside(p, x);
    }
  }

  lemma Addr1Inside(p: Problem, x: Cell1)
    requires IsCell1(p, x)
    ensures 0 <= Addr1(p)(x) < SPLIT * R(p) * N1(p)
  {
    RowMajorInside(x.k, x.row, SPLIT, R(p));
    RowMajorInside(x.k * R(p) + x.row, x.n, SPLIT * R(p), N1(p));
  }

  /** Every partial of a packed row. */
  ghost predicate Holds1(p: Problem, buf: seq<F>)
    requires p.topK > 0
  {
    forall x | IsCell1(p, x) && Packs(p.ro, x.row) ::
      var i := (x.k * R(p) + x.row) * N1(p) + x.n;
      0 <= i < |buf| && buf[i] == Part1(p, x.row, p.ro.ids[x.row], x.n, x.k)
  }

  method Launch1(p: Problem, m: seq<int>, part1: array<F>)
    requires Supported(p) && HoldsMap(p.ro, m) && part1.Length >= SPLIT * R(p) * N1(p)
    modifies part1
    ensures Holds1(p, part1[..])
  {
    hide Supported, HoldsMap, Disjoint, InBounds, Writes1, Part1, Ran;
    TopKPositive(p);
    Fits1(p, m, part1.Length);
    ghost var was := part1[..];
    var todo := Grid1(p);
    NoneRan(Grid1(p), Writes1(p, m), Addr1(p), was);
    while todo != {}
      invariant todo <= Grid1(p) && Ran(Grid1(p), todo, Writes1(p, m), Addr1(p), was, part1[..])
      decreases todo
    {
      var q :| q in todo;
      var mine := Program1(p, m, q);
      CommitOne(Grid1(p), todo, Writes1(p, m), q, mine, Addr1(p), was, part1);
      todo := todo - {q};
    }
    AllRan(Grid1(p), Writes1(p, m), Addr1(p), was, part1[..]);
    forall x | IsCell1(p, x) && Packs(p.ro, x.row)
      ensures 0 <= Addr1(p)(x) < part1.Length
      ensures part1[Addr1(p)(x)] == Part1(p, x.row, p.ro.ids[x.row], x.n, x.k)
    {
      var q := Owner1(p, m, x);
    }
  }

  lemma TopKPositive(p: Problem)
    requires Supported(p)
    ensures p.topK > 0 && R(p) > 0
  {
  }

  // ----- the SwiGLU and quantization launch -----

  datatype Pid2 = Pid2(row: int, c: int)
  datatype Cell2 = Cell2(row: int, off: int)

  predicate IsPid2(p: Problem, q: Pid2) {
    0 <= q.row < R(p) && 0 <= q.c < p.inter / 32
  }

  function Grid2(p: Problem): set<Pid2> {
    set row, c | 0 <= row < R(p) && 0 <= c < p.inter / 32 && IsPid2(p, Pid2(row, c)) :: Pid2(row, c)
  }

  predicate IsCell2(p: Problem, x: Cell2) {
    0 <= x.row < R(p) && 0 <= x.off < p.inter
  }

  function Cells2(p: Problem): set<Cell2> {
    set row, off | 0 <= row < R(p) && 0 <= off < p.inter && IsCell2(p, Cell2(row, off)) :: Cell2(row, off)
  }

  /** The partials of one column, added in slice order. */
  function Slices(p: Problem, part1: seq<F>, row: int, col: int, count: nat): F {
    if count == 0 then p.zero
    else p.add(Slices(p, part1, row, col, count - 1), Get(part1, Addr1(p)(Cell1(count - 1, row, col)), p.zero))
  }

  function ReadGates(p: Problem, part1: seq<F>, row: int, c: int): seq<F> {
    seq(32, (j: int) => Slices(p, part1, row, Col(c, j), SPLIT))
  }

  function ReadUps(p: Problem, part1: seq<F>, row: int, c: int): seq<F> {
    seq(32, (j: int) => Slices(p, part1, row, p.inter + Col(c, j), SPLIT))
  }

  function CodeWrites(p: Problem, part1: seq<F>): Pid2 -> map<Cell2, F> {
    (q: Pid2) => map x | x in Cells2(p) && x.row == q.row && InTile(q.c, 32, x.off) ::
           p.code(ReadGates(p, part1, q.row, q.c), ReadUps(p, part1, q.row, q.c), x.off - q.c * 32)
  }

  function CodeAddr(p: Problem): Cell2 -> int {
    (x: Cell2) => x.row * p.inter + x.off
  }

  function ScaleWrites(p: Problem, part1: seq<F>): Pid2 -> map<Pid2, F> {
    (q: Pid2) => map[q := p.scale(ReadGates(p, part1, q.row, q.c), ReadUps(p, part1, q.row, q.c))]
  }

  function ScaleAddr(p: Problem): Pid2 -> int {
    (q: Pid2) => q.row * (p.inter / 32) + q.c
  }

  /** One lane's sum over the slices. */
  method SliceLane(p: Problem, part1: array<F>, row: int, col: int) returns (acc: F)
    requires Supported(p) && 0 <= row < R(p) && 0 <= col < N1(p) && part1.Length >= SPLIT * R(p) * N1(p)
    ensures acc == Slices(p, part1[..], row, col, SPLIT)
  {
    acc := p.zero;
    for s := 0 to SPLIT
      invariant acc == Slices(p, part1[..], row, col, s)
    {
      Addr1Inside(p, Cell1(s, row, col));
      acc := p.add(acc, part1[Addr1(p)(Cell1(s, row, col))]);
    }
  }

  /** The sums of 32 columns from `first`. */
  method ChunkLanes(p: Problem, part1: array<F>, row: nat, first: nat) returns (lanes: seq<F>)
    requires Supported(p) && row < R(p) && first + 32 <= N1(p) && part1.Length >= SPLIT * R(p) * N1(p)
    ensures |lanes| == 32 && forall j | 0 <= j < 32 :: lanes[j] == Slices(p, part1[..], row, first + j, SPLIT)
  {
    hide Supported, Slices, R, N1;
    lanes := [];
    for j := 0 to 32
      invariant |lanes| == j && forall i | 0 <= i < j :: lanes[i] == Slices(p, part1[..], row, first + i, SPLIT)
    {
      var acc := SliceLane(p, part1, row, first + j);
      lanes := lanes + [acc];
    }
  }

  /** The 32 codes of a group. */
  method GroupCodes(p: Problem, q: Pid2, gate: seq<F>, up: seq<F>) returns (codes: map<Cell2, F>)
    ensures forall x :: x in codes <==> x.row == q.row && InTile(q.c, 32, x.off)
    ensures forall x | x in codes :: codes[x] == p.code(gate, up, x.off - q.c * 32)
  {
    codes := map[];
    var first := q.c * 32;
    for j := 0 to 32
      invariant forall x :: x in codes <==> x.row == q.row && first <= x.off < first + j
      invariant forall x | x in codes :: codes[x] == p.code(gate, up, x.off - first)
    {
      codes := codes[Cell2(q.row, first + j) := p.code(gate, up, j)];
    }
  }

  /** The gate and up sums of a chunk. */
  method ChunkSums(p: Problem, part1: array<F>, q: Pid2) returns (gate: seq<F>, up: seq<F>)
    requires Supported(p) && IsPid2(p, q) && part1.Length >= SPLIT * R(p) * N1(p)
    ensures gate == ReadGates(p, part1[..], q.row, q.c) && up == ReadUps(p, part1[..], q.row, q.c)
  {
    ChunkRange(p, q.c, 0);
    ChunkRange(p, q.c, 31);
    hide Slices, Supported, R;
    gate := ChunkLanes(p, part1, q.row, q.c * 32);
    up := ChunkLanes(p, part1, q.row, p.inter + q.c * 32);
  }

  /** One program of the second kernel: the codes of its group, and their scale. */
  method Program2(p: Problem, part1: array<F>, q: Pid2) returns (codes: map<Cell2, F>, scales: map<Pid2, F>)
    requires Supported(p) && IsPid2(p, q) && part1.Length >= SPLIT * R(p) * N1(p)
    ensures codes == CodeWrites(p, part1[..])(q) && scales == ScaleWrites(p, part1[..])(q)
  {
    ghost var parts := part1[..];
    var gate, up := ChunkSums(p, part1, q);
    codes := GroupCodes(p, q, gate, up);
    scales := map[q := p.scale(gate, up)];
    hide ReadGates, ReadUps, Supported, R, N1;
    forall x ensures x in codes <==> x in CodeWrites(p, parts)(q) { Codes2Are(p, parts, q, x); }
    assert codes == CodeWrites(p, parts)(q);
  }

  lemma Codes2Are(p: Problem, part1: seq<F>, q: Pid2, x: Cell2)
    requires Supported(p) && IsPid2(p, q)
    ensures x in CodeWrites(p, part1)(q) <==> x.row == q.row && InTile(q.c, 32, x.off)
  {
    hide ReadGates, ReadUps;
    if x.row == q.row && InTile(q.c, 32, x.off) {
      ChunkRange(p, q.c, x.off - q.c * 32);
      assert IsCell2(p, Cell2(x.row, x.off));
    }
  }

  lemma {:induction false} SlicesAre(p: Problem, part1: seq<F>, row: int, col: int, count: nat)
    requires Supported(p) && Holds1(p, part1) && Packs(p.ro, row) && 0 <= col < N1(p) && count <= SPLIT
    ensures Slices(p, part1, row, col, count) == Project1(p, row, p.ro.ids[row], col, count)
  {
    hide Packs, Part1;
    if count > 0 {
      SlicesAre(p, part1, row, col, count - 1);
      PackedRow(p, row);
      var x := Cell1(count - 1, row, col);
      assert IsCell1(p, x);
    }
  }

  lemma PackedRow(p: Problem, row: int)
    requires Supported(p) && Packs(p.ro, row)
    ensures 0 <= row < R(p) && Valid(p.ro, row)
  {
  }

  lemma ChunkRange(p: Problem, c: int, j: int)
    requires Supported(p) && 0 <= c < p.inter / 32 && 0 <= j < 32
    ensures 0 <= Col(c, j) < p.inter
  {
  }

  /** A packed row's gate and up are the ones its expert computes. */
  lemma GatesAre(p: Problem, part1: seq<F>, row: int, c: int)
    requires Supported(p) && Holds1(p, part1) && Packs(p.ro, row) && 0 <= c < p.inter / 32
    ensures ReadGates(p, part1, row, c) == Gates(p, row, p.ro.ids[row], c)
    ensures ReadUps(p, part1, row, c) == Ups(p, row, p.ro.ids[row], c)
  {
    PackedRow(p, row);
    TopKPositive(p);
    hide Supported, Holds1, Packs, Slices, Project1, Col;
    var e := p.ro.ids[row];
    forall j | 0 <= j < 32
      ensures Slices(p, part1, row, Col(c, j), SPLIT) == Project1(p, row, e, Col(c, j), SPLIT)
      ensures Slices(p, part1, row, p.inter + Col(c, j), SPLIT) == Project1(p, row, e, p.inter + Col(c, j), SPLIT)
    {
      LaneGates(p, part1, row, c, j);
    }
    assert ReadGates(p, part1, row, c) == Gates(p, row, e, c);
    assert ReadUps(p, part1, row, c) == Ups(p, row, e, c);
  }

  lemma LaneGates(p: Problem, part1: seq<F>, row: int, c: int, j: int)
    requires Supported(p) && Holds1(p, part1) && Packs(p.ro, row) && 0 <= c < p.inter / 32 && 0 <= j < 32
    ensures p.topK > 0 && 0 <= row < |p.ro.ids|
    ensures Slices(p, part1, row, Col(c, j), SPLIT) == Project1(p, row, p.ro.ids[row], Col(c, j), SPLIT)
    ensures Slices(p, part1, row, p.inter + Col(c, j), SPLIT) == Project1(p, row, p.ro.ids[row], p.inter + Col(c, j), SPLIT)
  {
    PackedRow(p, row);
    TopKPositive(p);
    ChunkRange(p, c, j);
    hide Supported, Holds1, Packs, Slices, Project1, Col, R;
    SlicesAre(p, part1, row, Col(c, j), SPLIT);
    SlicesAre(p, part1, row, p.inter + Col(c, j), SPLIT);
  }

  lemma Fits2(p: Problem, part1: seq<F>, length: int)
    requires Supported(p) && length >= R(p) * p.inter
    ensures Disjoint(Grid2(p), CodeWrites(p, part1), CodeAddr(p)) && InBounds(Grid2(p), CodeWrites(p, part1), CodeAddr(p), length)
  {
    hide ReadGates, ReadUps, R;
    var (stores, addr) := (CodeWrites(p, part1), CodeAddr(p));
    forall q, r, x, y | q in Grid2(p) && r in Grid2(p) && x in stores(q) && y in stores(r) && addr(x) == addr(y)
      ensures q == r && x == y
    {
      RowMajorUnique(x.row, x.off, y.row, y.off, p.inter);
      var c := Tile(x.off, p.inter, 32);
    }
    forall q, x | q in Grid2(p) && x in stores(q)
      ensures 0 <= addr(x) < length
    {
      RowMajorInside(x.row, x.off, R(p), p.inter);
    }
  }

  lemma FitsScale(p: Problem, part1: seq<F>, length: int)
    requires Supported(p) && length >= R(p) * (p.inter / 32)
    ensures Disjoint(Grid2(p), ScaleWrites(p, part1), ScaleAddr(p))
    ensures InBounds(Grid2(p), ScaleWrites(p, part1), ScaleAddr(p), length)
  {
    hide ReadGates, ReadUps, R;
    var (stores, addr) := (ScaleWrites(p, part1), ScaleAddr(p));
    forall q, r, x, y | q in Grid2(p) && r in Grid2(p) && x in stores(q) && y in stores(r) && addr(x) == addr(y)
      ensures q == r && x == y
    {
      RowMajorUnique(x.row, x.c, y.row, y.c, p.inter / 32);
    }
    forall q, x | q in Grid2(p) && x in stores(q)
      ensures 0 <= addr(x) < length
    {
      RowMajorInside(x.row, x.c, R(p), p.inter / 32);
    }
  }

  ghost predicate Holds2(p: Problem, codes: seq<F>, scales: seq<F>)
    requires p.topK > 0
  {
    forall row, c | Packs(p.ro, row) && 0 <= c < p.inter / 32 :: GroupHeld(p, codes, scales, row, c)
  }

  /** The 32 codes and the scale of one group of a packed row. */
  ghost predicate GroupHeld(p: Problem, codes: seq<F>, scales: seq<F>, row: int, c: int)
    requires p.topK > 0 && Packs(p.ro, row)
  {
    && (forall j | 0 <= j < 32 :: Get(codes, row * p.inter + (c * 32 + j), p.zero) == Codes(p, row, p.ro.ids[row], c)[j])
    && Get(scales, row * (p.inter / 32) + c, p.zero) == p.scale(Gates(p, row, p.ro.ids[row], c), Ups(p, row, p.ro.ids[row], c))
  }

  function ReadCodes(p: Problem, codes: seq<F>, row: int, c: int): seq<F> {
    seq(32, (j: int) => Get(codes, CodeAddr(p)(Cell2(row, Col(c, j))), p.zero))
  }

  lemma InGrid2(p: Problem, part1: seq<F>, row: int, c: int, j: int)
    requires Supported(p) && Packs(p.ro, row) && 0 <= c < p.inter / 32 && 0 <= j < 32
    ensures Pid2(row, c) in Grid2(p) && Cell2(row, Col(c, j)) in CodeWrites(p, part1)(Pid2(row, c))
  {
    hide ReadGates, ReadUps;
    assert IsPid2(p, Pid2(row, c));
    ChunkRange(p, c, j);
    assert IsCell2(p, Cell2(row, Col(c, j))) && InTile(c, 32, Col(c, j));
  }

  method Launch2(p: Problem, part1: array<F>, codes: array<F>, scales: array<F>)
    requires Supported(p) && Holds1(p, part1[..]) && codes != scales && part1 != codes && part1 != scales
    requires part1.Length >= SPLIT * R(p) * N1(p)
    requires codes.Length >= R(p) * p.inter && scales.Length >= R(p) * (p.inter / 32)
    modifies codes, scales
    ensures Holds2(p, codes[..], scales[..])
  {
    hide Supported, Holds1, Disjoint, InBounds, ReadGates, ReadUps, Codes, Gates, Ups, R, N1, Ran, CodeWrites, ScaleWrites;
    TopKPositive(p);
    ghost var (read, codesWere, scalesWere) := (part1[..], codes[..], scales[..]);
    Fits2(p, read, codes.Length);
    FitsScale(p, read, scales.Length);
    NoneRan(Grid2(p), CodeWrites(p, read), CodeAddr(p), codesWere);
    NoneRan(Grid2(p), ScaleWrites(p, read), ScaleAddr(p), scalesWere);
    var todo := Grid2(p);
    while todo != {}
      invariant todo <= Grid2(p) && part1[..] == read
      invariant Ran(Grid2(p), todo, CodeWrites(p, read), CodeAddr(p), codesWere, codes[..])
      invariant Ran(Grid2(p), todo, ScaleWrites(p, read), ScaleAddr(p), scalesWere, scales[..])
      decreases todo
    {
      var q :| q in todo;
      var group, scale := Program2(p, part1, q);
      CommitOne(Grid2(p), todo, CodeWrites(p, read), q, group, CodeAddr(p), codesWere, codes);
      CommitOne(Grid2(p), todo, ScaleWrites(p, read), q, scale, ScaleAddr(p), scalesWere, scales);
      todo := todo - {q};
    }
    AllRan(Grid2(p), CodeWrites(p, read), CodeAddr(p), codesWere, codes[..]);
    AllRan(Grid2(p), ScaleWrites(p, read), ScaleAddr(p), scalesWere, scales[..]);
    forall row, c | Packs(p.ro, row) && 0 <= c < p.inter / 32
      ensures GroupHeld(p, codes[..], scales[..], row, c)
    {
      InGrid2(p, read, row, c, 0);
      GatesAre(p, read, row, c);
      OneScale(p, read, Pid2(row, c));
      GroupFrom(p, read, codes[..], scales[..], row, c);
    }
  }

  lemma OneScale(p: Problem, part1: seq<F>, q: Pid2)
    ensures q in ScaleWrites(p, part1)(q)
  {
  }

  lemma GroupFrom(p: Problem, part1: seq<F>, codes: seq<F>, scales: seq<F>, row: int, c: int)
    requires Supported(p) && Packs(p.ro, row) && 0 <= c < p.inter / 32
    requires ReadGates(p, part1, row, c) == Gates(p, row, p.ro.ids[row], c)
    requires ReadUps(p, part1, row, c) == Ups(p, row, p.ro.ids[row], c)
    requires forall x | x in CodeWrites(p, part1)(Pid2(row, c)) ::
               0 <= CodeAddr(p)(x) < |codes| && codes[CodeAddr(p)(x)] == CodeWrites(p, part1)(Pid2(row, c))[x]
    requires var q := Pid2(row, c);
             0 <= ScaleAddr(p)(q) < |scales| && scales[ScaleAddr(p)(q)] == ScaleWrites(p, part1)(q)[q]
    ensures GroupHeld(p, codes, scales, row, c)
  {
    hide Supported, ReadGates, ReadUps, Gates, Ups, Grid2;
    TopKPositive(p);
    var q := Pid2(row, c);
    forall j | 0 <= j < 32
      ensures Get(codes, CodeAddr(p)(Cell2(row, Col(c, j))), p.zero) ==
              p.code(Gates(p, row, p.ro.ids[row], c), Ups(p, row, p.ro.ids[row], c), j)
    {
      InGrid2(p, part1, row, c, j);
    }
  }

  // ----- the down launch -----

  datatype Pid3 = Pid3(u: int, n: int)
  datatype Cell3 = Cell3(row: int, n: int)

  predicate IsPid3(p: Problem, q: Pid3) {
    0 <= q.u < R(p) && 0 <= q.n < p.hidden / BLOCK_N
  }

  function Grid3(p: Problem): set<Pid3> {
    set u, n | 0 <= u < R(p) && 0 <= n < p.hidden / BLOCK_N && IsPid3(p, Pid3(u, n)) :: Pid3(u, n)
  }

  predicate IsCell3(p: Problem, x: Cell3) {
    0 <= x.row < R(p) && 0 <= x.n < p.hidden
  }

  function Cells3(p: Problem): set<Cell3> {
    set row, n | 0 <= row < R(p) && 0 <= n < p.hidden && IsCell3(p, Cell3(row, n)) :: Cell3(row, n)
  }

  /** One lane's sum over the quantized groups of a row. */
  function Down(p: Problem, codes: seq<F>, scales: seq<F>, row: int, e: int, n: int, groups: nat): F {
    if groups == 0 then p.zero
    else p.add(Down(p, codes, scales, row, e, n, groups - 1),
               p.term2(ReadCodes(p, codes, row, groups - 1), Get(scales, ScaleAddr(p)(Pid2(row, groups - 1)), p.zero),
                       e, n, groups - 1))
  }

  /** The 32 codes of one group. */
  method LoadCodes(p: Problem, codes: array<F>, row: nat, c: nat) returns (group: seq<F>)
    requires Supported(p) && row < R(p) && c < p.inter / 32 && codes.Length >= R(p) * p.inter
    ensures group == ReadCodes(p, codes[..], row, c)
  {
    group := [];
    for j := 0 to 32
      invariant |group| == j && forall i | 0 <= i < j :: group[i] == Get(codes[..], CodeAddr(p)(Cell2(row, Col(c, i))), p.zero)
    {
      ChunkRange(p, c, j);
      RowMajorInside(row, Col(c, j), R(p), p.inter);
      group := group + [codes[row * p.inter + Col(c, j)]];
    }
  }

  /** One lane of the third kernel: the groups of a row, then its router weight. */
  method Lane3(p: Problem, codes: array<F>, scales: array<F>, row: nat, e: int, n: int) returns (v: F)
    requires Supported(p) && row < R(p) && codes.Length >= R(p) * p.inter && scales.Length >= R(p) * (p.inter / 32)
    ensures v == p.mul(Down(p, codes[..], scales[..], row, e, n, p.inter / 32), p.weight(row))
  {
    hide Supported, ReadCodes, R;
    var acc := p.zero;
    for g := 0 to p.inter / 32
      invariant acc == Down(p, codes[..], scales[..], row, e, n, g)
    {
      var group := LoadCodes(p, codes, row, g);
      RowMajorInside(row, g, R(p), p.inter / 32);
      acc := p.add(acc, p.term2(group, scales[row * (p.inter / 32) + g], e, n, g));
    }
    v := p.mul(acc, p.weight(row));
  }

  method TileRow3(p: Problem, codes: array<F>, scales: array<F>, row: nat, e: int, n0: nat) returns (stores: map<Cell3, F>)
    requires Supported(p) && row < R(p) && codes.Length >= R(p) * p.inter && scales.Length >= R(p) * (p.inter / 32)
    ensures forall x :: x in stores <==> x.row == row && n0 <= x.n < n0 + BLOCK_N
    ensures forall x | x in stores ::
              stores[x] == p.mul(Down(p, codes[..], scales[..], x.row, e, x.n, p.inter / 32), p.weight(x.row))
  {
    hide Supported, Down, R;
    stores := map[];
    for j := 0 to BLOCK_N
      invariant forall x :: x in stores <==> x.row == row && n0 <= x.n < n0 + j
      invariant forall x | x in stores ::
                  stores[x] == p.mul(Down(p, codes[..], scales[..], x.row, e, x.n, p.inter / 32), p.weight(x.row))
    {
      var v := Lane3(p, codes, scales, row, e, n0 + j);
      stores := stores[Cell3(row, n0 + j) := v];
    }
  }

  lemma Writes3Are(p: Problem, m: seq<int>, codes: seq<F>, scales: seq<F>, q: Pid3, x: Cell3)
    requires Supported(p) && HoldsMap(p.ro, m) && IsPid3(p, q)
    ensures x in Writes3(p, m, codes, scales)(q) <==> Stores3(m, q, x)
  {
    hide HoldsMap, HasLane, Down;
    if Stores3(m, q, x) {
      LaneOwner(p, m, q.u, x.row);
      TileInside(p, q.n, x.n, p.hidden);
      assert IsCell3(p, Cell3(x.row, x.n));
    }
  }

  /** One program of the third kernel. */
  method Program3(p: Problem, m: seq<int>, codes: array<F>, scales: array<F>, q: Pid3) returns (stores: map<Cell3, F>)
    requires Supported(p) && HoldsMap(p.ro, m) && IsPid3(p, q)
    requires codes.Length >= R(p) * p.inter && scales.Length >= R(p) * (p.inter / 32)
    ensures stores == Writes3(p, m, codes[..], scales[..])(q)
  {
    MulMono(0, q.n, BLOCK_N);
    var n0 := q.n * BLOCK_N;
    forall x ensures x in Writes3(p, m, codes[..], scales[..])(q) <==> Stores3(m, q, x) {
      Writes3Are(p, m, codes[..], scales[..], q, x);
    }
    hide Supported, HoldsMap, Down, HasLaneBelow, HasLane, RowValid, RowAt, ExpertAt, R;
    stores := map[];
    if q.u < At(m, MAX_R * WIDTH) {
      NoLanes(m, q.u);
      for i := 0 to BLOCK_M
        invariant forall x :: x in stores <==> HasLaneBelow(m, q.u, x.row, i) && n0 <= x.n < n0 + BLOCK_N
        invariant forall x | x in stores ::
                    stores[x] == p.mul(Down(p, codes[..], scales[..], x.row, ExpertAt(m, q.u), x.n, p.inter / 32), p.weight(x.row))
      {
        forall row ensures HasLaneBelow(m, q.u, row, i + 1) <==>
                           HasLaneBelow(m, q.u, row, i) || (RowValid(m, q.u, i) && RowAt(m, q.u, i) == row) {
          OneMoreLane(m, q.u, row, i);
        }
        if RowValid(m, q.u, i) {
          LaneRow(p, m, q.u, i);
          var row := TileRow3(p, codes, scales, RowAt(m, q.u, i), ExpertAt(m, q.u), n0);
          stores := stores + row;
        }
      }
      forall row ensures HasLaneBelow(m, q.u, row, BLOCK_M) <==> HasLane(m, q.u, row) { OneMoreLane(m, q.u, row, 0); }
    }
    assert forall x :: x in stores <==> x in Writes3(p, m, codes[..], scales[..])(q);
    assert stores == Writes3(p, m, codes[..], scales[..])(q);
  }

  predicate Stores3(m: seq<int>, q: Pid3, x: Cell3) {
    q.u < At(m, MAX_R * WIDTH) && InTile(q.n, BLOCK_N, x.n) && HasLane(m, q.u, x.row)
  }

  function Writes3(p: Problem, m: seq<int>, codes: seq<F>, scales: seq<F>): Pid3 -> map<Cell3, F> {
    (q: Pid3) => map x | x in Cells3(p) && Stores3(m, q, x) ::
                   p.mul(Down(p, codes, scales, x.row, ExpertAt(m, q.u), x.n, p.inter / 32), p.weight(x.row))
  }

  function Addr3(p: Problem): Cell3 -> int {
    (x: Cell3) => x.row * p.hidden + x.n
  }

  lemma {:induction false} DownIs(p: Problem, codes: seq<F>, scales: seq<F>, row: int, n: int, groups: nat)
    requires Supported(p) && Holds2(p, codes, scales) && Packs(p.ro, row) && groups <= p.inter / 32
    ensures Down(p, codes, scales, row, p.ro.ids[row], n, groups) == Project2(p, row, p.ro.ids[row], n, groups)
  {
    hide Packs, ReadCodes, Codes, Gates, Ups;
    if groups > 0 {
      DownIs(p, codes, scales, row, n, groups - 1);
      assert GroupHeld(p, codes, scales, row, groups - 1);
      CodesRead(p, codes, scales, row, groups - 1);
    }
  }

  lemma CodesRead(p: Problem, codes: seq<F>, scales: seq<F>, row: int, c: int)
    requires p.topK > 0 && Packs(p.ro, row) && GroupHeld(p, codes, scales, row, c)
    ensures ReadCodes(p, codes, row, c) == Codes(p, row, p.ro.ids[row], c)
  {
    forall j | 0 <= j < 32
      ensures ReadCodes(p, codes, row, c)[j] == Codes(p, row, p.ro.ids[row], c)[j]
    {
      assert CodeAddr(p)(Cell2(row, Col(c, j))) == row * p.inter + (c * 32 + j);
    }
  }

  lemma Owner3(p: Problem, m: seq<int>, codes: seq<F>, scales: seq<F>, x: Cell3) returns (q: Pid3)
    requires Supported(p) && HoldsMap(p.ro, m) && IsCell3(p, x) && Packs(p.ro, x.row)
    ensures q in Grid3(p) && x in Writes3(p, m, codes, scales)(q)
    ensures Writes3(p, m, codes, scales)(q)[x] ==
            p.mul(Down(p, codes, scales, x.row, p.ro.ids[x.row], x.n, p.inter / 32), p.weight(x.row))
  {
    hide Down;
    var u := PackedHasLane(p, m, x.row);
    var n := Tile(x.n, p.hidden, BLOCK_N);
    q := Pid3(u, n);
    assert IsPid3(p, q) && Stores3(m, q, x) && IsCell3(p, Cell3(x.row, x.n));
  }

  lemma SameOwner3(p: Problem, m: seq<int>, q: Pid3, r: Pid3, x: Cell3)
    requires Supported(p) && HoldsMap(p.ro, m) && q in Grid3(p) && r in Grid3(p)
    requires IsCell3(p, x) && Stores3(m, q, x) && Stores3(m, r, x)
    ensures q == r
  {
    LaneOwner(p, m, q.u, x.row);
    LaneOwner(p, m, r.u, x.row);
    var n := Tile(x.n, p.hidden, BLOCK_N);
  }

  lemma Fits3(p: Problem, m: seq<int>, codes: seq<F>, scales: seq<F>, length: int)
    requires Supported(p) && HoldsMap(p.ro, m) && length >= R(p) * p.hidden
    ensures Disjoint(Grid3(p), Writes3(p, m, codes, scales), Addr3(p))
    ensures InBounds(Grid3(p), Writes3(p, m, codes, scales), Addr3(p), length)
  {
    hide Supported, HoldsMap, Stores3, R, Down;
    var (stores, addr) := (Writes3(p, m, codes, scales), Addr3(p));
    forall q, r, x, y | q in Grid3(p) && r in Grid3(p) && x in stores(q) && y in stores(r) && addr(x) == addr(y)
      ensures q == r && x == y
    {
      RowMajorUnique(x.row, x.n, y.row, y.n, p.hidden);
      SameOwner3(p, m, q, r, x);
    }
    forall q, x | q in Grid3(p) && x in stores(q)
      ensures 0 <= addr(x) < length
    {
      RowMajorInside(x.row, x.n, R(p), p.hidden);
    }
  }

  ghost predicate Holds3(p: Problem, part2: seq<F>)
    requires p.topK > 0
  {
    forall x | IsCell3(p, x) && Packs(p.ro, x.row) ::
      var i := x.row * p.hidden + x.n;
      0 <= i < |part2| && part2[i] == RowOut(p, x.row, p.ro.ids[x.row], x.n)
  }

  method Launch3(p: Problem, m: seq<int>, codes: array<F>, scales: array<F>, part2: array<F>)
    requires Supported(p) && HoldsMap(p.ro, m) && Holds2(p, codes[..], scales[..]) && part2.Length >= R(p) * p.hidden
    requires codes.Length >= R(p) * p.inter && scales.Length >= R(p) * (p.inter / 32) && part2 != codes && part2 != scales
    modifies part2
    ensures Holds3(p, part2[..])
  {
    hide Supported, HoldsMap, Holds2, Disjoint, InBounds, Writes3, Down, Project2, R, Ran;
    TopKPositive(p);
    ghost var (read, scaled) := (codes[..], scales[..]);
    Fits3(p, m, read, scaled, part2.Length);
    ghost var was := part2[..];
    var todo := Grid3(p);
    NoneRan(Grid3(p), Writes3(p, m, read, scaled), Addr3(p), was);
    while todo != {}
      invariant todo <= Grid3(p) && Ran(Grid3(p), todo, Writes3(p, m, read, scaled), Addr3(p), was, part2[..])
      invariant codes[..] == read && scales[..] == scaled
      decreases todo
    {
      var q :| q in todo;
      var mine := Program3(p, m, codes, scales, q);
      CommitOne(Grid3(p), todo, Writes3(p, m, read, scaled), q, mine, Addr3(p), was, part2);
      todo := todo - {q};
    }
    AllRan(Grid3(p), Writes3(p, m, read, scaled), Addr3(p), was, part2[..]);
    forall x | IsCell3(p, x) && Packs(p.ro, x.row)
      ensures 0 <= Addr3(p)(x) < part2.Length && part2[Addr3(p)(x)] == RowOut(p, x.row, p.ro.ids[x.row], x.n)
    {
      var q := Owner3(p, m, read, scaled, x);
      DownIs(p, read, scaled, x.row, x.n, p.inter / 32);
    }
  }

  // ----- the slot-sum launch -----

  datatype Pid4 = Pid4(t: int, c: int)
  datatype Cell4 = Cell4(t: int, n: int)

  predicate IsPid4(p: Problem, q: Pid4) {
    0 <= q.t < p.tokens && 0 <= q.c < Cdiv(p.hidden, SUM_BLOCK)
  }

  function Grid4(p: Problem): set<Pid4> {
    set t, c | 0 <= t < p.tokens && 0 <= c < Cdiv(p.hidden, SUM_BLOCK) && IsPid4(p, Pid4(t, c)) :: Pid4(t, c)
  }

  predicate IsCell4(p: Problem, x: Cell4) {
    0 <= x.t < p.tokens && 0 <= x.n < p.hidden
  }

  function Cells4(p: Problem): set<Cell4> {
    set t, n | 0 <= t < p.tokens && 0 <= n < p.hidden && IsCell4(p, Cell4(t, n)) :: Cell4(t, n)
  }

  /** A token's routed rows as they stand in the buffer; rows of no expert load zero. */
  function SlotSum(p: Problem, part2: seq<F>, t: int, n: int, slots: nat): F {
    if slots == 0 then p.zero
    else
      var r := t * p.topK + (slots - 1);
      p.add(SlotSum(p, part2, t, n, slots - 1), if Valid(p.ro, r) then Get(part2, Addr3(p)(Cell3(r, n)), p.zero) else p.zero)
  }

  function Writes4(p: Problem, part2: seq<F>): Pid4 -> map<Cell4, F> {
    (q: Pid4) => map x | x in Cells4(p) && x.t == q.t && InTile(q.c, SUM_BLOCK, x.n) :: SlotSum(p, part2, q.t, x.n, p.topK)
  }

  function Addr4(p: Problem): Cell4 -> int {
    (x: Cell4) => x.t * p.strideOut + x.n
  }

  /** One lane's loop over the slots. */
  method SlotLane(p: Problem, part2: array<F>, t: nat, n: nat) returns (acc: F)
    requires Supported(p) && t < p.tokens && n < p.hidden && part2.Length >= R(p) * p.hidden
    ensures acc == SlotSum(p, part2[..], t, n, p.topK)
  {
    acc := p.zero;
    for s := 0 to p.topK
      invariant acc == SlotSum(p, part2[..], t, n, s)
    {
      var r := t * p.topK + s;
      RowMajorInside(t, s, p.tokens, p.topK);
      RowMajorInside(r, n, R(p), p.hidden);
      var e := p.ro.ids[r];
      acc := p.add(acc, if 0 <= e < p.ro.E then part2[Addr3(p)(Cell3(r, n))] else p.zero);
    }
  }

  /** One program of the last kernel. */
  method Program4(p: Problem, part2: array<F>, q: Pid4) returns (stores: map<Cell4, F>)
    requires Supported(p) && IsPid4(p, q) && part2.Length >= R(p) * p.hidden
    ensures stores == Writes4(p, part2[..])(q)
  {
    hide Supported, SlotSum, R;
    ghost var parts := part2[..];
    var first := q.c * SUM_BLOCK;
    stores := map[];
    for lane := 0 to SUM_BLOCK
      invariant forall x :: x in stores <==> x.t == q.t && first <= x.n < first + lane && x.n < p.hidden
      invariant forall x | x in stores :: stores[x] == SlotSum(p, parts, x.t, x.n, p.topK)
    {
      if first + lane < p.hidden {
        var acc := SlotLane(p, part2, q.t, first + lane);
        stores := stores[Cell4(q.t, first + lane) := acc];
      }
    }
    forall x ensures x in Cells4(p) <==> IsCell4(p, x) { assert x == Cell4(x.t, x.n); }
    assert forall x :: x in stores <==> x in Writes4(p, parts)(q);
    assert stores == Writes4(p, parts)(q);
  }

  lemma {:induction false} SlotSumIs(p: Problem, part2: seq<F>, t: nat, n: nat, slots: nat)
    requires Supported(p) && Holds3(p, part2) && t < p.tokens && n < p.hidden && slots <= p.topK
    requires forall r | Valid(p.ro, r) :: Packs(p.ro, r)
    ensures SlotSum(p, part2, t, n, slots) == TokenOut(p, t, n, slots)
  {
    hide Packs, RowOut;
    if slots > 0 {
      SlotSumIs(p, part2, t, n, slots - 1);
      var r := t * p.topK + (slots - 1);
      if Valid(p.ro, r) { assert IsCell3(p, Cell3(r, n)) && Packs(p.ro, Cell3(r, n).row); }
    }
  }

  lemma Owner4(p: Problem, part2: seq<F>, x: Cell4) returns (q: Pid4)
    requires IsCell4(p, x)
    ensures q in Grid4(p) && x in Writes4(p, part2)(q) && Writes4(p, part2)(q)[x] == SlotSum(p, part2, x.t, x.n, p.topK)
    ensures forall c | InTile(c, SUM_BLOCK, x.n) :: c == q.c
  {
    hide SlotSum;
    var c := x.n / SUM_BLOCK;
    DivModSpec(x.n, SUM_BLOCK);
    q := Pid4(x.t, c);
    assert IsPid4(p, q) && IsCell4(p, Cell4(x.t, x.n)) && InTile(c, SUM_BLOCK, x.n);
  }

  lemma Fits4(p: Problem, part2: seq<F>, length: int)
    requires p.strideOut >= p.hidden && length >= p.tokens * p.strideOut
    ensures Disjoint(Grid4(p), Writes4(p, part2), Addr4(p)) && InBounds(Grid4(p), Writes4(p, part2), Addr4(p), length)
  {
    hide SlotSum;
    var (stores, addr) := (Writes4(p, part2), Addr4(p));
    forall q, r, x, y | q in Grid4(p) && r in Grid4(p) && x in stores(q) && y in stores(r) && addr(x) == addr(y)
      ensures q == r && x == y
    {
      RowMajorUnique(x.t, x.n, y.t, y.n, p.strideOut);
      var o := Owner4(p, part2, x);
    }
    forall q, x | q in Grid4(p) && x in stores(q)
      ensures 0 <= addr(x) < length
    {
      RowMajorInside(x.t, x.n, p.tokens, p.strideOut);
    }
  }

  method Launch4(p: Problem, part2: array<F>, out: array<F>)
    requires Supported(p) && Holds3(p, part2[..]) && out.Length >= p.tokens * p.strideOut
    requires part2 != out && part2.Length >= R(p) * p.hidden
    requires forall r | Valid(p.ro, r) :: Packs(p.ro, r)
    modifies out
    ensures forall t, n | 0 <= t < p.tokens && 0 <= n < p.hidden ::
              0 <= t * p.strideOut + n < out.Length && out[t * p.strideOut + n] == TokenOut(p, t, n, p.topK)
    ensures forall a | 0 <= a < out.Length && (p.hidden == 0 || a / p.strideOut >= p.tokens || a % p.strideOut >= p.hidden) ::
              out[a] == old(out[a])
  {
    hide Holds3, Disjoint, InBounds, Writes4, SlotSum, TokenOut, Packs, Ran;
    ghost var read := part2[..];
    Fits4(p, read, out.Length);
    ghost var was := out[..];
    var todo := Grid4(p);
    NoneRan(Grid4(p), Writes4(p, read), Addr4(p), was);
    while todo != {}
      invariant todo <= Grid4(p) && Ran(Grid4(p), todo, Writes4(p, read), Addr4(p), was, out[..])
      invariant part2[..] == read
      decreases todo
    {
      var q :| q in todo;
      var mine := Program4(p, part2, q);
      CommitOne(Grid4(p), todo, Writes4(p, read), q, mine, Addr4(p), was, out);
      todo := todo - {q};
    }
    AllRan(Grid4(p), Writes4(p, read), Addr4(p), was, out[..]);
    forall t, n | 0 <= t < p.tokens && 0 <= n < p.hidden
      ensures 0 <= t * p.strideOut + n < out.Length && out[t * p.strideOut + n] == TokenOut(p, t, n, p.topK)
    {
      var q := Owner4(p, read, Cell4(t, n));
      SlotSumIs(p, read, t, n, p.topK);
      assert out[..][Addr4(p)(Cell4(t, n))] == TokenOut(p, t, n, p.topK);
    }
    forall a | 0 <= a < out.Length && (p.hidden == 0 || a / p.strideOut >= p.tokens || a % p.strideOut >= p.hidden)
      ensures out[a] == was[a]
    {
      GapUnstored(p, read, a);
    }
  }

  lemma GapUnstored(p: Problem, part2: seq<F>, a: int)
    requires p.strideOut >= p.hidden && (p.hidden == 0 || a / p.strideOut >= p.tokens || a % p.strideOut >= p.hidden)
    ensures forall q, x | q in Grid4(p) && x in Writes4(p, part2)(q) :: Addr4(p)(x) != a
  {
    hide SlotSum;
    forall q, x | q in Grid4(p) && x in Writes4(p, part2)(q)
      ensures Addr4(p)(x) != a
    {
      GapIsNoCell(x.t, x.n, p.tokens, p.hidden, p.strideOut, a);
    }
  }

  // ----- the whole layer -----

  /** The first three launches, after the map when the router did not supply it. */
  method RoutedRows(p: Problem, given: seq<int>, m: array<int>, part1: array<F>, codes: array<F>, scales: array<F>,
                    part2: array<F>)
    requires Supported(p) && DistinctPerToken(p.ro, p.topK)
    requires given == [] || HoldsMap(p.ro, given)
    requires m.Length >= (MAX_R + 1) * WIDTH && part1.Length >= SPLIT * R(p) * N1(p)
    requires codes.Length >= R(p) * p.inter && scales.Length >= R(p) * (p.inter / 32) && part2.Length >= R(p) * p.hidden
    requires codes != scales && part1 !in {codes, scales} && part2 !in {codes, scales}
    modifies m, part1, codes, scales, part2
    ensures p.topK > 0 && Holds3(p, part2[..])
  {
    hide HoldsMap, Holds1, Holds2, Holds3, Packs, R, N1;
    var table := given;
    if given == [] {
      SupportedFits(p);
      RouteMapKernel(p.ro, m);
      table := m[..];
    }
    Launch1(p, table, part1);
    Launch2(p, part1, codes, scales);
    Launch3(p, table, codes, scales, part2);
  }

  /** Every output element is the sum of its token's routed rows, each computed by its own
      expert, whatever the uninitialised buffers held. The router may supply the map. */
  method FusedMoe(p: Problem, given: seq<int>, m: array<int>, part1: array<F>, codes: array<F>, scales: array<F>,
                  part2: array<F>, out: array<F>)
    requires Supported(p) && DistinctPerToken(p.ro, p.topK)
    requires given == [] || HoldsMap(p.ro, given)
    requires m.Length >= (MAX_R + 1) * WIDTH && part1.Length >= SPLIT * R(p) * N1(p)
    requires codes.Length >= R(p) * p.inter && scales.Length >= R(p) * (p.inter / 32)
    requires part2.Length >= R(p) * p.hidden && out.Length >= p.tokens * p.strideOut
    requires codes != scales && part1 !in {codes, scales} && part2 !in {codes, scales}
    requires out !in {part1, codes, scales, part2} && out as object != m as object
    modifies m, part1, codes, scales, part2, out
    ensures forall t, n | 0 <= t < p.tokens && 0 <= n < p.hidden ::
              0 <= t * p.strideOut + n < out.Length && out[t * p.strideOut + n] == TokenOut(p, t, n, p.topK)
    ensures forall a | 0 <= a < out.Length && (p.hidden == 0 || a / p.strideOut >= p.tokens || a % p.strideOut >= p.hidden) ::
              out[a] == old(out[a])
  {
    hide HoldsMap, Holds3, TokenOut, Packs, R, N1;
    RoutedRows(p, given, m, part1, codes, scales, part2);
    assert out[..] == old(out[..]);
    AllFit(p);
    Launch4(p, part2, out);
  }

  lemma SupportedFits(p: Problem)
    requires Supported(p)
    ensures Fits(p.ro)
  {
  }

  lemma AllFit(p: Problem)
    requires Supported(p) && DistinctPerToken(p.ro, p.topK)
    ensures forall r | Valid(p.ro, r) :: Packs(p.ro, r)
  {
    forall r | Valid(p.ro, r) { EveryRowFits(p.ro, p.topK, p.tokens, r); }
  }

  // ----- what the splitting leaves of the definition -----

  lemma {:induction false} Sum1Concat(p: Problem, tok: int, e: int, n: int, start: int, a: nat, b: nat)
    requires IsMonoid(p.add, p.zero)
    ensures Sum1(p, tok, e, n, start, a + b) == p.add(Sum1(p, tok, e, n, start, a), Sum1(p, tok, e, n, start + 32 * a, b))
  {
    if b > 0 { Sum1Concat(p, tok, e, n, start, a, b - 1); }
  }

  lemma SliceStart(p: Problem, slices: nat)
    requires Supported(p)
    ensures slices * KPer(p) == 32 * (slices * (KPer(p) / 32))
    ensures SPLIT * (KPer(p) / 32) == p.hidden / 32
  {
    DivModSpec(p.hidden, SPLIT * 32);
    var q := p.hidden / (SPLIT * 32);
    DivModUnique(p.hidden, SPLIT, 32 * q, 0);
    DivModUnique(p.hidden, 32, SPLIT * q, 0);
    assert slices * (32 * q) == 32 * (slices * q);
  }

  lemma Sum1None(p: Problem, tok: int, e: int, n: int, start: int)
    ensures Sum1(p, tok, e, n, start, 0) == p.zero
  {
  }

  lemma NextSlice(slices: nat, groups: nat)
    requires slices > 0
    ensures (slices - 1) * groups + groups == slices * groups && (slices - 1) * groups >= 0
  {
  }

  lemma JoinStep(p: Problem, r: int, e: int, n: int, slices: nat, before: nat, groups: nat)
    requires p.topK > 0 && IsMonoid(p.add, p.zero) && groups == KPer(p) / 32 && slices * KPer(p) == 32 * before
    requires Project1(p, r, e, n, slices) == Sum1(p, r / p.topK, e, n, 0, before)
    ensures Project1(p, r, e, n, slices + 1) == Sum1(p, r / p.topK, e, n, 0, before + groups)
  {
    hide IsMonoid, Sum1, KPer;
    Sum1Concat(p, r / p.topK, e, n, 0, before, groups);
  }

  lemma {:induction false} SlicesJoin(p: Problem, r: int, e: int, n: int, slices: nat, groups: nat, total: nat)
    requires Supported(p) && IsMonoid(p.add, p.zero) && groups == KPer(p) / 32 && total == slices * groups
    ensures Project1(p, r, e, n, slices) == Sum1(p, r / p.topK, e, n, 0, total)
  {
    assert p.topK > 0;
    if slices == 0 {
      Sum1None(p, r / p.topK, e, n, 0);
    } else {
      hide Supported, IsMonoid, Sum1, Project1, KPer;
      NextSlice(slices, groups);
      SlicesJoin(p, r, e, n, slices - 1, groups, total - groups);
      SliceStart(p, slices - 1);
      JoinStep(p, r, e, n, slices - 1, total - groups, groups);
    }
  }

  lemma {:induction false} Sum1IsFold(p: Problem, tok: int, e: int, n: int, start: int, count: nat)
    ensures Sum1(p, tok, e, n, start, count) ==
            Fold(p.add, p.zero, seq(count, (g: int) => p.term1(tok, e, n, start + 32 * g)))
  {
    if count > 0 {
      Sum1IsFold(p, tok, e, n, start, count - 1);
      var term := (g: int) => p.term1(tok, e, n, start + 32 * g);
      FoldMore(p.add, p.zero, seq(count - 1, term), term(count - 1));
      assert seq(count, term) == seq(count - 1, term) + [term(count - 1)];
    }
  }

  lemma SliceIsFold(p: Problem, r: int, e: int, n: int, k: nat, groups: nat)
    requires p.topK > 0 && groups == KPer(p) / 32 && KPer(p) == 32 * groups
    ensures Part1(p, r, e, n, k) ==
            Fold(p.add, p.zero, seq(groups, (g: int) => p.term1(r / p.topK, e, n, 32 * (k * groups + g))))
  {
    hide KPer, Sum1;
    Sum1IsFold(p, r / p.topK, e, n, k * KPer(p), groups);
    assert k * KPer(p) == 32 * (k * groups);
    assert seq(groups, (g: int) => p.term1(r / p.topK, e, n, k * KPer(p) + 32 * g)) ==
           seq(groups, (g: int) => p.term1(r / p.topK, e, n, 32 * (k * groups + g)));
  }

  lemma {:induction false} SlicesFold(p: Problem, r: int, e: int, n: int, groups: nat, count: nat)
    requires p.topK > 0 && groups == KPer(p) / 32 && KPer(p) == 32 * groups
    ensures Project1(p, r, e, n, count) ==
            Fold(p.add, p.zero, seq(count, (k: int) =>
              Fold(p.add, p.zero, seq(groups, (g: int) => p.term1(r / p.topK, e, n, 32 * (k * groups + g))))))
  {
    hide KPer, Part1;
    if count > 0 {
      SlicesFold(p, r, e, n, groups, count - 1);
      SliceIsFold(p, r, e, n, count - 1, groups);
      var slice := (k: int) => Fold(p.add, p.zero, seq(groups, (g: int) => p.term1(r / p.topK, e, n, 32 * (k * groups + g))));
      FoldMore(p.add, p.zero, seq(count - 1, slice), slice(count - 1));
      assert seq(count, slice) == seq(count - 1, slice) + [slice(count - 1)];
    }
  }

  /** With no law of addition: a projection is the left fold of its eight slices, each the left fold
      of its own eighth of the group terms in column order. */
  lemma ProjectionIsFolds(p: Problem, r: int, e: int, n: int)
    requires Supported(p)
    ensures p.topK > 0 && p.hidden / 32 == 8 * (p.hidden / 256)
    ensures Project1(p, r, e, n, SPLIT) ==
            Fold(p.add, p.zero, seq(8, (k: int) =>
              Fold(p.add, p.zero, seq(p.hidden / 256, (g: int) => p.term1(r / p.topK, e, n, 32 * (k * (p.hidden / 256) + g))))))
  {
    SlicesFold(p, r, e, n, p.hidden / 256, SPLIT);
  }

  lemma {:induction false} GroupsFold(p: Problem, r: int, e: int, n: int, groups: nat)
    requires p.topK > 0
    ensures Project2(p, r, e, n, groups) ==
            Fold(p.add, p.zero, seq(groups, (c: int) =>
              p.term2(Codes(p, r, e, c), p.scale(Gates(p, r, e, c), Ups(p, r, e, c)), e, n, c)))
  {
    hide Codes, Gates, Ups;
    if groups > 0 {
      GroupsFold(p, r, e, n, groups - 1);
      var term := (c: int) => p.term2(Codes(p, r, e, c), p.scale(Gates(p, r, e, c), Ups(p, r, e, c)), e, n, c);
      FoldMore(p.add, p.zero, seq(groups - 1, term), term(groups - 1));
      assert seq(groups, term) == seq(groups - 1, term) + [term(groups - 1)];
    }
  }

  lemma {:induction false} SlotsFold(p: Problem, t: int, n: int, slots: nat)
    requires p.topK > 0
    ensures TokenOut(p, t, n, slots) ==
            Fold(p.add, p.zero, seq(slots, (s: int) =>
              if 0 <= t * p.topK + s < |p.ro.ids| && 0 <= p.ro.ids[t * p.topK + s] < p.ro.E
              then RowOut(p, t * p.topK + s, p.ro.ids[t * p.topK + s], n) else p.zero))
  {
    hide RowOut;
    if slots > 0 {
      SlotsFold(p, t, n, slots - 1);
      var row := (s: int) =>
        if 0 <= t * p.topK + s < |p.ro.ids| && 0 <= p.ro.ids[t * p.topK + s] < p.ro.E
        then RowOut(p, t * p.topK + s, p.ro.ids[t * p.topK + s], n) else p.zero;
      FoldMore(p.add, p.zero, seq(slots - 1, row), row(slots - 1));
      assert seq(slots, row) == seq(slots - 1, row) + [row(slots - 1)];
    }
  }

  /** Where addition is associative, as it is for the exact product, a projection is the plain
      sum over all the 32-wide scale groups of its row, each once. */
  lemma ProjectionIsUnsplit(p: Problem, r: int, e: int, n: int)
    requires Supported(p) && IsMonoid(p.add, p.zero)
    ensures p.topK > 0
    ensures Project1(p, r, e, n, SPLIT) ==
            Fold(p.add, p.zero, seq(p.hidden / 32, (g: int) => p.term1(r / p.topK, e, n, 32 * g)))
  {
    SliceStart(p, SPLIT);
    SlicesJoin(p, r, e, n, SPLIT, KPer(p) / 32, p.hidden / 32);
    Sum1IsFold(p, r / p.topK, e, n, 0, p.hidden / 32);
    assert seq(p.hidden / 32, (g: int) => p.term1(r / p.topK, e, n, 0 + 32 * g)) ==
           seq(p.hidden / 32, (g: int) => p.term1(r / p.topK, e, n, 32 * g));
  }
}
