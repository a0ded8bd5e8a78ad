/** The block-scaled FP8 GEMM: a swizzled grid of tiles, each summing all K scale groups. */
module BlockGemm {
  import opened Arithmetic
  import opened Launch

  // ----- the grid swizzle -----

  function Min(a: int, b: int): int {
    if a <= b then a else b
  }

  /** The tile that program `pid` computes: groups of `g` tile rows, column by column. The
      offset within the group is `pid % rows`, not `pid % (g * tilesN) % rows`. */
  function Swizzle(pid: nat, tilesM: nat, tilesN: nat, g: nat): (int, int)
    requires g > 0 && pid < tilesM * tilesN
  {
    assert tilesN > 0;
    assert g * tilesN > 0 by { MulMono(1, g, tilesN); }
    var inGroup := g * tilesN;
    var first := pid / inGroup * g;
    RowsPositive(pid, tilesM, tilesN, g);
    var rows := Min(tilesM - first, g);
    (first + pid % rows, pid % inGroup / rows)
  }

  /** The last group still has a row. */
  lemma RowsPositive(pid: nat, tilesM: nat, tilesN: nat, g: nat)
    requires g > 0 && tilesN > 0 && pid < tilesM * tilesN && g * tilesN > 0
    ensures 0 <= pid / (g * tilesN) * g < tilesM
  {
    var group := pid / (g * tilesN);
    DivModSpec(pid, g * tilesN);
    assert group >= 0 by {
      if group < 0 { MulMono(group, -1, g * tilesN); }
    }
    MulMono(0, group, g);
    MulAssoc(group, g, tilesN);
    if group * g >= tilesM { MulMono(tilesM, group * g, tilesN); }
  }

  /** The program that computes a given tile. */
  function Unswizzle(m: nat, n: nat, tilesM: nat, tilesN: nat, g: nat): int
    requires g > 0 && m < tilesM && n < tilesN
  {
    var first := m / g * g;
    var base := m / g * (g * tilesN);
    DivModSpec(m, g);
    var rows := Min(tilesM - first, g);
    base + n * rows + (m - first - base) % rows
  }

  lemma ModShift(a: int, b: int, k: int)
    requires b > 0
    ensures (a + k * b) % b == a % b
  {
    DivModSpec(a, b);
    assert a + k * b == (a / b + k) * b + a % b;
    DivModUnique(a + k * b, b, a / b + k, a % b);
  }

  lemma ModAddSub(x: int, y: int, b: int)
    requires b > 0 && 0 <= x < b
    ensures (y + (x - y) % b) % b == x
  {
    DivModSpec(x - y, b);
    assert y + (x - y) % b == x + (-((x - y) / b)) * b;
    ModShift(x, b, -((x - y) / b));
    DivModUnique(x, b, 0, x);
  }

  /** A group of `rows` tile rows has `rows * tilesN` programs, within those of the grid. */
  lemma GroupFits(first: nat, rows: nat, q: int, tilesM: nat, tilesN: nat, g: nat)
    requires 0 <= q < rows * tilesN && rows <= g && first + rows <= tilesM
    ensures 0 <= first * tilesN + q < tilesM * tilesN && q < g * tilesN
  {
    MulMono(rows, g, tilesN);
    MulMono(0, first, tilesN);
    MulMono(first + rows, tilesM, tilesN);
    assert (first + rows) * tilesN == first * tilesN + rows * tilesN;
  }

  lemma PlaceInGroup(n: nat, r: int, rows: nat, tilesN: nat)
    requires 0 <= r < rows && n < tilesN
    ensures 0 <= n * rows + r < rows * tilesN
  {
    MulMono(n + 1, tilesN, rows);
    MulMono(0, n, rows);
    assert (n + 1) * rows == n * rows + rows;
  }

  /** A group's programs are `base .. base + rows * tilesN`. */
  lemma GroupOf(m: nat, n: nat, tilesM: nat, tilesN: nat, g: nat, r: int)
    requires g > 0 && m < tilesM && n < tilesN
    requires var rows := Min(tilesM - m / g * g, g); 0 <= r < rows
    ensures var rows := Min(tilesM - m / g * g, g);
            var pid := m / g * (g * tilesN) + n * rows + r;
            && rows > 0 && 0 <= pid < tilesM * tilesN && g * tilesN > 0
            && pid / (g * tilesN) == m / g && pid % (g * tilesN) == n * rows + r
  {
    DivModSpec(m, g);
    var group := m / g;
    assert group >= 0 by {
      if group < 0 { MulMono(group, -1, g); }
    }
    MulMono(0, group, g);
    var first := group * g;
    var rows := Min(tilesM - first, g);
    PlaceInGroup(n, r, rows, tilesN);
    GroupFits(first, rows, n * rows + r, tilesM, tilesN, g);
    MulAssoc(group, g, tilesN);
    DivModUnique(group * (g * tilesN) + (n * rows + r), g * tilesN, group, n * rows + r);
  }

  /** Every tile is computed by the program that `Unswizzle` names. */
  lemma SwizzleOnto(m: nat, n: nat, tilesM: nat, tilesN: nat, g: nat)
    requires g > 0 && m < tilesM && n < tilesN
    ensures 0 <= Unswizzle(m, n, tilesM, tilesN, g) < tilesM * tilesN
    ensures Swizzle(Unswizzle(m, n, tilesM, tilesN, g), tilesM, tilesN, g) == (m, n)
  {
    DivModSpec(m, g);
    var first := m / g * g;
    var base := m / g * (g * tilesN);
    var rows := Min(tilesM - first, g);
    var r := (m - first - base) % rows;
    DivModSpec(m - first - base, rows);
    GroupOf(m, n, tilesM, tilesN, g, r);
    var pid := base + n * rows + r;
    DivModUnique(n * rows + r, rows, n, r);
    ModAddSub(m - first, base, rows);
    ModShift(base + r, rows, n);
    assert base + r + n * rows == pid;
  }

  /** The parts of a program id: its group, its column and its place in the column. */
  lemma PidParts(pid: nat, tilesM: nat, tilesN: nat, g: nat) returns (group: nat, rows: nat, n: nat, r: nat)
    requires g > 0 && pid < tilesM * tilesN
    ensures tilesN > 0 && g * tilesN > 0 && group == pid / (g * tilesN)
    ensures group * g < tilesM && rows == Min(tilesM - group * g, g)
    ensures rows > 0 && r < rows && n < tilesN && pid % (g * tilesN) == n * rows + r
    ensures pid == group * (g * tilesN) + n * rows + r && n == pid % (g * tilesN) / rows
  {
    assert tilesN > 0;
    MulMono(1, g, tilesN);
    RowsPositive(pid, tilesM, tilesN, g);
    var inGroup := g * tilesN;
    DivModSpec(pid, inGroup);
    assert pid / inGroup >= 0 by {
      if pid / inGroup < 0 { MulMono(pid / inGroup, -1, inGroup); }
    }
    group := pid / inGroup;
    rows := Min(tilesM - group * g, g);
    var q := pid % inGroup;
    DivModSpec(q, rows);
    ColumnInside(group, g, rows, q, pid, tilesM, tilesN);
    n, r := q / rows, q % rows;
  }

  lemma ColumnInside(group: nat, g: nat, rows: nat, q: nat, pid: nat, tilesM: nat, tilesN: nat)
    requires group * g < tilesM && rows == Min(tilesM - group * g, g) && rows > 0 && q < g * tilesN
    requires pid == group * (g * tilesN) + q && pid < tilesM * tilesN
    ensures 0 <= q / rows < tilesN
  {
    MulAssoc(group, g, tilesN);
    assert (tilesM - group * g) * tilesN == tilesM * tilesN - group * g * tilesN;
    assert q < rows * tilesN;
    DivModSpec(q, rows);
    var n := q / rows;
    if n >= tilesN { MulMono(tilesN, n, rows); }
    if n < 0 { MulMono(n, -1, rows); }
  }

  lemma PlaceRecovered(base: int, n: nat, rows: nat, r: nat)
    requires r < rows
    ensures ((base + n * rows + r) % rows - base) % rows == r
  {
    var x := base + n * rows + r;
    DivModSpec(x, rows);
    var k := n - x / rows;
    assert x % rows - base == r + k * rows;
    ModShift(r, rows, k);
    DivModUnique(r, rows, 0, r);
  }

  /** And by no other: the grid is a bijection onto the tiles, short last group included. */
  lemma SwizzleOneToOne(pid: nat, tilesM: nat, tilesN: nat, g: nat)
    requires g > 0 && pid < tilesM * tilesN
    ensures var t := Swizzle(pid, tilesM, tilesN, g);
            0 <= t.0 < tilesM && 0 <= t.1 < tilesN && Unswizzle(t.0, t.1, tilesM, tilesN, g) == pid
  {
    var group, rows, n, r := PidParts(pid, tilesM, tilesN, g);
    DivModSpec(pid, rows);
    var m := group * g + pid % rows;
    MulMono(0, group, g);
    DivModUnique(m, g, group, pid % rows);
    var base := group * (g * tilesN);
    PlaceRecovered(base, n, rows, r);
    assert Swizzle(pid, tilesM, tilesN, g) == (m, n);
    assert (m - group * g - base) % rows == r;
  }

  // ----- one program -----

  /** The operands: `a` is M x K and `b` is N x K, with one scale per `groupK` columns, and
      per row of `a` or `groupN` rows of `b`. */
  datatype Problem = Problem(M: nat, N: nat, K: nat, a: (int, int) -> real, b: (int, int) -> real,
                             aScale: (int, int) -> real, bScale: (int, int) -> real,
                             groupN: nat, groupK: nat, strideC: nat)

  datatype Tiling = Tiling(bm: nat, bn: nat, bk: nat, groupM: nat)

  predicate Fits(p: Problem, t: Tiling) {
    && p.M > 0 && p.N > 0 && p.groupN > 0 && p.groupK > 0 && p.strideC >= p.N
    && t.bm > 0 && t.bn > 0 && t.bk > 0 && t.groupM > 0 && t.bk % p.groupK == 0
  }

  function GroupDot(p: Problem, m: int, n: int, g: int): real {
    Sum(k => p.a(m, k) * p.b(n, k), g * p.groupK, Min(g * p.groupK + p.groupK, p.K))
  }

  /** One scale group's share of an element: the scaled dot product of its `groupK` columns. */
  function GroupTerm(p: Problem, m: int, n: int, g: int): real
    requires p.groupN > 0
  {
    GroupDot(p, m, n, g) * p.aScale(m, g) * p.bScale(n / p.groupN, g)
  }

  /** The element as the definition has it: all scale groups, each once. */
  function Element(p: Problem, m: int, n: int): real
    requires p.groupN > 0 && p.groupK > 0
  {
    Sum(g => GroupTerm(p, m, n, g), 0, Cdiv(p.K, p.groupK))
  }

  /** The dot product of the masked loads at column `kk`. */
  function MaskedDot(p: Problem, m: int, n: int, kk: int): real {
    Sum(i => if i < p.K - kk then p.a(m, kk + i) * p.b(n, kk + i) else 0.0, 0, p.groupK)
  }

  /** One step, at column `kk`. */
  function StepTerm(p: Problem, m: int, n: int, kk: int): real
    requires p.groupN > 0 && p.groupK > 0
  {
    var g := kk / p.groupK;
    var live := g < Cdiv(p.K, p.groupK);
    MaskedDot(p, m, n, kk) * (if live then p.aScale(m, g) else 0.0) * (if live then p.bScale(n / p.groupN, g) else 0.0)
  }

  lemma {:induction false} MaskedSum(f: int -> real, lo: int, len: nat, limit: int)
    ensures Sum(i => if i < limit - lo then f(lo + i) else 0.0, 0, len) == Sum(f, lo, Min(lo + len, limit))
    decreases len
  {
    var masked := i => if i < limit - lo then f(lo + i) else 0.0;
    if len > 0 {
      MaskedSum(f, lo, len - 1, limit);
    }
  }

  lemma DotsAgree(p: Problem, m: int, n: int, g: nat)
    ensures MaskedDot(p, m, n, g * p.groupK) == GroupDot(p, m, n, g)
  {
    var f := k => p.a(m, k) * p.b(n, k);
    var lo := g * p.groupK;
    MaskedSum(f, lo, p.groupK, p.K);
    SumSame(i => if i < p.K - lo then p.a(m, lo + i) * p.b(n, lo + i) else 0.0,
            i => if i < p.K - lo then f(lo + i) else 0.0, 0, p.groupK);
  }

  /** A step is its scale group's term, and nothing past the last group. */
  lemma StepIsGroup(p: Problem, m: int, n: int, g: nat)
    requires p.groupN > 0 && p.groupK > 0
    ensures StepTerm(p, m, n, g * p.groupK) == if g < Cdiv(p.K, p.groupK) then GroupTerm(p, m, n, g) else 0.0
  {
    DivModUnique(g * p.groupK, p.groupK, g, 0);
    DotsAgree(p, m, n, g);
    hide MaskedDot, GroupDot;
  }

  function SumUpTo(p: Problem, m: int, n: int, groups: nat): real
    requires p.groupN > 0 && p.groupK > 0
  {
    Sum(g => if g < Cdiv(p.K, p.groupK) then GroupTerm(p, m, n, g) else 0.0, 0, groups)
  }

  lemma SumUpToAll(p: Problem, m: int, n: int, groups: nat)
    requires p.groupN > 0 && p.groupK > 0 && groups >= Cdiv(p.K, p.groupK)
    ensures SumUpTo(p, m, n, groups) == Element(p, m, n)
  {
    var all := Cdiv(p.K, p.groupK);
    var f := g => if g < all then GroupTerm(p, m, n, g) else 0.0;
    SumSplit(f, 0, all, groups);
    SumZero(f, all, groups);
    SumSame(f, g => GroupTerm(p, m, n, g), 0, all);
  }

  /** One wide step: its scale groups one after the other, each scaled on its own. */
  method WideStep(p: Problem, m: int, n: int, k0: nat, perStep: nat, start: real, ghost done: nat)
    returns (acc: real)
    requires p.groupN > 0 && p.groupK > 0 && k0 == done * p.groupK && start == SumUpTo(p, m, n, done)
    ensures acc == SumUpTo(p, m, n, done + perStep)
  {
    hide StepTerm, SumUpTo;
    acc := start;
    for j := 0 to perStep
      invariant acc == SumUpTo(p, m, n, done + j)
    {
      StepAdds(p, m, n, done, j);
      acc := acc + StepTerm(p, m, n, k0 + j * p.groupK);
    }
  }

  /** The K loop of one lane. */
  method KLoop(p: Problem, t: Tiling, m: int, n: int) returns (acc: real)
    requires Fits(p, t)
    ensures acc == Element(p, m, n)
  {
    hide SumUpTo, Element;
    acc := 0.0;
    var perStep := t.bk / p.groupK;
    WholeGroups(p, t);
    var k0 := 0;
    ghost var done := 0;
    SumUpToNone(p, m, n);
    while k0 < p.K
      invariant done >= 0 && k0 == done * p.groupK && acc == SumUpTo(p, m, n, done)
      decreases p.K - k0
    {
      acc := WideStep(p, m, n, k0, perStep, acc, done);
      Distributes(done, perStep, p.groupK);
      k0 := k0 + t.bk;
      done := done + perStep;
    }
    CoversGroups(p, done);
    SumUpToAll(p, m, n, done);
  }

  lemma Distributes(a: int, b: int, c: int)
    ensures (a + b) * c == a * c + b * c
  {
  }

  lemma WholeGroups(p: Problem, t: Tiling)
    requires Fits(p, t)
    ensures t.bk / p.groupK > 0 && t.bk / p.groupK * p.groupK == t.bk
  {
    DivModSpec(t.bk, p.groupK);
    if t.bk / p.groupK <= 0 { MulMono(t.bk / p.groupK, 0, p.groupK); }
  }

  lemma SumUpToNone(p: Problem, m: int, n: int)
    requires p.groupN > 0 && p.groupK > 0
    ensures SumUpTo(p, m, n, 0) == 0.0
  {
  }

  lemma StepAdds(p: Problem, m: int, n: int, done: nat, j: nat)
    requires p.groupN > 0 && p.groupK > 0
    ensures SumUpTo(p, m, n, done + j) + StepTerm(p, m, n, done * p.groupK + j * p.groupK) ==
            SumUpTo(p, m, n, done + j + 1)
  {
    assert (done + j) * p.groupK == done * p.groupK + j * p.groupK;
    StepIsGroup(p, m, n, done + j);
    SumUpToNext(p, m, n, done + j);
  }

  lemma SumUpToNext(p: Problem, m: int, n: int, g: nat)
    requires p.groupN > 0 && p.groupK > 0
    ensures SumUpTo(p, m, n, g + 1) ==
            SumUpTo(p, m, n, g) + if g < Cdiv(p.K, p.groupK) then GroupTerm(p, m, n, g) else 0.0
  {
  }

  lemma CoversGroups(p: Problem, done: nat)
    requires p.groupK > 0 && done * p.groupK >= p.K
    ensures done >= Cdiv(p.K, p.groupK)
  {
    var all := Cdiv(p.K, p.groupK);
    if done < all { MulMono(done, all - 1, p.groupK); }
  }

  // ----- the launch -----

  predicate IsPid(p: Problem, t: Tiling, pid: int)
    requires Fits(p, t)
  {
    0 <= pid < Cdiv(p.M, t.bm) * Cdiv(p.N, t.bn)
  }

  /** Element (m, n) is a live lane of program `pid`'s tile. */
  predicate InTile(p: Problem, t: Tiling, pid: int, m: int, n: int)
    requires Fits(p, t) && IsPid(p, t, pid)
  {
    var (tm, tn) := Swizzle(pid, Cdiv(p.M, t.bm), Cdiv(p.N, t.bn), t.groupM);
    && 0 <= m < p.M && 0 <= n < p.N
    && tm * t.bm <= m < tm * t.bm + t.bm && tn * t.bn <= n < tn * t.bn + t.bn
  }

  lemma TileOf(p: Problem, t: Tiling, m: int, n: int)
    requires Fits(p, t) && 0 <= m < p.M && 0 <= n < p.N
    ensures 0 <= m / t.bm < Cdiv(p.M, t.bm) && 0 <= n / t.bn < Cdiv(p.N, t.bn)
  {
    QuotientInside(m, p.M, t.bm);
    QuotientInside(n, p.N, t.bn);
  }

  lemma QuotientInside(x: int, limit: nat, b: nat)
    requires b > 0 && 0 <= x < limit
    ensures 0 <= x / b < Cdiv(limit, b)
  {
    DivModSpec(x, b);
    if x / b < 0 { MulMono(x / b, -1, b); }
    if x / b >= Cdiv(limit, b) { MulMono(Cdiv(limit, b), x / b, b); }
  }

  /** Every element of C is a live lane of exactly one program. */
  lemma OneProgramPerElement(p: Problem, t: Tiling, m: int, n: int) returns (owner: int)
    requires Fits(p, t) && 0 <= m < p.M && 0 <= n < p.N
    ensures IsPid(p, t, owner) && InTile(p, t, owner, m, n)
    ensures forall pid | IsPid(p, t, pid) && InTile(p, t, pid, m, n) :: pid == owner
  {
    var (rows, cols) := (Cdiv(p.M, t.bm), Cdiv(p.N, t.bn));
    TileOf(p, t, m, n);
    var (tm, tn) := (m / t.bm, n / t.bn);
    SwizzleOnto(tm, tn, rows, cols, t.groupM);
    owner := Unswizzle(tm, tn, rows, cols, t.groupM);
    DivModSpec(m, t.bm);
    DivModSpec(n, t.bn);
    forall pid | IsPid(p, t, pid) && InTile(p, t, pid, m, n)
      ensures pid == owner
    {
      SwizzleOneToOne(pid, rows, cols, t.groupM);
      var (x, y) := Swizzle(pid, rows, cols, t.groupM);
      DivModUnique(m, t.bm, x, m - x * t.bm);
      DivModUnique(n, t.bn, y, n - y * t.bn);
    }
  }

  function Pids(p: Problem, t: Tiling): set<int>
    requires Fits(p, t)
  {
    set pid | 0 <= pid < Cdiv(p.M, t.bm) * Cdiv(p.N, t.bn) && IsPid(p, t, pid)
  }

  /** The stores of program `pid`. */
  function TileStores(p: Problem, t: Tiling, pid: int): map<(int, int), real>
    requires Fits(p, t)
  {
    map m, n | 0 <= m < p.M && 0 <= n < p.N && IsPid(p, t, pid) && InTile(p, t, pid, m, n)
      :: (m, n) := Element(p, m, n)
  }

  /** One row of the tile: loads wrap around the matrix, stores are masked to it. */
  method TileRow(p: Problem, t: Tiling, m: nat, n0: nat) returns (row: map<(int, int), real>)
    requires Fits(p, t)
    ensures forall x :: x in row <==> x.0 == m < p.M && n0 <= x.1 < n0 + t.bn && x.1 < p.N
    ensures forall x | x in row :: row[x] == Element(p, x.0, x.1)
  {
    hide Element;
    row := map[];
    for j := 0 to t.bn
      invariant forall x :: x in row <==> x.0 == m < p.M && n0 <= x.1 < n0 + j && x.1 < p.N
      invariant forall x | x in row :: row[x] == Element(p, x.0, x.1)
    {
      var n := n0 + j;
      var acc := KLoop(p, t, m % p.M, n % p.N);
      if m < p.M && n < p.N {
        DivModUnique(m, p.M, 0, m);
        DivModUnique(n, p.N, 0, n);
        row := row[(m, n) := acc];
      }
    }
  }

  /** One program. */
  method Program(p: Problem, t: Tiling, pid: int) returns (stores: map<(int, int), real>)
    requires Fits(p, t) && IsPid(p, t, pid)
    ensures stores == TileStores(p, t, pid)
  {
    var (tm, tn) := Swizzle(pid, Cdiv(p.M, t.bm), Cdiv(p.N, t.bn), t.groupM);
    SwizzleOneToOne(pid, Cdiv(p.M, t.bm), Cdiv(p.N, t.bn), t.groupM);
    MulMono(0, tm, t.bm);
    MulMono(0, tn, t.bn);
    var (m0, n0) := (tm * t.bm, tn * t.bn);
    TileStoresAre(p, t, pid);
    hide Swizzle, Unswizzle, Element, TileStores;
    stores := map[];
    for i := 0 to t.bm
      invariant forall x :: x in stores <==> m0 <= x.0 < m0 + i && x.0 < p.M && n0 <= x.1 < n0 + t.bn && x.1 < p.N
      invariant forall x | x in stores :: stores[x] == Element(p, x.0, x.1)
    {
      var row := TileRow(p, t, m0 + i, n0);
      stores := stores + row;
    }
    assert forall x :: x in stores <==> x in TileStores(p, t, pid);
    assert stores == TileStores(p, t, pid);
  }

  lemma TileStoresAre(p: Problem, t: Tiling, pid: int)
    requires Fits(p, t) && IsPid(p, t, pid)
    ensures var (tm, tn) := Swizzle(pid, Cdiv(p.M, t.bm), Cdiv(p.N, t.bn), t.groupM);
            var stores := TileStores(p, t, pid);
            && (forall x :: x in stores <==>
                  && 0 <= x.0 < p.M && 0 <= x.1 < p.N
                  && tm * t.bm <= x.0 < tm * t.bm + t.bm && tn * t.bn <= x.1 < tn * t.bn + t.bn)
            && forall x | x in stores :: stores[x] == Element(p, x.0, x.1)
  {
    forall x
      ensures x in TileStores(p, t, pid) <==>
              0 <= x.0 < p.M && 0 <= x.1 < p.N && InTile(p, t, pid, x.0, x.1)
    {
      assert x == (x.0, x.1);
    }
  }

  function Addr(strideC: nat): ((int, int)) -> int {
    (x: (int, int)) => x.0 * strideC + x.1
  }

  function AllStores(p: Problem, t: Tiling): int -> map<(int, int), real>
    requires Fits(p, t)
  {
    pid => TileStores(p, t, pid)
  }

  /** The whole launch: C holds the scaled product, and the gaps between its rows keep what
      they held. */
  method BlockScaledMm(p: Problem, t: Tiling, c: array<real>)
    requires Fits(p, t) && c.Length >= p.M * p.strideC
    modifies c
    ensures forall m, n | 0 <= m < p.M && 0 <= n < p.N ::
              0 <= m * p.strideC + n < c.Length && c[m * p.strideC + n] == Element(p, m, n)
    ensures forall a | 0 <= a < c.Length && (a / p.strideC >= p.M || a % p.strideC >= p.N) :: c[a] == old(c[a])
  {
    LaunchFits(p, t, c.Length);
    forall m, n ensures Addr(p.strideC)((m, n)) == m * p.strideC + n {}
    hide Element, Addr, Disjoint, InBounds, Ran, Pids, TileStores;
    ghost var was := c[..];
    var todo := Pids(p, t);
    NoneRan(Pids(p, t), AllStores(p, t), Addr(p.strideC), was);
    while todo != {}
      invariant todo <= Pids(p, t) && Ran(Pids(p, t), todo, AllStores(p, t), Addr(p.strideC), was, c[..])
      decreases todo
    {
      var q :| q in todo;
      IsProgram(p, t, q);
      var mine := Program(p, t, q);
      CommitOne(Pids(p, t), todo, AllStores(p, t), q, mine, Addr(p.strideC), was, c);
      todo := todo - {q};
    }
    AllRan(Pids(p, t), AllStores(p, t), Addr(p.strideC), was, c[..]);
    forall m, n | 0 <= m < p.M && 0 <= n < p.N
      ensures 0 <= m * p.strideC + n < c.Length && c[m * p.strideC + n] == Element(p, m, n)
    {
      ElementStored(p, t, m, n);
      assert c[..][Addr(p.strideC)((m, n))] == Element(p, m, n);
    }
    forall a | 0 <= a < c.Length && (a / p.strideC >= p.M || a % p.strideC >= p.N)
      ensures c[a] == was[a]
    {
      GapUnstored(p, t, a);
    }
  }

  lemma GapUnstored(p: Problem, t: Tiling, a: int)
    requires Fits(p, t) && (a / p.strideC >= p.M || a % p.strideC >= p.N)
    ensures forall q, x | q in Pids(p, t) && x in AllStores(p, t)(q) :: Addr(p.strideC)(x) != a
  {
    forall q, x | q in Pids(p, t) && x in AllStores(p, t)(q)
      ensures Addr(p.strideC)(x) != a
    {
      GapIsNoCell(x.0, x.1, p.M, p.N, p.strideC, a);
    }
  }

  lemma IsProgram(p: Problem, t: Tiling, pid: int)
    requires Fits(p, t) && pid in Pids(p, t)
    ensures IsPid(p, t, pid) && AllStores(p, t)(pid) == TileStores(p, t, pid)
  {
  }

  lemma ElementStored(p: Problem, t: Tiling, m: int, n: int)
    requires Fits(p, t) && 0 <= m < p.M && 0 <= n < p.N
    ensures exists pid :: pid in Pids(p, t) && (m, n) in AllStores(p, t)(pid)
                          && AllStores(p, t)(pid)[(m, n)] == Element(p, m, n)
  {
    var owner := OneProgramPerElement(p, t, m, n);
    assert owner in Pids(p, t) && (m, n) in AllStores(p, t)(owner);
  }

  lemma LaunchFits(p: Problem, t: Tiling, length: int)
    requires Fits(p, t) && length >= p.M * p.strideC
    ensures Disjoint(Pids(p, t), AllStores(p, t), Addr(p.strideC))
    ensures InBounds(Pids(p, t), AllStores(p, t), Addr(p.strideC), length)
  {
    var (stores, addr) := (AllStores(p, t), Addr(p.strideC));
    forall q, r, x, y | q in Pids(p, t) && r in Pids(p, t) && x in stores(q) && y in stores(r) && addr(x) == addr(y)
      ensures q == r && x == y
    {
      RowMajorUnique(x.0, x.1, y.0, y.1, p.strideC);
      var owner := OneProgramPerElement(p, t, x.0, x.1);
    }
    forall q, x | q in Pids(p, t) && x in stores(q)
      ensures 0 <= addr(x) < length
    {
      RowMajorInside(x.0, x.1, p.M, p.strideC);
    }
  }

  // ----- the measured configurations -----

  /** A row of a bucket table: the largest M it serves (none: any) and its tile, if any. */
  datatype Bucket = Bucket(maxM: int, tile: Tile)
  datatype Tile = NoTile | Tile(bm: nat, bn: nat, bk: nat)

  const ANY := -1
  const K5120_CLASS := [Bucket(64, Tile(32, 64, 256)), Bucket(512, Tile(32, 64, 128)), Bucket(ANY, Tile(64, 64, 64))]
  const K1024_CLASS := [Bucket(64, Tile(32, 64, 64)), Bucket(256, Tile(64, 64, 128)), Bucket(1024, NoTile),
                        Bucket(ANY, Tile(64, 64, 64))]
  const SHAPE_5120_288 := [Bucket(64, Tile(32, 64, 64)), Bucket(1024, NoTile), Bucket(ANY, Tile(64, 64, 32))]
  const SHAPE_25600_6144 := [Bucket(16, Tile(32, 64, 32)), Bucket(128, Tile(64, 64, 32)), Bucket(ANY, Tile(64, 64, 64))]

  function Buckets(n: nat, k: nat): seq<Bucket> {
    match (n, k)
    case (1792, 5120) => K5120_CLASS
    case (576, 5120) => K5120_CLASS
    case (1024, 4096) => K5120_CLASS
    case (4096, 1280) => K1024_CLASS
    case (5120, 1024) => K1024_CLASS
    case (5120, 288) => SHAPE_5120_288
    case (25600, 6144) => SHAPE_25600_6144
    case _ => []
  }

  function FirstBucket(buckets: seq<Bucket>, m: nat): Tile {
    if buckets == [] then NoTile
    else if buckets[0].maxM == ANY || m <= buckets[0].maxM then buckets[0].tile
    else FirstBucket(buckets[1..], m)
  }

  const GROUP_SIZE_M := 8

  /** Every launch the gate admits meets what the kernel relies on: with the K tile raised to
      at least one scale group, it is a whole number of scale groups. */
  lemma AdmittedFits(p: Problem)
    requires p.M > 0 && p.groupK in {16, 32, 64} && p.groupN in {16, 32, 64, 128} && p.strideC >= p.N
    requires FirstBucket(Buckets(p.N, p.K), p.M).Tile?
    ensures var tile := FirstBucket(Buckets(p.N, p.K), p.M);
            Fits(p, Tiling(tile.bm, tile.bn, if tile.bk >= p.groupK then tile.bk else p.groupK, GROUP_SIZE_M))
  {
    var tile := FirstBucket(Buckets(p.N, p.K), p.M);
    BucketTiles(Buckets(p.N, p.K), p.M);
    var bk := if tile.bk >= p.groupK then tile.bk else p.groupK;
    assert bk in {32, 64, 128, 256} || bk == p.groupK;
    assert bk % p.groupK == 0 by {
      assert 32 % 16 == 0 && 64 % 16 == 0 && 128 % 16 == 0 && 256 % 16 == 0;
      assert 64 % 32 == 0 && 128 % 32 == 0 && 256 % 32 == 0 && 128 % 64 == 0 && 256 % 64 == 0;
    }
  }

  lemma {:induction false} BucketTiles(buckets: seq<Bucket>, m: nat)
    requires forall b | b in buckets && b.tile.Tile? ::
               b.tile.bm > 0 && b.tile.bn > 0 && b.tile.bk in {32, 64, 128, 256}
    ensures var t := FirstBucket(buckets, m); t.Tile? ==> t.bm > 0 && t.bn > 0 && t.bk in {32, 64, 128, 256}
  {
    if buckets != [] {
      assert buckets[0] in buckets;
      BucketTiles(buckets[1..], m);
    }
  }
}
