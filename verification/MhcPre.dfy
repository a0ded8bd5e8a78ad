/** The fused mHC pre kernels against the torch fallback, over exact reals with an abstract
    rounding to BF16. */
module MhcPre {
  import opened Arithmetic
  import opened MhcReduce
  import opened Sinkhorn

  const MIXES := 24
  const WARP := 32

  /** One token: its residual copies, the mixing weights and the parameters. */
  datatype Problem = Problem(
    hidden: nat, x: (int, int) -> real, fn: (int, int) -> real, scale: int -> real, base: int -> real,
    rmsEps: real, preEps: real, sinkEps: real, postMult: real, repeat: nat,
    weight: int -> real, normEps: real,
    exp: real -> real, sigmoid: real -> real, rsqrt: real -> real, round: real -> real)

  ghost predicate Supported(p: Problem) {
    && p.hidden > 0 && p.hidden % CHUNK == 0 && p.repeat > 0 && p.normEps > 0.0
    && IsExp(p.exp) && forall s | s > 0.0 :: p.rsqrt(s) * p.rsqrt(s) * s == 1.0
  }

  // ----- the torch fallback -----

  /** The copies laid end to end. */
  function Flat(p: Problem, i: int): real {
    if p.hidden == 0 then 0.0 else p.x(i / p.hidden, i % p.hidden)
  }

  function Products(p: Problem, j: int): int -> real {
    i => Flat(p, i) * p.fn(j, i)
  }

  function Squares(p: Problem): int -> real {
    i => Flat(p, i) * Flat(p, i)
  }

  function Rms(p: Problem): real {
    p.rsqrt(Quot(Sum(Squares(p), 0, HC * p.hidden), (HC * p.hidden) as real) + p.rmsEps)
  }

  function Times(x: real, y: real): real {
    x * y
  }

  function Mix(p: Problem, j: int): real {
    Times(Sum(Products(p, j), 0, HC * p.hidden), Rms(p))
  }

  function Affine(x: real, scale: real, base: real): real {
    x * scale + base
  }

  function PreOf(p: Problem, mix: real, j: int): real {
    p.sigmoid(Affine(mix, p.scale(0), p.base(j))) + p.preEps
  }

  function PreMix(p: Problem, j: int): real {
    PreOf(p, Mix(p, j), j)
  }

  function PostMix(p: Problem, j: int): real {
    p.sigmoid(Affine(Mix(p, HC + j), p.scale(1), p.base(HC + j))) * p.postMult
  }

  function Logits(p: Problem): Mat {
    (j, k) => Affine(Mix(p, j * HC + k + HC * 2), p.scale(2), p.base(j * HC + k + HC * 2))
  }

  function Comb(p: Problem): Mat
    requires p.repeat > 0
  {
    Sinkhorn.Fallback(p.exp, Logits(p), p.sinkEps, p.repeat)
  }

  function Copies(p: Problem, pre: int -> real, h: int): int -> real {
    j => pre(j) * p.x(j, h)
  }

  /** The copies weighted by a pre-mix, rounded. */
  function LayerInput(p: Problem, pre: int -> real, h: int): real {
    p.round(Sum(Copies(p, pre, h), 0, HC))
  }

  function LayerSquares(p: Problem, pre: int -> real): int -> real {
    h => LayerInput(p, pre, h) * LayerInput(p, pre, h)
  }

  function MeanSquare(p: Problem, pre: int -> real): real {
    Quot(Sum(LayerSquares(p, pre), 0, p.hidden), p.hidden as real) + p.normEps
  }

  function Scale(p: Problem, v: real, rrms: real, h: int): real {
    p.round(Times(Times(v, rrms), p.weight(h)))
  }

  /** The weighted RMSNorm of the layer input. */
  function Normed(p: Problem, pre: int -> real, h: int): real {
    Scale(p, LayerInput(p, pre, h), p.rsqrt(MeanSquare(p, pre)), h)
  }

  // ----- the fallback, copy by copy -----

  function CopyTerms(p: Problem, j: int, c: int): int -> real {
    h => p.x(c, h) * p.fn(j, c * p.hidden + h)
  }

  function CopySquares(p: Problem, c: int): int -> real {
    h => p.x(c, h) * p.x(c, h)
  }

  /** Mixing row `j` times the residual, a copy after another. */
  function Dot(p: Problem, j: int): real {
    Sum(CopyTerms(p, j, 0), 0, p.hidden) + Sum(CopyTerms(p, j, 1), 0, p.hidden)
    + Sum(CopyTerms(p, j, 2), 0, p.hidden) + Sum(CopyTerms(p, j, 3), 0, p.hidden)
  }

  function Square(p: Problem): real {
    Sum(CopySquares(p, 0), 0, p.hidden) + Sum(CopySquares(p, 1), 0, p.hidden)
    + Sum(CopySquares(p, 2), 0, p.hidden) + Sum(CopySquares(p, 3), 0, p.hidden)
  }

  lemma FlatAt(p: Problem, c: int, h: int)
    requires 0 <= h < p.hidden
    ensures Flat(p, c * p.hidden + h) == p.x(c, h)
  {
    DivModUnique(c * p.hidden + h, p.hidden, c, h);
  }

  lemma OneDot(p: Problem, j: int, c: int, base: int)
    requires base == c * p.hidden
    ensures Sum(Products(p, j), base, base + p.hidden) == Sum(CopyTerms(p, j, c), 0, p.hidden)
  {
    var shifted := MhcReduce.Shifted(Products(p, j), base);
    forall h | 0 <= h < p.hidden ensures shifted(h) == CopyTerms(p, j, c)(h) { FlatAt(p, c, h); }
    SumShifted(Products(p, j), base, p.hidden);
    hide Flat;
    SumSame(shifted, CopyTerms(p, j, c), 0, p.hidden);
  }

  lemma OneSquare(p: Problem, c: int, base: int)
    requires base == c * p.hidden
    ensures Sum(Squares(p), base, base + p.hidden) == Sum(CopySquares(p, c), 0, p.hidden)
  {
    var shifted := MhcReduce.Shifted(Squares(p), base);
    forall h | 0 <= h < p.hidden ensures shifted(h) == CopySquares(p, c)(h) { FlatAt(p, c, h); }
    SumShifted(Squares(p), base, p.hidden);
    hide Flat;
    SumSame(shifted, CopySquares(p, c), 0, p.hidden);
  }

  lemma Quarters(f: int -> real, n: nat)
    ensures Sum(f, 0, HC * n) == Sum(f, 0, n) + Sum(f, n, n + n) + Sum(f, 2 * n, 2 * n + n) + Sum(f, 3 * n, 3 * n + n)
  {
    hide Sum;
    SumSplit(f, 0, n, HC * n);
    SumSplit(f, n, 2 * n, HC * n);
    SumSplit(f, 2 * n, 3 * n, HC * n);
  }

  /** The flattened sums are those of the four copies. */
  lemma FlatSums(p: Problem, j: int)
    ensures Sum(Products(p, j), 0, HC * p.hidden) == Dot(p, j)
    ensures Sum(Squares(p), 0, HC * p.hidden) == Square(p)
  {
    hide Sum, CopyTerms, CopySquares, Products, Squares;
    var n := p.hidden;
    Quarters(Products(p, j), n);
    Quarters(Squares(p), n);
    OneDot(p, j, 0, 0);
    OneDot(p, j, 1, n);
    OneDot(p, j, 2, 2 * n);
    OneDot(p, j, 3, 3 * n);
    OneSquare(p, 0, 0);
    OneSquare(p, 1, n);
    OneSquare(p, 2, 2 * n);
    OneSquare(p, 3, 3 * n);
  }

  /** `Dot(i)` over the root mean square of the residual. */
  lemma MixIsDot(p: Problem, i: int, rms: real)
    requires p.hidden > 0 && rms == p.rsqrt(Square(p) / (4 * p.hidden) as real + p.rmsEps)
    ensures Mix(p, i) == Dot(p, i) * rms
  {
    hide Sum, Products, Squares, Dot, Square;
    FlatSums(p, i);
  }

  /** The mixes by their formulas: of the 24 products, each over the root mean square of the residual,
      4 make the pre-mix, ... */
  lemma PreMixIs(p: Problem, rms: real, j: int, mix: real)
    requires p.hidden > 0 && 0 <= j < 4 && rms == p.rsqrt(Square(p) / (4 * p.hidden) as real + p.rmsEps)
    requires mix == Dot(p, j) * rms * p.scale(0) + p.base(j)
    ensures PreMix(p, j) == p.sigmoid(mix) + p.preEps
  {
    hide Mix, Dot, Square;
    MixIsDot(p, j, rms);
  }

  /** ... 4 the post-mix ... */
  lemma PostMixIs(p: Problem, rms: real, j: int, mix: real)
    requires p.hidden > 0 && 0 <= j < 4 && rms == p.rsqrt(Square(p) / (4 * p.hidden) as real + p.rmsEps)
    requires mix == Dot(p, 4 + j) * rms * p.scale(1) + p.base(4 + j)
    ensures PostMix(p, j) == p.sigmoid(mix) * p.postMult
  {
    hide Mix, Dot, Square;
    var i := 4 + j;
    MixIsDot(p, i, rms);
    assert Affine(Mix(p, i), p.scale(1), p.base(i)) == mix;
  }

  /** ... and 16 the combination matrix before it is normalised, row by row. */
  lemma LogitIs(p: Problem, rms: real, j: int, k: int)
    requires p.hidden > 0 && 0 <= j < 4 && 0 <= k < 4
    requires rms == p.rsqrt(Square(p) / (4 * p.hidden) as real + p.rmsEps)
    ensures Logits(p)(j, k) == Dot(p, 8 + 4 * j + k) * rms * p.scale(2) + p.base(8 + 4 * j + k)
  {
    hide Mix, Dot, Square;
    var i := 8 + 4 * j + k;
    MixIsDot(p, i, rms);
    assert Logits(p)(j, k) == Affine(Mix(p, i), p.scale(2), p.base(i));
  }

  lemma InputIs(p: Problem, pre: seq<real>, h: int, total: real)
    requires |pre| == 4
    requires total == Times(pre[0], p.x(0, h)) + Times(pre[1], p.x(1, h)) + Times(pre[2], p.x(2, h)) + Times(pre[3], p.x(3, h))
    ensures LayerInput(p, FourOf(pre), h) == p.round(total)
  {
    var f := Copies(p, FourOf(pre), h);
    FourTerms(f);
    hide Sum;
    forall j | 0 <= j < 4 ensures f(j) == Times(pre[j], p.x(j, h)) { assert FourOf(pre)(j) == pre[j]; }
    assert f(0) == Times(pre[0], p.x(0, h)) && f(1) == Times(pre[1], p.x(1, h));
    assert f(2) == Times(pre[2], p.x(2, h)) && f(3) == Times(pre[3], p.x(3, h));
    hide Times;
    assert Sum(f, 0, HC) == total;
  }

  lemma FourTerms(f: int -> real)
    ensures Sum(f, 0, 4) == f(0) + f(1) + f(2) + f(3)
  {
    assert Sum(f, 0, 1) == Sum(f, 0, 0) + f(0);
    assert Sum(f, 0, 2) == Sum(f, 0, 1) + f(1);
    assert Sum(f, 0, 3) == Sum(f, 0, 2) + f(2);
    assert Sum(f, 0, 4) == Sum(f, 0, 3) + f(3);
  }

  /** The layer input weighs the four copies by the pre-mix and rounds; normalised, it is divided by
      its own root mean square, weighted and rounded again. */
  lemma LayerIs(p: Problem, pre: seq<real>, total: int -> real, squares: int -> real, root: real, h: int, product: real)
    requires |pre| == 4 && p.hidden > 0
    requires forall i :: total(i) == Times(pre[0], p.x(0, i)) + Times(pre[1], p.x(1, i)) + Times(pre[2], p.x(2, i)) + Times(pre[3], p.x(3, i))
    requires forall i :: squares(i) == p.round(total(i)) * p.round(total(i))
    requires root == p.rsqrt(Sum(squares, 0, p.hidden) / p.hidden as real + p.normEps)
    requires product == p.round(total(h)) * root * p.weight(h)
    ensures LayerInput(p, FourOf(pre), h) == p.round(total(h)) && Normed(p, FourOf(pre), h) == p.round(product)
  {
    hide LayerInput, MeanSquare, Sum, Scale, Times, FourOf;
    forall i ensures LayerInput(p, FourOf(pre), i) == p.round(total(i)) { InputIs(p, pre, i, total(i)); }
    MeanIs(p, FourOf(pre), i => p.round(total(i)), squares);
    ScaleIs(p, p.round(total(h)), root, h, product);
  }

  lemma ScaleIs(p: Problem, v: real, rrms: real, h: int, product: real)
    requires product == v * rrms * p.weight(h)
    ensures Scale(p, v, rrms, h) == p.round(product)
  {
    var once := Times(v, rrms);
    assert Times(once, p.weight(h)) == product;
  }

  lemma MeanIs(p: Problem, pre: int -> real, input: int -> real, squares: int -> real)
    requires p.hidden > 0 && forall i :: squares(i) == input(i) * input(i) && LayerInput(p, pre, i) == input(i)
    ensures MeanSquare(p, pre) == Sum(squares, 0, p.hidden) / p.hidden as real + p.normEps
  {
    hide LayerInput, Sum;
    forall i ensures LayerSquares(p, pre)(i) == squares(i) { assert LayerInput(p, pre, i) == input(i); }
    SumSame(LayerSquares(p, pre), squares, 0, p.hidden);
  }

  // ----- the kernels -----

  /** What the split-K GEMM delivers: the splits of every column add up. */
  ghost predicate GemmParts(p: Problem, part: (int, int) -> real, n: nat) {
    && (forall col | 0 <= col < MIXES :: Sum(Column(part, col), 0, n) == Sum(Products(p, col), 0, HC * p.hidden))
    && Sum(Column(part, MIXES), 0, n) == Sum(Squares(p), 0, HC * p.hidden)
  }

  /** The column sums of a block, whichever kernel computed them. */
  ghost predicate HoldsSums(p: Problem, sums: seq<real>) {
    |sums| >= COLS && HoldsMixes(p, sums) && sums[MIXES] == Sum(Squares(p), 0, HC * p.hidden)
  }

  ghost predicate HoldsMixes(p: Problem, sums: seq<real>) {
    |sums| >= MIXES && forall j | 0 <= j < MIXES :: sums[j] == Sum(Products(p, j), 0, HC * p.hidden)
  }

  method BlockSums(p: Problem, part: (int, int) -> real, n: nat, delayed: bool) returns (sums: array<real>)
    requires GemmParts(p, part, n)
    ensures fresh(sums) && HoldsSums(p, sums[..])
  {
    sums := new real[COLS];
    if delayed {
      var shared := new real[GROUPS * COLS];
      ColumnSums(part, n, shared, sums);
    } else {
      var shared := new real[n * COLS];
      LoadedColumnSums(part, n, shared, sums);
    }
  }

  /** The reciprocal root mean square of a block that has the column sums. */
  function RmsFrom(p: Problem, sums: seq<real>): real
    requires |sums| >= COLS
  {
    p.rsqrt(Quot(sums[MIXES], (HC * p.hidden) as real) + p.rmsEps)
  }

  lemma RmsFromIs(p: Problem, sums: seq<real>)
    requires HoldsSums(p, sums)
    ensures RmsFrom(p, sums) == Rms(p)
  {
    hide Sum, Quot;
  }

  function FourOf(a: seq<real>): int -> real
    requires |a| == HC
  {
    j => if 0 <= j < HC then a[j] else 0.0
  }

  /** A Newton step on an exact reciprocal square root changes nothing. */
  lemma NewtonExact(r: real, s: real)
    requires r * r * s == 1.0
    ensures Newton(r, s) == r
  {
    assert s * r * r == r * r * s;
    assert 0.5 * s * r * r == 0.5 * (s * r * r);
  }

  lemma {:induction false} SquaresPositive(p: Problem, pre: int -> real, k: nat)
    ensures Sum(LayerSquares(p, pre), 0, k) >= 0.0
  {
    if k > 0 { SquaresPositive(p, pre, k - 1); }
  }

  lemma MeanPositive(p: Problem, pre: int -> real)
    requires p.hidden > 0 && p.normEps > 0.0
    ensures MeanSquare(p, pre) > 0.0
  {
    SquaresPositive(p, pre, p.hidden);
    QuotAtLeast(Sum(LayerSquares(p, pre), 0, p.hidden), p.hidden as real);
  }

  lemma QuotAtLeast(x: real, y: real)
    requires x >= 0.0 && y > 0.0
    ensures Quot(x, y) >= 0.0
  {
  }

  /** One element of the layer input, a copy at a time. */
  method Weighted(p: Problem, pre: seq<real>, h: int) returns (v: real)
    requires |pre| == HC
    ensures v == LayerInput(p, FourOf(pre), h)
  {
    v := 0.0;
    for j := 0 to HC
      invariant v == Sum(Copies(p, FourOf(pre), h), 0, j)
    {
      v := v + pre[j] * p.x(j, h);
    }
    v := p.round(v);
  }

  /** Thread, chunk and place of an element. */
  predicate Done(h: int, tx: int, chunk: int, elem: int) {
    h % CHUNK / PER_THREAD < tx
    || (h % CHUNK / PER_THREAD == tx && (h / CHUNK < chunk || (h / CHUNK == chunk && h % PER_THREAD < elem)))
  }

  /** The loops of 128 threads write every element of the row. */
  method StoreRow(p: Problem, pre: seq<real>, rrms: real, layer: array<real>)
    requires |pre| == HC && p.hidden % CHUNK == 0 && layer.Length == p.hidden
    modifies layer
    ensures forall h | 0 <= h < p.hidden :: layer[h] == Scaled(p, pre, rrms, h)
  {
    hide Scaled, Done;
    NoneDone(p.hidden);
    for tx := 0 to THREADS
      invariant forall h | 0 <= h < p.hidden && Done(h, tx, 0, 0) :: layer[h] == Scaled(p, pre, rrms, h)
    {
      for chunk := 0 to p.hidden / CHUNK
        invariant forall h | 0 <= h < p.hidden && Done(h, tx, chunk, 0) :: layer[h] == Scaled(p, pre, rrms, h)
      {
        for elem := 0 to PER_THREAD
          invariant forall h | 0 <= h < p.hidden && Done(h, tx, chunk, elem) :: layer[h] == Scaled(p, pre, rrms, h)
        {
          NextDone(p.hidden, tx, chunk, elem);
          var v := ScaledElement(p, pre, rrms, Element(chunk, tx, elem));
          layer[Element(chunk, tx, elem)] := v;
        }
        ChunkDone(p.hidden, tx, chunk);
      }
      ThreadDone(p.hidden, tx);
    }
    AllDone(p.hidden);
  }

  function Scaled(p: Problem, pre: seq<real>, rrms: real, h: int): real
    requires |pre| == HC
  {
    Scale(p, LayerInput(p, FourOf(pre), h), rrms, h)
  }

  method ScaledElement(p: Problem, pre: seq<real>, rrms: real, h: int) returns (v: real)
    requires |pre| == HC
    ensures v == Scaled(p, pre, rrms, h)
  {
    hide Scale, LayerInput;
    var value := Weighted(p, pre, h);
    v := Scale(p, value, rrms, h);
  }

  lemma NoneDone(hidden: nat)
    ensures forall h | 0 <= h < hidden :: !Done(h, 0, 0, 0)
  {
  }

  lemma NextDone(hidden: nat, tx: int, chunk: int, elem: int)
    requires hidden % CHUNK == 0 && 0 <= tx < THREADS && 0 <= chunk < hidden / CHUNK && 0 <= elem < PER_THREAD
    ensures 0 <= Element(chunk, tx, elem) < hidden
    ensures forall h | 0 <= h < hidden && Done(h, tx, chunk, elem + 1) :: Done(h, tx, chunk, elem) || h == Element(chunk, tx, elem)
  {
    DivModSpec(hidden, CHUNK);
    forall h | 0 <= h < hidden && Done(h, tx, chunk, elem + 1) && !Done(h, tx, chunk, elem)
      ensures h == Element(chunk, tx, elem)
    {
      OnlyNext(h, tx, chunk, elem);
    }
  }

  lemma OnlyNext(h: nat, tx: int, chunk: int, elem: int)
    requires Done(h, tx, chunk, elem + 1) && !Done(h, tx, chunk, elem)
    ensures h == Element(chunk, tx, elem)
  {
    assert h / CHUNK == chunk && h % CHUNK / PER_THREAD == tx && h % PER_THREAD == elem;
  }

  lemma ChunkDone(hidden: nat, tx: int, chunk: int)
    ensures forall h | 0 <= h < hidden && Done(h, tx, chunk + 1, 0) :: Done(h, tx, chunk, PER_THREAD)
  {
  }

  lemma ThreadDone(hidden: nat, tx: int)
    requires hidden % CHUNK == 0
    ensures forall h | 0 <= h < hidden && Done(h, tx + 1, 0, 0) :: Done(h, tx, hidden / CHUNK, 0)
  {
  }

  lemma AllDone(hidden: nat)
    ensures forall h | 0 <= h < hidden :: Done(h, THREADS, 0, 0)
  {
  }

  /** The layer-input block: the sum of squares by the thread tree, the reciprocal root with a
      Newton step, and the normalised row. */
  method LayerBlock(p: Problem, pre: seq<real>) returns (layer: array<real>)
    requires Supported(p) && |pre| == HC
    ensures fresh(layer) && IsNormed(p, FourOf(pre), layer[..])
  {
    hide Supported, IsNormed, Scaled, MeanSquare;
    SupportedHidden(p);
    var rrms := ReciprocalRoot(p, pre);
    layer := new real[p.hidden];
    StoreRow(p, pre, rrms, layer);
    ScaledRowIsNormed(p, pre, rrms, layer[..]);
  }

  lemma SupportedHidden(p: Problem)
    requires Supported(p)
    ensures p.hidden % CHUNK == 0 && p.repeat > 0
  {
  }

  method ReciprocalRoot(p: Problem, pre: seq<real>) returns (rrms: real)
    requires Supported(p) && |pre| == HC
    ensures rrms == p.rsqrt(MeanSquare(p, FourOf(pre)))
  {
    hide Supported, LayerSquares, Sum, Quot;
    SupportedHidden(p);
    var x := new real[THREADS];
    var shared := new real[THREADS];
    MhcReduce.RowSum(LayerSquares(p, FourOf(pre)), p.hidden / CHUNK, x, shared);
    WholeChunks(p.hidden);
    var s := Quot(shared[0], p.hidden as real) + p.normEps;
    assert s == MeanSquare(p, FourOf(pre));
    rrms := Newton(p.rsqrt(s), s);
    RootExact(p, FourOf(pre), s, rrms);
  }

  function Newton(estimate: real, s: real): real {
    estimate * (1.5 - 0.5 * s * estimate * estimate)
  }

  lemma WholeChunks(hidden: nat)
    requires hidden % CHUNK == 0
    ensures hidden / CHUNK * CHUNK == hidden
  {
  }

  lemma ScaledRowIsNormed(p: Problem, pre: seq<real>, rrms: real, layer: seq<real>)
    requires |pre| == HC && |layer| == p.hidden && rrms == p.rsqrt(MeanSquare(p, FourOf(pre)))
    requires forall h | 0 <= h < p.hidden :: layer[h] == Scaled(p, pre, rrms, h)
    ensures IsNormed(p, FourOf(pre), layer)
  {
    hide Scale, MeanSquare, LayerInput;
  }

  ghost predicate IsNormed(p: Problem, pre: int -> real, layer: seq<real>) {
    |layer| == p.hidden && forall h | 0 <= h < p.hidden :: layer[h] == Normed(p, pre, h)
  }

  lemma RootExact(p: Problem, pre: int -> real, s: real, rrms: real)
    requires Supported(p) && s == MeanSquare(p, pre)
    requires rrms == Newton(p.rsqrt(s), s)
    ensures rrms == p.rsqrt(MeanSquare(p, pre))
  {
    MeanPositive(p, pre);
    NewtonExact(p.rsqrt(s), s);
  }

  // ----- the mixes block -----

  /** The post mixes and the combination matrix, row by row. */
  ghost predicate AreMixes(p: Problem, post: seq<real>, comb: seq<real>)
    requires p.repeat > 0
  {
    && |post| == HC && |comb| == HC * HC
    && (forall j | 0 <= j < HC :: post[j] == PostMix(p, j))
    && (forall i | 0 <= i < HC * HC :: comb[i] == Comb(p)(i / 4, i % 4))
  }

  method PostMixes(p: Problem, mixes: array<real>) returns (post: array<real>)
    requires mixes.Length == MIXES && forall j | 0 <= j < MIXES :: mixes[j] == Mix(p, j)
    ensures fresh(post) && post.Length == HC && forall j | 0 <= j < HC :: post[j] == PostMix(p, j)
  {
    hide Mix, Affine;
    post := new real[HC];
    for j := 0 to HC
      invariant forall i | 0 <= i < j :: post[i] == PostMix(p, i)
    {
      assert mixes[j + HC] == Mix(p, HC + j);
      post[j] := p.sigmoid(Affine(mixes[j + HC], p.scale(1), p.base(j + HC))) * p.postMult;
    }
  }

  method LoadLogits(p: Problem, mixes: array<real>) returns (cm: array2<real>)
    requires mixes.Length == MIXES && forall j | 0 <= j < MIXES :: mixes[j] == Mix(p, j)
    ensures fresh(cm) && Holds(cm, Logits(p))
  {
    hide Mix, Affine;
    cm := new real[HC, HC];
    forall j, k | 0 <= j < HC && 0 <= k < HC {
      cm[j, k] := Affine(mixes[j * HC + k + HC * 2], p.scale(2), p.base(j * HC + k + HC * 2));
    }
  }

  method StoreComb(cm: array2<real>, ghost m: Mat) returns (comb: array<real>)
    requires Holds(cm, m)
    ensures fresh(comb) && comb.Length == HC * HC
    ensures forall i | 0 <= i < HC * HC :: comb[i] == m(i / 4, i % 4)
  {
    comb := new real[HC * HC];
    forall i | 0 <= i < HC * HC { comb[i] := cm[i / HC, i % HC]; }
  }

  /** The mixes of a block that has the column sums and their root mean square. */
  method MixesBlock(p: Problem, sums: array<real>, rms: real) returns (post: array<real>, comb: array<real>)
    requires Supported(p) && HoldsMixes(p, sums[..]) && rms == Rms(p)
    ensures fresh(post) && fresh(comb) && AreMixes(p, post[..], comb[..])
  {
    hide Mix, Rms, PostMix, Comb, Logits, Holds, IsExp;
    var mixes := new real[MIXES];
    for j := 0 to MIXES
      invariant forall i | 0 <= i < j :: mixes[i] == Mix(p, i)
    {
      MixIs(p, j, sums[j], rms);
      assert sums[..][j] == sums[j];
      mixes[j] := Times(sums[j], rms);
    }
    post := PostMixes(p, mixes);
    var cm := LoadLogits(p, mixes);
    var lines := new real[HC];
    Normalise(p.exp, cm, lines, p.sinkEps, p.repeat, Logits(p));
    CombIs(p);
    comb := StoreComb(cm, Comb(p));
  }

  lemma MixIs(p: Problem, j: int, sum: real, rms: real)
    requires rms == Rms(p)
    ensures sum == Sum(Products(p, j), 0, HC * p.hidden) ==> Times(sum, rms) == Mix(p, j)
  {
  }

  lemma CombIs(p: Problem)
    requires p.repeat > 0
    ensures Comb(p) == Fallback(p.exp, Logits(p), p.sinkEps, p.repeat)
  {
  }

  // ----- the three kernels -----

  method PreMixes(p: Problem, sums: array<real>) returns (pre: array<real>)
    requires HoldsSums(p, sums[..])
    ensures fresh(pre) && pre.Length == HC && forall j | 0 <= j < HC :: pre[j] == PreMix(p, j)
  {
    hide HoldsSums, HoldsMixes, PreOf, PreMix, Times, RmsFrom, Rms, Sum;
    EnoughSums(p, sums[..]);
    pre := new real[HC];
    for j := 0 to HC
      invariant forall i | 0 <= i < j :: pre[i] == PreMix(p, i)
    {
      RmsFromIs(p, sums[..]);
      PreFromSums(p, sums[..], RmsFrom(p, sums[..]), j);
      pre[j] := PreOf(p, Times(sums[j], RmsFrom(p, sums[..])), j);
    }
  }

  /** A warp sums the squares of the splits, 32 at a time. */
  method WarpRms(p: Problem, part: (int, int) -> real, n: nat) returns (rms: real)
    requires GemmParts(p, part, n)
    ensures rms == Rms(p)
  {
    hide Sum, Quot;
    var squares := WarpSquares(part, n);
    rms := p.rsqrt(Quot(squares, (HC * p.hidden) as real) + p.rmsEps);
  }

  method WarpSquares(part: (int, int) -> real, n: nat) returns (sum: real)
    ensures sum == Sum(Column(part, MIXES), 0, n)
  {
    if n == 1 {
      sum := part(0, MIXES);
      OneSplit(Column(part, MIXES));
    } else {
      sum := 0.0;
      for lane := 0 to WARP
        invariant sum == Sum(Strided(Masked(Column(part, MIXES), n), WARP, Cdiv(n, WARP)), 0, lane)
      {
        var mine := LaneSum(part, n, lane);
        sum := sum + mine;
      }
      WarpSumIsPlain(Column(part, MIXES), n);
    }
  }

  lemma OneSplit(f: int -> real)
    ensures Sum(f, 0, 1) == f(0)
  {
  }

  method LaneSum(part: (int, int) -> real, n: nat, lane: nat) returns (sum: real)
    ensures sum == GroupSum(Masked(Column(part, MIXES), n), WARP, lane, Cdiv(n, WARP))
  {
    sum := 0.0;
    for it := 0 to Cdiv(n, WARP)
      invariant sum == GroupSum(Masked(Column(part, MIXES), n), WARP, lane, it)
    {
      if it * WARP + lane < n { sum := sum + part(it * WARP + lane, MIXES); }
    }
  }

  /** The delayed decode kernel: the layer input uses the carried pre-mix, the fallback's
      pre-mix goes out for the next sublayer, and both mixes are the fallback's, whatever the
      number of splits. */
  method DelayedDecode(p: Problem, part: (int, int) -> real, n: nat, carried: seq<real>)
    returns (post: array<real>, comb: array<real>, layer: array<real>, next: array<real>)
    requires Supported(p) && GemmParts(p, part, n) && |carried| == HC
    ensures p.repeat > 0 && AreMixes(p, post[..], comb[..])
    ensures IsNormed(p, FourOf(carried), layer[..])
    ensures next.Length == HC && forall j | 0 <= j < HC :: next[j] == PreMix(p, j)
  {
    hide Supported, GemmParts, HoldsSums, IsNormed, AreMixes, PreMix, Rms, RmsFrom;
    SupportedHidden(p);
    var sums := BlockSums(p, part, n, true);
    next := PreMixes(p, sums);
    layer := LayerBlock(p, carried);
    var others := BlockSums(p, part, n, true);
    RmsFromIs(p, others[..]);
    EnoughSums(p, others[..]);
    post, comb := MixesBlock(p, others, RmsFrom(p, others[..]));
  }

  lemma EnoughSums(p: Problem, sums: seq<real>)
    requires HoldsSums(p, sums)
    ensures |sums| >= COLS && HoldsMixes(p, sums)
  {
  }

  /** The decode kernel normalises with the fallback's own pre-mix. */
  method Decode(p: Problem, part: (int, int) -> real, n: nat)
    returns (post: array<real>, comb: array<real>, layer: array<real>)
    requires Supported(p) && GemmParts(p, part, n)
    ensures p.repeat > 0 && AreMixes(p, post[..], comb[..])
    ensures IsNormed(p, FourOf(PreMixRow(p)), layer[..])
  {
    hide Supported, GemmParts, HoldsSums, IsNormed, AreMixes, PreMix, Rms, RmsFrom, FourOf;
    SupportedHidden(p);
    var sums := BlockSums(p, part, n, false);
    var pre := PreMixes(p, sums);
    assert pre[..] == PreMixRow(p);
    layer := LayerBlock(p, pre[..]);
    var others := BlockSums(p, part, n, false);
    EnoughSums(p, others[..]);
    var rms := WarpRms(p, part, n);
    post, comb := MixesBlock(p, others, rms);
  }

  /** The fallback's pre-mix. */
  function PreMixRow(p: Problem): (r: seq<real>)
    ensures |r| == HC
  {
    seq(HC, j => PreMix(p, j))
  }

  /** Every mix summed over the splits in order. */
  method SerialSums(p: Problem, part: (int, int) -> real, n: nat) returns (sums: array<real>)
    requires GemmParts(p, part, n)
    ensures fresh(sums) && sums.Length == MIXES && HoldsMixes(p, sums[..])
  {
    hide Products;
    sums := new real[MIXES];
    for j := 0 to MIXES
      invariant forall i | 0 <= i < j :: sums[i] == Sum(Column(part, i), 0, n)
    {
      var sum := 0.0;
      for s := 0 to n
        invariant sum == Sum(Column(part, j), 0, s)
      {
        sum := sum + part(s, j);
      }
      sums[j] := sum;
    }
  }

  /** One block of the layer input: a fragment accumulates a copy at a time. */
  method LayerFragment(p: Problem, pre: seq<real>, base: int, block: nat) returns (layer: array<real>)
    requires |pre| == HC
    ensures fresh(layer) && layer.Length == block
    ensures forall i | 0 <= i < block :: p.round(layer[i]) == LayerInput(p, FourOf(pre), base + i)
  {
    hide Sum, Copies;
    layer := new real[block](_ => 0.0);
    CopySteps(p, pre);
    for hc := 0 to HC
      invariant forall i | 0 <= i < block :: layer[i] == CopySum(p, pre, base + i, hc)
    {
      forall i | 0 <= i < block { layer[i] := layer[i] + Times(pre[hc], p.x(hc, base + i)); }
    }
  }

  /** The first copies of an element, weighted. */
  function CopySum(p: Problem, pre: seq<real>, h: int, count: nat): real
    requires |pre| == HC
  {
    Sum(Copies(p, FourOf(pre), h), 0, count)
  }

  lemma CopySteps(p: Problem, pre: seq<real>)
    requires |pre| == HC
    ensures forall h :: CopySum(p, pre, h, 0) == 0.0
    ensures forall h, hc | 0 <= hc < HC :: CopySum(p, pre, h, hc + 1) == CopySum(p, pre, h, hc) + Times(pre[hc], p.x(hc, h))
  {
  }

  /** The unfused layer input, a block of the row after another. */
  method LayerInputBlocks(p: Problem, pre: seq<real>, block: nat) returns (layer: array<real>)
    requires |pre| == HC && block > 0 && p.hidden % block == 0
    ensures layer.Length == p.hidden && forall h | 0 <= h < p.hidden :: layer[h] == LayerInput(p, FourOf(pre), h)
  {
    hide LayerInput;
    layer := new real[p.hidden];
    DivModSpec(p.hidden, block);
    for b := 0 to p.hidden / block
      invariant forall h | 0 <= h < b * block && h < p.hidden :: layer[h] == LayerInput(p, FourOf(pre), h)
    {
      var part := LayerFragment(p, pre, b * block, block);
      MulMono(b + 1, p.hidden / block, block);
      var base := b * block;
      forall i | 0 <= i < block { layer[base + i] := p.round(part[i]); }
      assert (b + 1) * block == base + block;
    }
  }

  /** The prefill kernel computes the fallback itself: both mixes and the layer input. */
  method BigFuse(p: Problem, part: (int, int) -> real, n: nat, block: nat)
    returns (post: array<real>, comb: array<real>, layer: array<real>)
    requires Supported(p) && GemmParts(p, part, n) && block > 0 && p.hidden % block == 0
    ensures p.repeat > 0 && AreMixes(p, post[..], comb[..])
    ensures layer.Length == p.hidden && forall h | 0 <= h < p.hidden :: layer[h] == LayerInput(p, FourOf(PreMixRow(p)), h)
  {
    hide Supported, GemmParts, HoldsMixes, AreMixes, PreMix, PreOf, Times, Rms, FourOf, LayerInput;
    SupportedHidden(p);
    var rms := WarpRms(p, part, n);
    var sums := SerialSums(p, part, n);
    ghost var row := sums[..];
    var pre := new real[HC];
    for j := 0 to HC
      invariant sums[..] == row
      invariant forall i | 0 <= i < j :: pre[i] == PreMix(p, i)
    {
      PreFromSums(p, sums[..], rms, j);
      pre[j] := PreOf(p, Times(sums[j], rms), j);
    }
    post, comb := MixesBlock(p, sums, rms);
    assert pre[..] == PreMixRow(p);
    layer := LayerInputBlocks(p, pre[..], block);
  }

  lemma PreFromSums(p: Problem, sums: seq<real>, rms: real, j: nat)
    requires rms == Rms(p) && HoldsMixes(p, sums) && j < HC
    ensures |sums| >= MIXES && PreOf(p, Times(sums[j], rms), j) == PreMix(p, j)
  {
    hide Rms, PreOf, Times, Sum;
    assert Times(sums[j], rms) == Mix(p, j);
  }
}
