/** Over exact reals the four launches of the small-token MoE are two GEMVs with the SwiGLU
    quantization between them. */
module MoeExact {
  import opened Arithmetic
  import opened RouteMap
  import opened MoeMma
  import V = BlockGemv

  /** The layer over the reals: the gate/up GEMV, the quantization of the clamped SwiGLU of 32 gates
      and 32 ups, and the down weight with its scales. */
  datatype Layer = Layer(
    up: V.Problem,
    code: (seq<real>, seq<real>, int) -> real, scale: (seq<real>, seq<real>) -> real,
    b: (int, int, int) -> real, bScale: (int, int, int) -> real, groupN: nat, groupK: nat, weight: int -> real)

  function IdOf(p: Problem): int -> int {
    r => if 0 <= r < |p.ro.ids| then p.ro.ids[r] else -1
  }

  /** The gate/up GEMV has one output row per routed row, not yet weighted. */
  ghost predicate IsUp(p: Problem, l: Layer) {
    && V.Sized(l.up) && l.up.N == N1(p) && l.up.K == p.hidden && l.up.slots == 1 && l.up.perToken == p.topK
    && l.up.experts == p.ro.E && l.up.ids == IdOf(p) && (forall r :: l.up.weight(r) == 1.0) && (forall x :: l.up.round(x) == x)
  }

  /** 32 columns of the gate/up GEMV's output row `r`. */
  function Columns(l: Layer, r: int, first: int): seq<real>
    requires V.Sized(l.up)
  {
    seq(32, (j: int) => V.Out(l.up, r, first + j))
  }

  function CodeAt(p: Problem, l: Layer): (int, int) -> real
    requires V.Sized(l.up)
  {
    (r, k) => l.code(Columns(l, r, k / 32 * 32), Columns(l, r, p.inter + k / 32 * 32), k % 32)
  }

  function ScaleAt(p: Problem, l: Layer): (int, int) -> real
    requires V.Sized(l.up)
  {
    (r, c) => l.scale(Columns(l, r, c * 32), Columns(l, r, p.inter + c * 32))
  }

  /** The down GEMV: a row of codes per routed row, one scale per 32 of them. */
  function DownGemv(p: Problem, l: Layer): V.Problem
    requires p.topK > 0 && V.Sized(l.up)
  {
    V.Problem(p.hidden, p.inter, p.tokens, p.topK, 1, p.ro.E, IdOf(p), l.weight,
              CodeAt(p, l), ScaleAt(p, l), l.b, l.bScale, l.groupN, 32, l.groupK, p.strideOut, x => x)
  }

  function Values(val: F -> real, xs: seq<F>): seq<real> {
    seq(|xs|, i requires 0 <= i < |xs| => val(xs[i]))
  }

  /** What one quantized group adds to a dot, from its codes and scale. */
  function GroupTerms(l: Layer, codes: seq<real>, scale: real, e: int, n: int, c: int): int -> real
    requires l.groupN > 0 && l.groupK > 0
  {
    k => ((if 0 <= k - c * 32 < |codes| then codes[k - c * 32] else 0.0) * scale) *
         (l.b(e, n, k) * l.bScale(e, n / l.groupN, k / l.groupK))
  }

  /** The kernels' operations read as exact reals. */
  ghost predicate Exact(p: Problem, l: Layer, val: F -> real) {
    && Supported(p) && IsUp(p, l) && l.groupN > 0 && l.groupK > 0
    && Ring(p, val) && Dots1(p, l, val) && Quantizes(p, l, val) && Dots2(p, l, val)
    && forall r :: val(p.weight(r)) == l.weight(r)
  }

  ghost predicate Ring(p: Problem, val: F -> real) {
    && val(p.zero) == 0.0
    && (forall a, b :: val(p.add(a, b)) == val(a) + val(b))
    && (forall a, b :: val(p.mul(a, b)) == val(a) * val(b))
  }

  ghost predicate Dots1(p: Problem, l: Layer, val: F -> real)
    requires V.Sized(l.up)
  {
    forall tok, e, n, k | 0 <= k < p.hidden && k % 32 == 0 ::
      val(p.term1(tok, e, n, k)) == Sum(V.Terms(l.up, tok, e, n), k, k + 32)
  }

  ghost predicate Quantizes(p: Problem, l: Layer, val: F -> real) {
    && (forall g, u, j | |g| == |u| == 32 && 0 <= j < 32 :: val(p.code(g, u, j)) == l.code(Values(val, g), Values(val, u), j))
    && (forall g, u | |g| == |u| == 32 :: val(p.scale(g, u)) == l.scale(Values(val, g), Values(val, u)))
  }

  ghost predicate Dots2(p: Problem, l: Layer, val: F -> real)
    requires l.groupN > 0 && l.groupK > 0
  {
    forall codes, s, e, n, c | |codes| == 32 ::
      val(p.term2(codes, s, e, n, c)) == Sum(GroupTerms(l, Values(val, codes), val(s), e, n, c), c * 32, c * 32 + 32)
  }

  // ----- the gate/up projection -----

  lemma AddsUp(p: Problem, val: F -> real, a: F, b: F)
    requires Ring(p, val)
    ensures val(p.add(a, b)) == val(a) + val(b) && val(p.zero) == 0.0 && val(p.mul(a, b)) == val(a) * val(b)
  {
  }

  lemma GroupDot(p: Problem, l: Layer, val: F -> real, tok: int, e: int, n: int, k: int)
    requires V.Sized(l.up) && Dots1(p, l, val) && 0 <= k < p.hidden && k % 32 == 0
    ensures val(p.term1(tok, e, n, k)) == Sum(V.Terms(l.up, tok, e, n), k, k + 32)
  {
  }

  lemma {:induction false} SumOfGroups(p: Problem, l: Layer, val: F -> real, tok: int, e: int, n: int, start: int, count: nat)
    requires Ring(p, val) && V.Sized(l.up) && Dots1(p, l, val)
    requires 0 <= start && start % 32 == 0 && start + 32 * count <= p.hidden
    ensures val(Sum1(p, tok, e, n, start, count)) == Sum(V.Terms(l.up, tok, e, n), start, start + 32 * count)
  {
    hide V.Terms, V.Sized, Ring, Dots1;
    AddsUp(p, val, p.zero, p.zero);
    if count > 0 {
      SumOfGroups(p, l, val, tok, e, n, start, count - 1);
      var k := start + 32 * (count - 1);
      AddsUp(p, val, Sum1(p, tok, e, n, start, count - 1), p.term1(tok, e, n, k));
      GroupDot(p, l, val, tok, e, n, k);
      SumSplit(V.Terms(l.up, tok, e, n), start, k, k + 32);
    }
  }

  lemma SlicesFill(p: Problem)
    requires Supported(p)
    ensures p.topK > 0 && KPer(p) == 32 * (KPer(p) / 32) && SPLIT * KPer(p) == p.hidden
  {
    SliceStart(p, 1);
    SliceStart(p, SPLIT);
  }

  lemma SliceInside(k: nat, per: nat, all: nat)
    requires k < SPLIT && SPLIT * per == all && per % 32 == 0
    ensures 0 <= k * per && k * per + per <= all && (k * per) % 32 == 0
  {
    MulMono(k + 1, SPLIT, per);
    MulMono(0, k, per);
    var q := per / 32;
    assert k * (32 * q) == (k * q) * 32;
    DivModUnique(k * per, 32, k * q, 0);
  }

  lemma SliceIs(p: Problem, l: Layer, val: F -> real, r: int, e: int, n: int, k: nat)
    requires Ring(p, val) && V.Sized(l.up) && Dots1(p, l, val) && p.topK > 0 && k < SPLIT
    requires KPer(p) == 32 * (KPer(p) / 32) && SPLIT * KPer(p) == p.hidden
    ensures val(Part1(p, r, e, n, k)) == Sum(V.Terms(l.up, r / p.topK, e, n), k * KPer(p), k * KPer(p) + KPer(p))
  {
    hide V.Terms, V.Sized, Sum1, KPer, Ring, Dots1;
    SliceInside(k, KPer(p), p.hidden);
    SumOfGroups(p, l, val, r / p.topK, e, n, k * KPer(p), KPer(p) / 32);
  }

  lemma {:induction false} SlicesAddUp(p: Problem, l: Layer, val: F -> real, r: int, e: int, n: int, slices: nat)
    requires Ring(p, val) && V.Sized(l.up) && Dots1(p, l, val) && p.topK > 0 && slices <= SPLIT
    requires KPer(p) == 32 * (KPer(p) / 32) && SPLIT * KPer(p) == p.hidden
    ensures val(Project1(p, r, e, n, slices)) == Sum(V.Terms(l.up, r / p.topK, e, n), 0, slices * KPer(p))
  {
    hide V.Terms, V.Sized, Part1, KPer, Ring, Dots1;
    AddsUp(p, val, p.zero, p.zero);
    if slices > 0 {
      var (per, before) := (KPer(p), slices - 1);
      SlicesAddUp(p, l, val, r, e, n, before);
      SliceIs(p, l, val, r, e, n, before);
      AddsUp(p, val, Project1(p, r, e, n, before), Part1(p, r, e, n, before));
      NextSlice(slices, per);
      MulMono(0, before, per);
      SumSplit(V.Terms(l.up, r / p.topK, e, n), 0, before * per, before * per + per);
    }
  }

  lemma Parts(p: Problem, l: Layer, val: F -> real)
    requires Exact(p, l, val)
    ensures Supported(p) && IsUp(p, l) && V.Sized(l.up) && l.groupN > 0 && l.groupK > 0 && l.up.K == p.hidden
    ensures Ring(p, val) && Dots1(p, l, val) && Quantizes(p, l, val) && Dots2(p, l, val)
    ensures forall r :: val(p.weight(r)) == l.weight(r)
  {
    hide Ring, Dots1, Quantizes, Dots2, V.Sized, Supported;
  }

  /** A gate or up of a routed row is its GEMV's column. */
  lemma ProjectionIsDot(p: Problem, l: Layer, val: F -> real, r: int, e: int, n: int)
    requires Exact(p, l, val)
    ensures p.topK > 0 && V.Sized(l.up) && val(Project1(p, r, e, n, SPLIT)) == V.Dot(l.up, r / p.topK, e, n)
  {
    hide Exact, Ring, Dots1, Quantizes, Dots2, V.Sized, Supported, KPer, Project1, V.Terms;
    Parts(p, l, val);
    SlicesFill(p);
    SlicesAddUp(p, l, val, r, e, n, SPLIT);
  }

  // ----- the quantization -----

  /** An output row of the gate/up GEMV is its routed row's dot. */
  lemma UpOut(p: Problem, l: Layer, r: int, n: int)
    requires IsUp(p, l) && p.topK > 0 && Valid(p.ro, r)
    ensures V.Out(l.up, r, n) == V.Dot(l.up, r / p.topK, p.ro.ids[r], n)
  {
    hide V.Dot, V.Sized;
    assert V.Valid(l.up, r) && l.up.ids(r) == p.ro.ids[r];
    assert V.RowOut(l.up, n)(r) == V.Dot(l.up, r / p.topK, p.ro.ids[r], n) * l.up.weight(r);
    assert Sum(V.RowOut(l.up, n), r, r + 1) == Sum(V.RowOut(l.up, n), r, r) + V.RowOut(l.up, n)(r);
  }

  lemma Lanes(p: Problem, l: Layer, val: F -> real, r: int, c: int)
    requires Exact(p, l, val) && Valid(p.ro, r)
    ensures p.topK > 0 && V.Sized(l.up)
    ensures Values(val, Gates(p, r, p.ro.ids[r], c)) == Columns(l, r, c * 32)
    ensures Values(val, Ups(p, r, p.ro.ids[r], c)) == Columns(l, r, p.inter + c * 32)
  {
    hide Exact, Project1, V.Dot, V.Out, V.Sized, Supported, Ring, Dots1, Quantizes, Dots2, IsUp;
    Parts(p, l, val);
    ProjectionIsDot(p, l, val, r, p.ro.ids[r], 0);
    var e := p.ro.ids[r];
    forall j | 0 <= j < 32
      ensures val(Gates(p, r, e, c)[j]) == Columns(l, r, c * 32)[j]
      ensures val(Ups(p, r, e, c)[j]) == Columns(l, r, p.inter + c * 32)[j]
    {
      ProjectionIsDot(p, l, val, r, e, Col(c, j));
      ProjectionIsDot(p, l, val, r, e, p.inter + Col(c, j));
      UpOut(p, l, r, Col(c, j));
      UpOut(p, l, r, p.inter + Col(c, j));
    }
  }

  /** Each code and scale is the quantization of the GEMV's gates and ups. */
  lemma GroupIs(p: Problem, l: Layer, val: F -> real, r: int, c: nat)
    requires Exact(p, l, val) && Valid(p.ro, r)
    ensures p.topK > 0 && V.Sized(l.up)
    ensures var e := p.ro.ids[r];
            && |Codes(p, r, e, c)| == 32
            && (forall j | 0 <= j < 32 :: Values(val, Codes(p, r, e, c))[j] == CodeAt(p, l)(r, c * 32 + j))
            && val(p.scale(Gates(p, r, e, c), Ups(p, r, e, c))) == ScaleAt(p, l)(r, c)
  {
    hide Exact, V.Dot, V.Sized, Supported, Ring, Dots1, Dots2, Project1, Columns;
    Parts(p, l, val);
    Lanes(p, l, val, r, c);
    var e := p.ro.ids[r];
    forall j | 0 <= j < 32
      ensures Values(val, Codes(p, r, e, c))[j] == CodeAt(p, l)(r, c * 32 + j)
    {
      DivModUnique(c * 32 + j, 32, c, j);
    }
  }

  // ----- the down projection -----

  lemma DownSized(p: Problem, l: Layer, val: F -> real)
    requires Exact(p, l, val)
    ensures p.topK > 0 && V.Sized(l.up) && V.Sized(DownGemv(p, l))
  {
    hide Ring, Dots1, Quantizes, Dots2;
  }

  lemma TermIs(p: Problem, l: Layer, r: int, e: int, n: int, c: int, k: int, codes: seq<real>, scale: real)
    requires p.topK > 0 && V.Sized(l.up) && V.Sized(DownGemv(p, l)) && l.groupN > 0 && l.groupK > 0
    requires |codes| == 32 && c * 32 <= k < c * 32 + 32
    requires codes[k - c * 32] == CodeAt(p, l)(r, k) && scale == ScaleAt(p, l)(r, c)
    ensures GroupTerms(l, codes, scale, e, n, c)(k) == V.Terms(DownGemv(p, l), r, e, n)(k)
  {
    hide CodeAt, ScaleAt;
    DivModUnique(k, 32, c, k - c * 32);
  }

  lemma GroupSum(p: Problem, l: Layer, val: F -> real, r: int, n: int, c: nat)
    requires Exact(p, l, val) && Valid(p.ro, r)
    ensures p.topK > 0 && V.Sized(l.up) && V.Sized(DownGemv(p, l))
    ensures var e := p.ro.ids[r];
            val(p.term2(Codes(p, r, e, c), p.scale(Gates(p, r, e, c), Ups(p, r, e, c)), e, n, c)) ==
            Sum(V.Terms(DownGemv(p, l), r, e, n), c * 32, c * 32 + 32)
  {
    hide Exact, V.Sized, Supported, Ring, Dots1, Quantizes, Codes, Gates, Ups, CodeAt, ScaleAt, GroupTerms, V.Terms, DownGemv, Values;
    Parts(p, l, val);
    DownSized(p, l, val);
    GroupIs(p, l, val, r, c);
    var e := p.ro.ids[r];
    var (codes, s) := (Codes(p, r, e, c), p.scale(Gates(p, r, e, c), Ups(p, r, e, c)));
    ValuesLength(val, codes);
    forall k | c * 32 <= k < c * 32 + 32
      ensures GroupTerms(l, Values(val, codes), val(s), e, n, c)(k) == V.Terms(DownGemv(p, l), r, e, n)(k)
    {
      assert Values(val, codes)[k - c * 32] == CodeAt(p, l)(r, c * 32 + (k - c * 32));
      TermIs(p, l, r, e, n, c, k, Values(val, codes), val(s));
    }
    SumSame(GroupTerms(l, Values(val, codes), val(s), e, n, c), V.Terms(DownGemv(p, l), r, e, n), c * 32, c * 32 + 32);
  }

  lemma ValuesLength(val: F -> real, xs: seq<F>)
    ensures |Values(val, xs)| == |xs|
  {
  }

  lemma {:induction false} GroupsAddUp(p: Problem, l: Layer, val: F -> real, r: int, n: int, groups: nat)
    requires Exact(p, l, val) && Valid(p.ro, r)
    ensures p.topK > 0 && V.Sized(l.up) && V.Sized(DownGemv(p, l))
    ensures val(Project2(p, r, p.ro.ids[r], n, groups)) == Sum(V.Terms(DownGemv(p, l), r, p.ro.ids[r], n), 0, 32 * groups)
  {
    hide Exact, V.Sized, Supported, Ring, Dots1, Dots2, Quantizes, Codes, Gates, Ups, V.Terms, DownGemv;
    Parts(p, l, val);
    DownSized(p, l, val);
    var e := p.ro.ids[r];
    AddsUp(p, val, p.zero, p.zero);
    if groups > 0 {
      var c := groups - 1;
      GroupsAddUp(p, l, val, r, n, c);
      GroupSum(p, l, val, r, n, c);
      AddsUp(p, val, Project2(p, r, e, n, c), p.term2(Codes(p, r, e, c), p.scale(Gates(p, r, e, c), Ups(p, r, e, c)), e, n, c));
      SumSplit(V.Terms(DownGemv(p, l), r, e, n), 0, 32 * c, 32 * c + 32);
    }
  }

  lemma RowIs(p: Problem, l: Layer, val: F -> real, r: int, n: int)
    requires Exact(p, l, val) && Valid(p.ro, r)
    ensures p.topK > 0 && V.Sized(l.up) && V.Sized(DownGemv(p, l))
    ensures val(RowOut(p, r, p.ro.ids[r], n)) == V.Dot(DownGemv(p, l), r, p.ro.ids[r], n) * l.weight(r)
  {
    hide Exact, V.Sized, Ring, Dots1, Dots2, Quantizes, V.Terms, Project2;
    Parts(p, l, val);
    DownSized(p, l, val);
    GroupsAddUp(p, l, val, r, n, p.inter / 32);
    AddsUp(p, val, Project2(p, r, p.ro.ids[r], n, p.inter / 32), p.weight(r));
    assert 32 * (p.inter / 32) == p.inter;
  }

  lemma RoutedIs(p: Problem, l: Layer, r: int, n: int)
    requires p.topK > 0 && V.Sized(l.up) && V.Sized(DownGemv(p, l))
    ensures V.RowOut(DownGemv(p, l), n)(r) ==
            if Valid(p.ro, r) then V.Dot(DownGemv(p, l), r, p.ro.ids[r], n) * l.weight(r) else 0.0
  {
    hide V.Dot, CodeAt, ScaleAt, V.Sized;
    var d := DownGemv(p, l);
    assert V.Valid(d, r) <==> Valid(p.ro, r);
    assert r / d.perToken == r;
    assert V.RowOut(d, n)(r) == (if V.Valid(d, r) then V.Dot(d, r, d.ids(r), n) else 0.0) * l.weight(r);
  }

  lemma {:induction false} SlotsAddUp(p: Problem, l: Layer, val: F -> real, t: int, n: int, slots: nat)
    requires Exact(p, l, val)
    ensures p.topK > 0 && V.Sized(l.up) && V.Sized(DownGemv(p, l))
    ensures val(TokenOut(p, t, n, slots)) == Sum(V.RowOut(DownGemv(p, l), n), t * p.topK, t * p.topK + slots)
  {
    hide Exact, V.Sized, Supported, Ring, Dots1, Dots2, Quantizes, V.RowOut, DownGemv, RowOut;
    Parts(p, l, val);
    DownSized(p, l, val);
    AddsUp(p, val, p.zero, p.zero);
    if slots > 0 {
      SlotsAddUp(p, l, val, t, n, slots - 1);
      var r := t * p.topK + (slots - 1);
      RoutedIs(p, l, r, n);
      if Valid(p.ro, r) { RowIs(p, l, val, r, n); }
      var row := if Valid(p.ro, r) then RowOut(p, r, p.ro.ids[r], n) else p.zero;
      AddsUp(p, val, TokenOut(p, t, n, slots - 1), row);
    }
  }

  /** The layer is two GEMVs: the gate/up one, then, on the codes and scales that quantize its
      columns, the down one, which weighs and sums a token's routed rows. */
  lemma LayerIsTwoGemvs(p: Problem, l: Layer, val: F -> real, t: int, n: int)
    requires Exact(p, l, val)
    ensures p.topK > 0 && V.Sized(l.up) && V.Sized(DownGemv(p, l))
    ensures val(TokenOut(p, t, n, p.topK)) == V.Out(DownGemv(p, l), t, n)
  {
    hide Exact, V.Sized, TokenOut, V.RowOut, CodeAt, ScaleAt;
    DownSized(p, l, val);
    SlotsAddUp(p, l, val, t, n, p.topK);
  }
}
