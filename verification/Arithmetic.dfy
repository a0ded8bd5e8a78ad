/** Division facts and finite sums that the kernels share. */
module Arithmetic {

  /** `triton.cdiv`. */
  function Cdiv(a: nat, b: nat): (q: nat)
    requires b > 0
    ensures (q - 1) * b < a <= q * b || (a == 0 && q == 0)
  {
    DivModSpec(a + b - 1, b);
    (a + b - 1) / b
  }

  lemma DivModSpec(a: int, b: int)
    requires b > 0
    ensures a == (a / b) * b + a % b && 0 <= a % b < b
  {
  }

  lemma DivModUnique(a: int, b: int, q: int, r: int)
    requires b > 0 && a == q * b + r && 0 <= r < b
    ensures a / b == q && a % b == r
  {
    DivModSpec(a, b);
    var (q', r') := (a / b, a % b);
    assert (q - q') * b == r' - r;
    if q > q' { MulMono(1, q - q', b); }
    if q < q' { MulMono(1, q' - q, b); }
  }

  lemma MulMono(x: int, y: int, b: int)
    requires x <= y && b >= 0
    ensures x * b <= y * b
  {
  }

  lemma MulAssoc(a: int, b: int, c: int)
    ensures a * (b * c) == a * b * c
  {
  }

  ghost predicate IsMonoid<T(!new)>(add: (T, T) -> T, zero: T) {
    && (forall a, b, c :: add(add(a, b), c) == add(a, add(b, c)))
    && (forall a :: add(zero, a) == a && add(a, zero) == a)
  }

  /** `zero + xs[0] + xs[1] + ...`, left to right. */
  function Fold<T>(add: (T, T) -> T, zero: T, xs: seq<T>): T {
    if xs == [] then zero else add(Fold(add, zero, xs[..|xs| - 1]), xs[|xs| - 1])
  }

  lemma FoldMore<T>(add: (T, T) -> T, zero: T, xs: seq<T>, x: T)
    ensures Fold(add, zero, xs + [x]) == add(Fold(add, zero, xs), x)
  {
    assert (xs + [x])[..|xs|] == xs;
  }

  /** Row-major addresses are unique. */
  lemma RowMajorUnique(r: int, c: int, r': int, c': int, n: int)
    requires 0 <= c < n && 0 <= c' < n && r * n + c == r' * n + c'
    ensures r == r' && c == c'
  {
    DivModUnique(r * n + c, n, r, c);
    DivModUnique(r * n + c, n, r', c');
  }

  lemma RowMajorInside(r: int, c: int, rows: int, n: int)
    requires 0 <= r < rows && 0 <= c < n
    ensures 0 <= r * n + c < rows * n
  {
    MulMono(r + 1, rows, n);
    MulMono(0, r, n);
  }

  /** An address outside every row of a strided buffer. */
  lemma GapIsNoCell(r: int, c: int, rows: int, cols: int, stride: int, a: int)
    requires stride >= cols && stride > 0 && (a / stride >= rows || a % stride >= cols) && 0 <= r < rows && 0 <= c < cols
    ensures r * stride + c != a
  {
    if r * stride + c == a { DivModUnique(a, stride, r, c); }
  }

  /** `f(lo) + ... + f(hi - 1)`. */
  function Sum(f: int -> real, lo: int, hi: int): real
    decreases hi - lo
  {
    if hi <= lo then 0.0 else Sum(f, lo, hi - 1) + f(hi - 1)
  }

  lemma {:induction false} SumSplit(f: int -> real, lo: int, mid: int, hi: int)
    requires lo <= mid <= hi
    ensures Sum(f, lo, hi) == Sum(f, lo, mid) + Sum(f, mid, hi)
    decreases hi - mid
  {
    if mid < hi { SumSplit(f, lo, mid, hi - 1); }
  }

  lemma {:induction false} SumSame(f: int -> real, g: int -> real, lo: int, hi: int)
    requires forall i | lo <= i < hi :: f(i) == g(i)
    ensures Sum(f, lo, hi) == Sum(g, lo, hi)
    decreases hi - lo
  {
    if lo < hi { SumSame(f, g, lo, hi - 1); }
  }

  lemma {:induction false} SumZero(f: int -> real, lo: int, hi: int)
    requires forall i | lo <= i < hi :: f(i) == 0.0
    ensures Sum(f, lo, hi) == 0.0
    decreases hi - lo
  {
    if lo < hi { SumZero(f, lo, hi - 1); }
  }

  lemma {:induction false} SumAdd(f: int -> real, g: int -> real, h: int -> real, lo: int, hi: int)
    requires forall i | lo <= i < hi :: h(i) == f(i) + g(i)
    ensures Sum(h, lo, hi) == Sum(f, lo, hi) + Sum(g, lo, hi)
    decreases hi - lo
  {
    if lo < hi { SumAdd(f, g, h, lo, hi - 1); }
  }
}
