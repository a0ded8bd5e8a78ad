/** The Sinkhorn normalisation of the mHC combination matrix, in place, over exact reals. */
module Sinkhorn {

  const HC := 4

  type Mat = (int, int) -> real

  /** Over the reals exp is positive and turns sums into products. */
  ghost predicate IsExp(exp: real -> real) {
    && (forall x :: exp(x) > 0.0)
    && (forall x, y :: exp(x + y) == exp(x) * exp(y))
  }

  lemma ExpPositive(exp: real -> real, x: real)
    requires IsExp(exp)
    ensures exp(x) > 0.0
  {
  }

  lemma ExpAdd(exp: real -> real, x: real, y: real)
    requires IsExp(exp)
    ensures exp(x + y) == exp(x) * exp(y)
  {
  }

  /** A quotient; every divisor below is positive (`Positive`). */
  function Quot(x: real, y: real): real {
    if y == 0.0 then 0.0 else x / y
  }

  function RowSum(m: Mat, j: int): real {
    m(j, 0) + m(j, 1) + m(j, 2) + m(j, 3)
  }

  function ColSum(m: Mat, k: int): real {
    m(0, k) + m(1, k) + m(2, k) + m(3, k)
  }

  // ----- the torch fallback -----

  /** `softmax(x, dim=-1) + eps`. */
  function SoftmaxPlus(exp: real -> real, x: Mat, eps: real): Mat {
    (j, k) => Quot(exp(x(j, k)), exp(x(j, 0)) + exp(x(j, 1)) + exp(x(j, 2)) + exp(x(j, 3))) + eps
  }

  function RowsDivided(m: Mat, eps: real): Mat {
    (j, k) => Quot(m(j, k), RowSum(m, j) + eps)
  }

  function ColsDivided(m: Mat, eps: real): Mat {
    (j, k) => Quot(m(j, k), ColSum(m, k) + eps)
  }

  function Rounds(m: Mat, eps: real, count: nat): Mat {
    if count == 0 then m else ColsDivided(RowsDivided(Rounds(m, eps, count - 1), eps), eps)
  }

  /** The fallback's combination matrix after `repeat` rounds. */
  function Fallback(exp: real -> real, x: Mat, eps: real, repeat: nat): Mat
    requires repeat > 0
  {
    Rounds(ColsDivided(SoftmaxPlus(exp, x, eps), eps), eps, repeat - 1)
  }

  // ----- positivity and the final column sums -----

  ghost predicate Positive(m: Mat) {
    forall j, k | 0 <= j < HC && 0 <= k < HC :: m(j, k) > 0.0
  }

  lemma QuotPositive(x: real, y: real)
    requires x > 0.0 && y > 0.0
    ensures Quot(x, y) > 0.0 && Quot(x, y) * y == x
  {
  }

  lemma SoftmaxPositive(exp: real -> real, x: Mat, eps: real)
    requires IsExp(exp) && eps >= 0.0
    ensures Positive(SoftmaxPlus(exp, x, eps))
  {
    hide IsExp, Quot;
    forall j, k | 0 <= j < HC && 0 <= k < HC
      ensures SoftmaxPlus(exp, x, eps)(j, k) > 0.0
    {
      ExpPositive(exp, x(j, k));
      RowPositive(exp, x, j);
      QuotPositive(exp(x(j, k)), exp(x(j, 0)) + exp(x(j, 1)) + exp(x(j, 2)) + exp(x(j, 3)));
    }
  }

  lemma RowPositive(exp: real -> real, x: Mat, j: int)
    requires IsExp(exp)
    ensures exp(x(j, 0)) + exp(x(j, 1)) + exp(x(j, 2)) + exp(x(j, 3)) > 0.0
  {
    hide IsExp;
    ExpPositive(exp, x(j, 0));
    ExpPositive(exp, x(j, 1));
    ExpPositive(exp, x(j, 2));
    ExpPositive(exp, x(j, 3));
  }

  lemma SumsPositive(m: Mat, j: int)
    requires Positive(m) && 0 <= j < HC
    ensures RowSum(m, j) > 0.0 && ColSum(m, j) > 0.0
  {
    assert m(j, 0) > 0.0 && m(j, 1) > 0.0 && m(j, 2) > 0.0 && m(j, 3) > 0.0;
    assert m(0, j) > 0.0 && m(1, j) > 0.0 && m(2, j) > 0.0 && m(3, j) > 0.0;
  }

  lemma DividedPositive(m: Mat, eps: real)
    requires Positive(m) && eps >= 0.0
    ensures Positive(RowsDivided(m, eps)) && Positive(ColsDivided(m, eps))
  {
    hide RowSum, ColSum, Quot;
    forall j, k | 0 <= j < HC && 0 <= k < HC
      ensures RowsDivided(m, eps)(j, k) > 0.0 && ColsDivided(m, eps)(j, k) > 0.0
    {
      SumsPositive(m, j);
      SumsPositive(m, k);
      QuotPositive(m(j, k), RowSum(m, j) + eps);
      QuotPositive(m(j, k), ColSum(m, k) + eps);
    }
  }

  lemma {:induction false} RoundsPositive(m: Mat, eps: real, count: nat)
    requires Positive(m) && eps >= 0.0
    ensures Positive(Rounds(m, eps, count))
  {
    hide Positive, RowsDivided, ColsDivided;
    if count > 0 {
      RoundsPositive(m, eps, count - 1);
      DividedPositive(Rounds(m, eps, count - 1), eps);
      DividedPositive(RowsDivided(Rounds(m, eps, count - 1), eps), eps);
    }
  }

  lemma ShareOfTotal(a: real, b: real, c: real, d: real, eps: real)
    requires a > 0.0 && b > 0.0 && c > 0.0 && d > 0.0 && eps > 0.0
    ensures var t := a + b + c + d;
            Quot(a, t + eps) + Quot(b, t + eps) + Quot(c, t + eps) + Quot(d, t + eps) == Quot(t, t + eps)
            && 0.0 < Quot(t, t + eps) < 1.0
  {
    var t := a + b + c + d;
    var y := t + eps;
    QuotPositive(a, y);
    QuotPositive(b, y);
    QuotPositive(c, y);
    QuotPositive(d, y);
    QuotPositive(t, y);
    SumOfQuots(Quot(a, y), Quot(b, y), Quot(c, y), Quot(d, y), Quot(t, y), y);
    if Quot(t, y) >= 1.0 { AtLeastOne(Quot(t, y), y); }
  }

  /** `p : q` is `x : y`. */
  predicate Proportional(p: real, q: real, x: real, y: real) {
    p * y == q * x
  }

  /** Dividing by a common `y` keeps ratios. */
  lemma RatioKept(a: real, b: real, y: real)
    requires y > 0.0
    ensures Proportional(Quot(a, y), Quot(b, y), a, b)
  {
    var (p, q) := (Quot(a, y), Quot(b, y));
    assert p * y == a && q * y == b;
    assert p * (q * y) == q * (p * y);
  }

  lemma SumOfQuots(a: real, b: real, c: real, d: real, t: real, y: real)
    requires y > 0.0 && a * y + b * y + c * y + d * y == t * y
    ensures a + b + c + d == t
  {
    assert (a + b + c + d - t) * y == 0.0;
  }

  lemma AtLeastOne(q: real, y: real)
    requires q >= 1.0 && y > 0.0
    ensures q * y >= y
  {
  }

  /** A row divided by its sum plus eps sums to `r / (r + eps)`, strictly between 0 and 1. */
  lemma RowAfter(m: Mat, eps: real, j: int)
    requires Positive(m) && eps > 0.0 && 0 <= j < HC
    ensures var (r, after) := (m(j, 0) + m(j, 1) + m(j, 2) + m(j, 3), RowsDivided(m, eps));
            && r > 0.0 && after(j, 0) + after(j, 1) + after(j, 2) + after(j, 3) == r / (r + eps)
            && 0.0 < after(j, 0) + after(j, 1) + after(j, 2) + after(j, 3) < 1.0
  {
    hide Quot;
    SumsPositive(m, j);
    ShareOfTotal(m(j, 0), m(j, 1), m(j, 2), m(j, 3), eps);
    QuotIs(RowSum(m, j), RowSum(m, j) + eps);
  }

  /** And its entries keep their ratios. */
  lemma RowRatio(m: Mat, eps: real, j: int, k: int, l: int)
    requires Positive(m) && eps >= 0.0 && 0 <= j < HC
    ensures Proportional(RowsDivided(m, eps)(j, k), RowsDivided(m, eps)(j, l), m(j, k), m(j, l))
  {
    hide Quot, Proportional;
    SumsPositive(m, j);
    RatioKept(m(j, k), m(j, l), RowSum(m, j) + eps);
  }

  lemma QuotIs(x: real, y: real)
    requires y > 0.0
    ensures Quot(x, y) == x / y
  {
  }

  /** A column divided by its sum plus eps sums to `c / (c + eps)`, strictly between 0 and 1. */
  lemma ColumnAfter(m: Mat, eps: real, k: int)
    requires Positive(m) && eps > 0.0 && 0 <= k < HC
    ensures var (c, after) := (m(0, k) + m(1, k) + m(2, k) + m(3, k), ColsDivided(m, eps));
            && c > 0.0 && after(0, k) + after(1, k) + after(2, k) + after(3, k) == c / (c + eps)
            && 0.0 < after(0, k) + after(1, k) + after(2, k) + after(3, k) < 1.0
  {
    hide Quot;
    SumsPositive(m, k);
    ShareOfTotal(m(0, k), m(1, k), m(2, k), m(3, k), eps);
    QuotIs(ColSum(m, k), ColSum(m, k) + eps);
  }

  /** And its entries keep their ratios. */
  lemma ColumnRatio(m: Mat, eps: real, k: int, i: int, j: int)
    requires Positive(m) && eps >= 0.0 && 0 <= k < HC
    ensures Proportional(ColsDivided(m, eps)(i, k), ColsDivided(m, eps)(j, k), m(i, k), m(j, k))
  {
    hide Quot, Proportional;
    SumsPositive(m, k);
    RatioKept(m(i, k), m(j, k), ColSum(m, k) + eps);
  }

  /** A row of the softmax sums to one before eps is added, ... */
  lemma SoftmaxRow(exp: real -> real, x: Mat, eps: real, j: int)
    requires IsExp(exp)
    ensures var s := SoftmaxPlus(exp, x, eps);
            (s(j, 0) - eps) + (s(j, 1) - eps) + (s(j, 2) - eps) + (s(j, 3) - eps) == 1.0
  {
    hide IsExp, Quot;
    RowPositive(exp, x, j);
    var (a, b, c, d) := (exp(x(j, 0)), exp(x(j, 1)), exp(x(j, 2)), exp(x(j, 3)));
    ExpPositive(exp, x(j, 0));
    ExpPositive(exp, x(j, 1));
    ExpPositive(exp, x(j, 2));
    ExpPositive(exp, x(j, 3));
    var y := a + b + c + d;
    QuotPositive(a, y);
    QuotPositive(b, y);
    QuotPositive(c, y);
    QuotPositive(d, y);
    SumOfQuots(Quot(a, y), Quot(b, y), Quot(c, y), Quot(d, y), 1.0, y);
  }

  /** ... its entries in the ratio of the exponentials. */
  lemma SoftmaxRatio(exp: real -> real, x: Mat, eps: real, j: int, k: int, l: int)
    requires IsExp(exp)
    ensures var s := SoftmaxPlus(exp, x, eps); Proportional(s(j, k) - eps, s(j, l) - eps, exp(x(j, k)), exp(x(j, l)))
  {
    hide IsExp, Quot, Proportional;
    RowPositive(exp, x, j);
    RatioKept(exp(x(j, k)), exp(x(j, l)), exp(x(j, 0)) + exp(x(j, 1)) + exp(x(j, 2)) + exp(x(j, 3)));
  }

  /** The steps of the fallback: columns once after the softmax; each further round rows, then columns. */
  lemma FallbackSteps(exp: real -> real, x: Mat, eps: real, repeat: nat)
    requires repeat > 0
    ensures Fallback(exp, x, eps, 1) == ColsDivided(SoftmaxPlus(exp, x, eps), eps)
    ensures Fallback(exp, x, eps, repeat + 1) == ColsDivided(RowsDivided(Fallback(exp, x, eps, repeat), eps), eps)
  {
  }

  /** However many rounds, every column of the result sums to `c / (c + eps)` for a positive
      `c`, so strictly between 0 and 1, and every entry is positive. */
  lemma ColumnsEnd(exp: real -> real, x: Mat, eps: real, repeat: nat, k: int) returns (c: real)
    requires IsExp(exp) && eps > 0.0 && repeat > 0 && 0 <= k < HC
    ensures c > 0.0 && ColSum(Fallback(exp, x, eps, repeat), k) == Quot(c, c + eps)
    ensures 0.0 < ColSum(Fallback(exp, x, eps, repeat), k) < 1.0
    ensures Positive(Fallback(exp, x, eps, repeat))
  {
    hide Positive, SoftmaxPlus, ColsDivided, RowsDivided;
    var start := SoftmaxPlus(exp, x, eps);
    SoftmaxPositive(exp, x, eps);
    DividedPositive(start, eps);
    RoundsPositive(ColsDivided(start, eps), eps, repeat - 1);
    if repeat == 1 {
      ColumnAfter(start, eps, k);
      c := ColSum(start, k);
    } else {
      var before := Rounds(ColsDivided(start, eps), eps, repeat - 2);
      RoundsPositive(ColsDivided(start, eps), eps, repeat - 2);
      DividedPositive(before, eps);
      ColumnAfter(RowsDivided(before, eps), eps, k);
      c := ColSum(RowsDivided(before, eps), k);
    }
  }

  // ----- the kernel, in place -----

  /** The fragment holds the matrix. */
  ghost predicate Holds(a: array2<real>, m: Mat)
    reads a
  {
    a.Length0 == HC && a.Length1 == HC && forall j, k | 0 <= j < HC && 0 <= k < HC :: a[j, k] == m(j, k)
  }

  method RowSums(cm: array2<real>, sums: array<real>)
    requires cm.Length0 == HC && cm.Length1 == HC && sums.Length == HC
    modifies sums
    ensures forall j | 0 <= j < HC :: sums[j] == cm[j, 0] + cm[j, 1] + cm[j, 2] + cm[j, 3]
  {
    forall j | 0 <= j < HC { sums[j] := cm[j, 0] + cm[j, 1] + cm[j, 2] + cm[j, 3]; }
  }

  method ColSums(cm: array2<real>, sums: array<real>)
    requires cm.Length0 == HC && cm.Length1 == HC && sums.Length == HC
    modifies sums
    ensures forall k | 0 <= k < HC :: sums[k] == cm[0, k] + cm[1, k] + cm[2, k] + cm[3, k]
  {
    forall k | 0 <= k < HC { sums[k] := cm[0, k] + cm[1, k] + cm[2, k] + cm[3, k]; }
  }

  function MaxOf(a: real, b: real): real {
    if a >= b then a else b
  }

  /** The shifted exponentials. */
  function Shifted(exp: real -> real, x: Mat, tops: seq<real>): Mat {
    (j, k) => exp(x(j, k) - Top(tops, j))
  }

  function Top(tops: seq<real>, j: int): real {
    if 0 <= j < |tops| then tops[j] else 0.0
  }

  lemma ShiftedEntry(exp: real -> real, v: real, top: real)
    requires IsExp(exp)
    ensures exp(v - top) == exp(v) * exp(-top)
  {
    assert v - top == v + (-top);
    ExpAdd(exp, v, -top);
  }

  /** Subtracting a row's maximum before exponentiating cancels in the softmax. */
  lemma ShiftCancels(exp: real -> real, x: Mat, tops: seq<real>, j: int, k: int)
    requires IsExp(exp)
    ensures var e := Shifted(exp, x, tops);
            Quot(e(j, k), RowSum(e, j)) ==
            Quot(exp(x(j, k)), exp(x(j, 0)) + exp(x(j, 1)) + exp(x(j, 2)) + exp(x(j, 3)))
  {
    hide IsExp, Quot;
    var c := exp(-Top(tops, j));
    ExpPositive(exp, -Top(tops, j));
    ShiftedEntry(exp, x(j, k), Top(tops, j));
    ShiftedEntry(exp, x(j, 0), Top(tops, j));
    ShiftedEntry(exp, x(j, 1), Top(tops, j));
    ShiftedEntry(exp, x(j, 2), Top(tops, j));
    ShiftedEntry(exp, x(j, 3), Top(tops, j));
    RowPositive(exp, x, j);
    CommonFactor(exp(x(j, 0)), exp(x(j, 1)), exp(x(j, 2)), exp(x(j, 3)), c);
    var e := Shifted(exp, x, tops);
    assert e(j, k) == exp(x(j, k)) * c;
    assert RowSum(e, j) == (exp(x(j, 0)) + exp(x(j, 1)) + exp(x(j, 2)) + exp(x(j, 3))) * c;
    SameRatio(exp(x(j, k)), exp(x(j, 0)) + exp(x(j, 1)) + exp(x(j, 2)) + exp(x(j, 3)), c, e(j, k), RowSum(e, j));
  }

  lemma CommonFactor(a: real, b: real, d: real, e: real, c: real)
    ensures a * c + b * c + d * c + e * c == (a + b + d + e) * c
  {
  }

  lemma SameRatio(a: real, s: real, c: real, p: real, q: real)
    requires s > 0.0 && c > 0.0 && p == a * c && q == s * c
    ensures q > 0.0 && Quot(p, q) == Quot(a, s)
  {
    var r := Quot(a, s);
    assert r * s == a;
    assert r * q == (r * s) * c;
    QuotUnique(r, p, q);
  }

  lemma QuotUnique(q: real, x: real, y: real)
    requires y > 0.0 && q * y == x
    ensures Quot(x, y) == q
  {
  }

  /** Each row's maximum, subtracted before exponentiating. */
  method ShiftedExp(exp: real -> real, cm: array2<real>, ghost x: Mat) returns (tops: seq<real>)
    requires Holds(cm, x)
    modifies cm
    ensures Holds(cm, Shifted(exp, x, tops))
  {
    tops := [RowMax(cm, 0), RowMax(cm, 1), RowMax(cm, 2), RowMax(cm, 3)];
    hide RowMax;
    assert forall j, k | 0 <= j < HC && 0 <= k < HC :: Shifted(exp, x, tops)(j, k) == exp(cm[j, k] - tops[j]);
    forall j, k | 0 <= j < HC && 0 <= k < HC { cm[j, k] := exp(cm[j, k] - tops[j]); }
  }

  function RowMax(cm: array2<real>, j: int): real
    requires cm.Length0 == HC && cm.Length1 == HC && 0 <= j < HC
    reads cm
  {
    MaxOf(MaxOf(cm[j, 0], cm[j, 1]), MaxOf(cm[j, 2], cm[j, 3]))
  }

  function OverRowSums(e: Mat, eps: real): Mat {
    (j, k) => Quot(e(j, k), RowSum(e, j)) + eps
  }

  method DivideByRowSums(cm: array2<real>, sums: array<real>, eps: real, ghost e: Mat)
    requires Holds(cm, e) && sums.Length == HC
    modifies cm, sums
    ensures Holds(cm, OverRowSums(e, eps))
  {
    RowSums(cm, sums);
    hide Quot;
    forall j, k | 0 <= j < HC && 0 <= k < HC { cm[j, k] := Quot(cm[j, k], sums[j]) + eps; }
  }

  /** The shifted exponentials divided by their row sums, plus eps: the softmax plus eps. */
  method SoftmaxStep(exp: real -> real, cm: array2<real>, sums: array<real>, eps: real, ghost x: Mat)
    requires IsExp(exp) && Holds(cm, x) && sums.Length == HC
    modifies cm, sums
    ensures Holds(cm, SoftmaxPlus(exp, x, eps))
  {
    hide IsExp, Quot, Shifted, Holds, RowSum;
    ghost var tops := ShiftedExp(exp, cm, x);
    ghost var e := Shifted(exp, x, tops);
    DivideByRowSums(cm, sums, eps, e);
    forall j, k
      ensures OverRowSums(e, eps)(j, k) == SoftmaxPlus(exp, x, eps)(j, k)
    {
      ShiftCancels(exp, x, tops, j, k);
    }
    HoldsSame(cm, OverRowSums(e, eps), SoftmaxPlus(exp, x, eps));
  }

  lemma HoldsSame(cm: array2<real>, m: Mat, n: Mat)
    requires Holds(cm, m) && forall j, k :: m(j, k) == n(j, k)
    ensures Holds(cm, n)
  {
  }

  method RowStep(cm: array2<real>, sums: array<real>, eps: real, ghost m: Mat)
    requires Holds(cm, m) && sums.Length == HC
    modifies cm, sums
    ensures Holds(cm, RowsDivided(m, eps))
  {
    hide Quot;
    RowSums(cm, sums);
    forall j, k | 0 <= j < HC && 0 <= k < HC { cm[j, k] := Quot(cm[j, k], sums[j] + eps); }
  }

  method ColStep(cm: array2<real>, sums: array<real>, eps: real, ghost m: Mat)
    requires Holds(cm, m) && sums.Length == HC
    modifies cm, sums
    ensures Holds(cm, ColsDivided(m, eps))
  {
    hide Quot;
    ColSums(cm, sums);
    forall j, k | 0 <= j < HC && 0 <= k < HC { cm[j, k] := Quot(cm[j, k], sums[k] + eps); }
  }

  /** The sum of four numbers that were `x0 .. x3` and now are `y0 .. y3` is the old one over itself
      plus eps, and the four keep their ratios. */
  predicate Normalised(x0: real, x1: real, x2: real, x3: real, y0: real, y1: real, y2: real, y3: real, eps: real) {
    var t := x0 + x1 + x2 + x3;
    && t > 0.0 && (y0 + y1 + y2 + y3) * (t + eps) == t && 0.0 < y0 + y1 + y2 + y3 < 1.0
    && Proportional(y0, y1, x0, x1) && Proportional(y0, y2, x0, x2) && Proportional(y0, y3, x0, x3)
  }

  lemma RowNormalised(m: Mat, eps: real, j: int)
    requires Positive(m) && eps > 0.0 && 0 <= j < HC
    ensures var a := RowsDivided(m, eps);
            Normalised(m(j, 0), m(j, 1), m(j, 2), m(j, 3), a(j, 0), a(j, 1), a(j, 2), a(j, 3), eps)
  {
    hide Positive, RowsDivided, Proportional;
    RowAfter(m, eps, j);
    RowRatio(m, eps, j, 0, 1);
    RowRatio(m, eps, j, 0, 2);
    RowRatio(m, eps, j, 0, 3);
  }

  lemma ColumnNormalised(m: Mat, eps: real, k: int)
    requires Positive(m) && eps > 0.0 && 0 <= k < HC
    ensures var a := ColsDivided(m, eps);
            Normalised(m(0, k), m(1, k), m(2, k), m(3, k), a(0, k), a(1, k), a(2, k), a(3, k), eps)
  {
    hide Positive, ColsDivided, Proportional;
    ColumnAfter(m, eps, k);
    ColumnRatio(m, eps, k, 0, 1);
    ColumnRatio(m, eps, k, 0, 2);
    ColumnRatio(m, eps, k, 0, 3);
  }

  /** Divides every row by its sum plus eps: of a positive matrix the rows are left normalised. */
  method DivideRows(cm: array2<real>, sums: array<real>, eps: real, ghost m: Mat)
    requires Holds(cm, m) && sums.Length == HC
    modifies cm, sums
    ensures Holds(cm, RowsDivided(m, eps))
    ensures Positive(m) && eps > 0.0 ==> forall j | 0 <= j < HC ::
              Normalised(old(cm[j, 0]), old(cm[j, 1]), old(cm[j, 2]), old(cm[j, 3]), cm[j, 0], cm[j, 1], cm[j, 2], cm[j, 3], eps)
  {
    hide Normalised, Positive, RowsDivided;
    RowStep(cm, sums, eps, m);
    if Positive(m) && eps > 0.0 {
      forall j | 0 <= j < HC
        ensures Normalised(old(cm[j, 0]), old(cm[j, 1]), old(cm[j, 2]), old(cm[j, 3]),
                           cm[j, 0], cm[j, 1], cm[j, 2], cm[j, 3], eps)
      {
        RowNormalised(m, eps, j);
      }
    }
  }

  /** Divides every column by its sum plus eps: of a positive matrix the columns are left normalised. */
  method DivideCols(cm: array2<real>, sums: array<real>, eps: real, ghost m: Mat)
    requires Holds(cm, m) && sums.Length == HC
    modifies cm, sums
    ensures Holds(cm, ColsDivided(m, eps))
    ensures Positive(m) && eps > 0.0 ==> forall k | 0 <= k < HC ::
              Normalised(old(cm[0, k]), old(cm[1, k]), old(cm[2, k]), old(cm[3, k]), cm[0, k], cm[1, k], cm[2, k], cm[3, k], eps)
  {
    hide Normalised, Positive, ColsDivided;
    ColStep(cm, sums, eps, m);
    if Positive(m) && eps > 0.0 {
      forall k | 0 <= k < HC
        ensures Normalised(old(cm[0, k]), old(cm[1, k]), old(cm[2, k]), old(cm[3, k]),
                           cm[0, k], cm[1, k], cm[2, k], cm[3, k], eps)
      {
        ColumnNormalised(m, eps, k);
      }
    }
  }

  /** The kernel's loop gives the fallback's matrix, for every number of rounds. */
  method Normalise(exp: real -> real, cm: array2<real>, sums: array<real>, eps: real, repeat: nat, ghost x: Mat)
    requires IsExp(exp) && Holds(cm, x) && sums.Length == HC && repeat > 0
    modifies cm, sums
    ensures Holds(cm, Fallback(exp, x, eps, repeat))
  {
    hide Holds, IsExp, SoftmaxPlus, RowsDivided, ColsDivided;
    SoftmaxStep(exp, cm, sums, eps, x);
    ghost var start := SoftmaxPlus(exp, x, eps);
    DivideCols(cm, sums, eps, start);
    for r := 0 to repeat - 1
      invariant Holds(cm, Rounds(ColsDivided(start, eps), eps, r))
    {
      ghost var m := Rounds(ColsDivided(start, eps), eps, r);
      DivideRows(cm, sums, eps, m);
      DivideCols(cm, sums, eps, RowsDivided(m, eps));
    }
  }
}
