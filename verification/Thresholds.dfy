/** The dispatch thresholds that a benchmark sweep recommends. */
module Thresholds {
  import opened Options

  /** The fields of a benchmark result that the recommendation reads. */
  datatype Result = Result(
    tokens: int, backend: string, median: Option<real>, p95: Option<real>, iqr: Option<real>,
    correct: Option<bool>, error: Option<string>)

  datatype Measured = Measured(backend: string, median: real, p95: real, iqr: real)

  /** One token count: the backends in the order they were first measured. */
  type Point = seq<Measured>

  /** The points of a sweep, with the two tolerances. */
  datatype Sweep = Sweep(points: map<int, Point>, margin: real, ratio: real)

  // ----- collecting the points -----

  predicate Usable(r: Result) {
    r.error.None? && r.correct == Some(true) && r.median.Some? && r.p95.Some? && r.iqr.Some?
  }

  function AsMeasured(r: Result): Measured
    requires Usable(r)
  {
    Measured(r.backend, r.median.value, r.p95.value, r.iqr.value)
  }

  /** A repeated backend overwrites its entry and keeps its place. */
  function Put(point: Point, m: Measured): Point {
    if point == [] then [m]
    else if point[0].backend == m.backend then [m] + point[1..]
    else [point[0]] + Put(point[1..], m)
  }

  function PointOf(points: map<int, Point>, t: int): Point {
    if t in points then points[t] else []
  }

  function Collected(results: seq<Result>): map<int, Point> {
    if results == [] then map[]
    else
      var (before, r) := (Collected(results[..|results| - 1]), results[|results| - 1]);
      if Usable(r) then before[r.tokens := Put(PointOf(before, r.tokens), AsMeasured(r))] else before
  }

  ghost predicate Distinct(point: Point) {
    forall i, j | 0 <= i < j < |point| :: point[i].backend != point[j].backend
  }

  lemma {:induction false} PutIs(point: Point, m: Measured)
    requires Distinct(point)
    ensures Distinct(Put(point, m))
    ensures forall x :: x in Put(point, m) <==> x == m || (x in point && x.backend != m.backend)
  {
    if point != [] && point[0].backend != m.backend {
      PutIs(point[1..], m);
      var rest := Put(point[1..], m);
      assert Put(point, m) == [point[0]] + rest;
      forall j | 0 <= j < |rest| ensures rest[j].backend != point[0].backend {
        assert rest[j] in rest;
      }
      assert point == [point[0]] + point[1..];
    } else if point != [] {
      assert point == [point[0]] + point[1..];
    }
  }

  /** `results[i]` is the last usable measurement of its backend at its token count. */
  ghost predicate LastUsable(results: seq<Result>, i: int) {
    && 0 <= i < |results| && Usable(results[i])
    && forall j | i < j < |results| && Usable(results[j]) ::
         results[j].tokens != results[i].tokens || results[j].backend != results[i].backend
  }

  ghost predicate LastIs(results: seq<Result>, i: int, t: int, m: Measured) {
    LastUsable(results, i) && results[i].tokens == t && AsMeasured(results[i]) == m
  }

  lemma LastBefore(results: seq<Result>, i: int, t: int, m: Measured)
    requires 0 <= i < |results| - 1
    ensures var r := results[|results| - 1];
            LastIs(results, i, t, m) <==>
            LastIs(results[..|results| - 1], i, t, m) && !(Usable(r) && r.tokens == t && r.backend == m.backend)
  {
    var before := results[..|results| - 1];
    assert forall j | 0 <= j < |before| :: before[j] == results[j];
  }

  /** Whatever the order of the results, a point holds exactly the last usable measurement of
      each backend. */
  lemma {:induction false} CollectedIsLast(results: seq<Result>, t: int, m: Measured)
    ensures Distinct(PointOf(Collected(results), t))
    ensures m in PointOf(Collected(results), t) <==> exists i :: LastIs(results, i, t, m)
  {
    hide Distinct, Put;
    if results == [] {
      NoneDistinct();
    } else {
      var (n, before) := (|results| - 1, results[..|results| - 1]);
      var r := results[n];
      CollectedIsLast(before, t, m);
      if Usable(r) && r.tokens == t { PutIs(PointOf(Collected(before), t), AsMeasured(r)); }
      forall i | 0 <= i < n ensures LastIs(results, i, t, m) <==>
            LastIs(before, i, t, m) && !(Usable(r) && r.tokens == t && r.backend == m.backend) {
        LastBefore(results, i, t, m);
      }
      assert LastIs(results, n, t, m) <==> Usable(r) && r.tokens == t && AsMeasured(r) == m;
      if exists i :: LastIs(before, i, t, m) {
        var i :| LastIs(before, i, t, m);
        assert 0 <= i < n;
        assert LastIs(results, i, t, m) <==> !(Usable(r) && r.tokens == t && r.backend == m.backend);
      }
    }
  }

  predicate IsRecord(r: Result, t: int, backend: string) {
    r.tokens == t && r.backend == backend && r.error == None && r.correct == Some(true)
    && r.median != None && r.p95 != None && r.iqr != None
  }

  /** In the results' own fields: a point holds a measurement exactly when the last result of that
      backend and token count that is correct, without error and complete has those numbers. */
  lemma RecordedIff(results: seq<Result>, t: int, backend: string, median: real, p95: real, iqr: real)
    ensures Measured(backend, median, p95, iqr) in PointOf(Collected(results), t) <==>
            exists i :: 0 <= i < |results| && results[i] == Result(t, backend, Some(median), Some(p95), Some(iqr), Some(true), None)
                        && forall j | i < j < |results| :: !IsRecord(results[j], t, backend)
  {
    var m := Measured(backend, median, p95, iqr);
    CollectedIsLast(results, t, m);
    forall i
      ensures LastIs(results, i, t, m) <==>
              0 <= i < |results| && results[i] == Result(t, backend, Some(median), Some(p95), Some(iqr), Some(true), None)
              && forall j | i < j < |results| :: !IsRecord(results[j], t, backend)
    {
    }
    hide LastIs, Collected, IsRecord;
  }

  lemma NoneDistinct()
    ensures Distinct([])
  {
  }

  // ----- safely faster -----

  function Find(point: Point, backend: string): Option<Measured> {
    if point == [] then None else if point[0].backend == backend then Some(point[0]) else Find(point[1..], backend)
  }

  function Others(point: Point, backend: string): Point {
    if point == [] then [] else (if point[0].backend == backend then [] else [point[0]]) + Others(point[1..], backend)
  }

  /** `min(..., key=median)`: the first of the least. */
  function Best(alternatives: Point): Measured
    requires alternatives != []
  {
    if |alternatives| == 1 then alternatives[0]
    else
      var rest := Best(alternatives[1..]);
      if alternatives[0].median <= rest.median then alternatives[0] else rest
  }

  function LeastP95(alternatives: Point): real
    requires alternatives != []
  {
    if |alternatives| == 1 then alternatives[0].p95
    else
      var rest := LeastP95(alternatives[1..]);
      if alternatives[0].p95 <= rest then alternatives[0].p95 else rest
  }

  /** A zero median would make the division fail; the sweeps have none (`Positive`). */
  predicate Stable(m: Measured, ratio: real) {
    m.median != 0.0 && m.iqr / m.median <= ratio
  }

  predicate SafelyFaster(s: Sweep, t: int, backend: string) {
    var point := PointOf(s.points, t);
    var (candidate, alternatives) := (Find(point, backend), Others(point, backend));
    && candidate.Some? && alternatives != []
    && Stable(candidate.value, s.ratio) && Stable(Best(alternatives), s.ratio)
    && candidate.value.median <= Best(alternatives).median * (1.0 - s.margin)
    && candidate.value.p95 <= LeastP95(alternatives) * (1.0 + s.margin)
  }

  lemma {:induction false} FindIs(point: Point, backend: string)
    ensures match Find(point, backend)
            case Some(m) => m in point && m.backend == backend
            case None => forall x | x in point :: x.backend != backend
  {
    if point != [] { FindIs(point[1..], backend); }
  }

  lemma {:induction false} OthersAre(point: Point, backend: string, x: Measured)
    ensures x in Others(point, backend) <==> x in point && x.backend != backend
  {
    if point != [] {
      OthersAre(point[1..], backend, x);
      assert point == [point[0]] + point[1..];
    }
  }

  lemma {:induction false} BestIs(alternatives: Point)
    requires alternatives != []
    ensures Best(alternatives) in alternatives
    ensures forall x | x in alternatives :: Best(alternatives).median <= x.median
  {
    if |alternatives| > 1 {
      BestIs(alternatives[1..]);
      assert alternatives == [alternatives[0]] + alternatives[1..];
    }
  }

  lemma {:induction false} LeastP95Is(alternatives: Point)
    requires alternatives != []
    ensures exists x | x in alternatives :: x.p95 == LeastP95(alternatives)
    ensures forall x | x in alternatives :: LeastP95(alternatives) <= x.p95
  {
    if |alternatives| == 1 {
      assert alternatives[0] in alternatives;
    } else {
      LeastP95Is(alternatives[1..]);
      assert alternatives == [alternatives[0]] + alternatives[1..];
      var x :| x in alternatives[1..] && x.p95 == LeastP95(alternatives[1..]);
      assert x in alternatives && alternatives[0] in alternatives;
    }
  }

  /** The caller's checks: the margin lies strictly between zero and one. */
  predicate Tolerances(s: Sweep) {
    0.0 < s.margin < 1.0
  }

  ghost predicate Positive(s: Sweep) {
    forall t, m | t in s.points && m in s.points[t] :: m.median > 0.0
  }

  lemma Scaled(a: real, b: real, k: real)
    requires a <= b && k >= 0.0
    ensures a * k <= b * k
  {
  }

  lemma MedianUnderAll(alternatives: Point, c: real, k: real)
    requires alternatives != [] && k >= 0.0
    ensures c <= Best(alternatives).median * k <==> forall x | x in alternatives :: c <= x.median * k
  {
    BestIs(alternatives);
    forall x | x in alternatives ensures Best(alternatives).median * k <= x.median * k {
      Scaled(Best(alternatives).median, x.median, k);
    }
  }

  lemma P95UnderAll(alternatives: Point, c: real, k: real)
    requires alternatives != [] && k >= 0.0
    ensures c <= LeastP95(alternatives) * k <==> forall x | x in alternatives :: c <= x.p95 * k
  {
    LeastP95Is(alternatives);
    var least :| least in alternatives && least.p95 == LeastP95(alternatives);
    forall x | x in alternatives ensures LeastP95(alternatives) * k <= x.p95 * k {
      Scaled(LeastP95(alternatives), x.p95, k);
    }
    assert least.p95 * k == LeastP95(alternatives) * k;
  }

  /** By the margin under a rival's median, and within it of its p95. */
  ghost predicate Beats(c: Measured, x: Measured, margin: real) {
    c.median <= x.median * (1.0 - margin) && c.p95 <= x.p95 * (1.0 + margin)
  }

  /** Safely faster means: measured, with a rival; beating every rival; and steady, as the
      fastest rival is. */
  lemma SafelyFasterIff(s: Sweep, t: int, backend: string)
    requires Tolerances(s)
    ensures SafelyFaster(s, t, backend) <==>
              var point := PointOf(s.points, t);
              && Find(point, backend).Some? && Others(point, backend) != []
              && Find(point, backend).value.median != 0.0 && Best(Others(point, backend)).median != 0.0
              && Find(point, backend).value.iqr / Find(point, backend).value.median <= s.ratio
              && Best(Others(point, backend)).iqr / Best(Others(point, backend)).median <= s.ratio
              && forall x | x in point && x.backend != backend ::
                   && Find(point, backend).value.median <= x.median * (1.0 - s.margin)
                   && Find(point, backend).value.p95 <= x.p95 * (1.0 + s.margin)
  {
    hide Find, Others, Best, LeastP95;
    var point := PointOf(s.points, t);
    var alternatives := Others(point, backend);
    forall x ensures x in alternatives <==> x in point && x.backend != backend { OthersAre(point, backend, x); }
    if alternatives != [] && Find(point, backend).Some? {
      MedianUnderAll(alternatives, Find(point, backend).value.median, 1.0 - s.margin);
      P95UnderAll(alternatives, Find(point, backend).value.p95, 1.0 + s.margin);
    }
  }

  lemma Shrinks(x: real, margin: real)
    requires x > 0.0 && 0.0 < margin < 1.0
    ensures x * (1.0 - margin) < x
  {
    assert x * (1.0 - margin) == x - x * margin;
  }

  lemma NotBothBeat(x: Measured, y: Measured, margin: real)
    requires x.median > 0.0 && y.median > 0.0 && 0.0 < margin < 1.0
    ensures !(Beats(x, y, margin) && Beats(y, x, margin))
  {
    Shrinks(x.median, margin);
    Shrinks(y.median, margin);
  }

  /** Two backends are never both safely faster at one token count. */
  lemma OneSafelyFaster(s: Sweep, t: int, a: string, b: string)
    requires Tolerances(s) && Positive(s) && a != b
    ensures !(SafelyFaster(s, t, a) && SafelyFaster(s, t, b))
  {
    var point := PointOf(s.points, t);
    SafelyFasterIff(s, t, a);
    SafelyFasterIff(s, t, b);
    hide SafelyFaster, Find, Others, Best, Stable, Beats;
    FindIs(point, a);
    FindIs(point, b);
    if Find(point, a).Some? && Find(point, b).Some? {
      NotBothBeat(Find(point, a).value, Find(point, b).value, s.margin);
    }
  }

  // ----- the two scans -----

  ghost predicate Ascending(tokens: seq<int>) {
    (forall i | 0 <= i < |tokens| :: tokens[i] > 0) && forall i, j | 0 <= i < j < |tokens| :: tokens[i] < tokens[j]
  }

  /** Every whole number from `lo` to `hi` was measured and is safely faster. */
  ghost predicate SafeRange(s: Sweep, tokens: seq<int>, backend: string, lo: int, hi: int) {
    forall t | lo <= t <= hi :: t in tokens && SafelyFaster(s, t, backend)
  }

  /** The largest `t` such that every whole number `1..t` was measured and is safely faster. */
  method GemvMax(s: Sweep, tokens: seq<int>) returns (best: Option<int>)
    requires Ascending(tokens)
    ensures best.Some? ==> best.value >= 1 && SafeRange(s, tokens, "gemv", 1, best.value)
    ensures forall t | t >= 1 && SafeRange(s, tokens, "gemv", 1, t) :: best.Some? && t <= best.value
  {
    hide SafelyFaster;
    best := None;
    var expected := 1;
    for i := 0 to |tokens|
      invariant expected == i + 1 && best == (if i == 0 then None else Some(i))
      invariant forall k | 0 <= k < i :: tokens[k] == k + 1 && SafelyFaster(s, tokens[k], "gemv")
    {
      if tokens[i] != expected {
        Missing(tokens, i);
        StopsAt(s, tokens, i);
        return;
      }
      if !SafelyFaster(s, tokens[i], "gemv") {
        StopsAt(s, tokens, i);
        return;
      }
      best := Some(tokens[i]);
      expected := expected + 1;
    }
    StopsAt(s, tokens, |tokens|);
  }

  lemma Missing(tokens: seq<int>, i: nat)
    requires Ascending(tokens) && i < |tokens| && tokens[i] != i + 1 && forall k | 0 <= k < i :: tokens[k] == k + 1
    ensures i + 1 !in tokens
  {
    if i > 0 { assert tokens[i - 1] < tokens[i]; }
    forall k | 0 <= k < |tokens| ensures tokens[k] != i + 1 {
      if k > i { assert tokens[i] < tokens[k]; }
    }
  }

  /** The first `i` numbers are safe and the next is missing or unsafe. */
  lemma StopsAt(s: Sweep, tokens: seq<int>, i: nat)
    requires Ascending(tokens) && i <= |tokens|
    requires forall k | 0 <= k < i :: tokens[k] == k + 1 && SafelyFaster(s, tokens[k], "gemv")
    requires i == |tokens| || i + 1 !in tokens || !SafelyFaster(s, i + 1, "gemv")
    ensures SafeRange(s, tokens, "gemv", 1, i)
    ensures forall t | t > i :: !SafeRange(s, tokens, "gemv", 1, t)
  {
    hide SafelyFaster;
    forall t | 1 <= t <= i ensures t in tokens && SafelyFaster(s, t, "gemv") {
      assert tokens[t - 1] == t;
    }
    assert i == |tokens| ==> forall k | 0 <= k < |tokens| :: tokens[k] != i + 1;
    forall t | t > i ensures !SafeRange(s, tokens, "gemv", 1, t) {
      assert !(i + 1 in tokens && SafelyFaster(s, i + 1, "gemv"));
    }
  }

  /** `list(range(lo, hi))`. */
  function Range(lo: int, hi: int): seq<int> {
    seq(if lo <= hi then hi - lo else 0, i => lo + i)
  }

  /** The measured suffix from `i` is a run of consecutive numbers. */
  predicate Contiguous(tokens: seq<int>, i: nat)
    requires i < |tokens|
  {
    tokens[i..] == Range(tokens[i], tokens[|tokens| - 1] + 1)
  }

  method SuffixSafe(s: Sweep, tokens: seq<int>, i: nat) returns (stable: bool)
    ensures stable <==> forall k | i <= k < |tokens| :: SafelyFaster(s, tokens[k], "grouped_gemm")
  {
    hide SafelyFaster;
    stable := true;
    var k := i;
    while k < |tokens|
      invariant stable && forall j | i <= j < k && j < |tokens| :: SafelyFaster(s, tokens[j], "grouped_gemm")
    {
      if !SafelyFaster(s, tokens[k], "grouped_gemm") {
        return false;
      }
      k := k + 1;
    }
  }

  lemma {:induction false} RunOfOnes(tokens: seq<int>, i: nat, k: nat)
    requires Ascending(tokens) && i <= k < |tokens|
    requires forall t | tokens[i] <= t <= tokens[|tokens| - 1] :: t in tokens
    ensures tokens[k] == tokens[i] + (k - i)
  {
    if k > i {
      RunOfOnes(tokens, i, k - 1);
      assert tokens[k - 1] < tokens[k];
      assert k < |tokens| - 1 ==> tokens[k] < tokens[|tokens| - 1];
      assert i < k - 1 ==> tokens[i] < tokens[k - 1];
      var t := tokens[k - 1] + 1;
      assert t in tokens;
      var j :| 0 <= j < |tokens| && tokens[j] == t;
      assert j < k - 1 ==> tokens[j] < tokens[k - 1];
    }
  }

  /** A suffix passes both tests exactly when every whole number it spans was measured and is
      safely faster. */
  lemma SuffixIff(s: Sweep, tokens: seq<int>, i: nat)
    requires Ascending(tokens) && i < |tokens|
    ensures Contiguous(tokens, i) && (forall k | i <= k < |tokens| :: SafelyFaster(s, tokens[k], "grouped_gemm"))
            <==> SafeRange(s, tokens, "grouped_gemm", tokens[i], tokens[|tokens| - 1])
  {
    hide SafelyFaster;
    var last := tokens[|tokens| - 1];
    assert i < |tokens| - 1 ==> tokens[i] < last;
    if Contiguous(tokens, i) && (forall k | i <= k < |tokens| :: SafelyFaster(s, tokens[k], "grouped_gemm")) {
      forall t | tokens[i] <= t <= last ensures t in tokens && SafelyFaster(s, t, "grouped_gemm") {
        assert tokens[i..][t - tokens[i]] == t;
        assert tokens[i + (t - tokens[i])] == t;
      }
    }
    if SafeRange(s, tokens, "grouped_gemm", tokens[i], last) {
      forall k | i <= k < |tokens| ensures tokens[k] == tokens[i] + (k - i) && SafelyFaster(s, tokens[k], "grouped_gemm") {
        RunOfOnes(tokens, i, k);
        assert k < |tokens| - 1 ==> tokens[k] < last;
      }
      assert last == tokens[i] + (|tokens| - 1 - i);
      assert tokens[i..] == Range(tokens[i], last + 1);
    }
  }

  /** The least measured number from which every whole number up to the last was measured and is
      safely faster. */
  method GroupedMin(s: Sweep, tokens: seq<int>) returns (least: Option<int>)
    requires Ascending(tokens)
    ensures least.Some? ==> least.value in tokens && SafeRange(s, tokens, "grouped_gemm", least.value, tokens[|tokens| - 1])
    ensures forall t | t in tokens && SafeRange(s, tokens, "grouped_gemm", t, tokens[|tokens| - 1]) ::
              least.Some? && least.value <= t
  {
    hide SafelyFaster, Contiguous, SafeRange;
    least := None;
    for i := 0 to |tokens|
      invariant least.None?
      invariant forall k | 0 <= k < i :: !SafeRange(s, tokens, "grouped_gemm", tokens[k], tokens[|tokens| - 1])
    {
      SuffixIff(s, tokens, i);
      if Contiguous(tokens, i) {
        var stable := SuffixSafe(s, tokens, i);
        if stable {
          return Some(tokens[i]);
        }
      }
    }
  }

  /** The recommendation: two ranges that never overlap. */
  method RecommendThresholds(results: seq<Result>, tokens: seq<int>, margin: real, ratio: real)
    returns (gemvMax: Option<int>, groupedMin: Option<int>)
    requires Ascending(tokens) && 0.0 < margin < 1.0
    requires forall r | r in results && r.median.Some? :: r.median.value > 0.0
    ensures var s := Sweep(Collected(results), margin, ratio);
            && (gemvMax.Some? ==> gemvMax.value >= 1 && SafeRange(s, tokens, "gemv", 1, gemvMax.value))
            && (forall t | t >= 1 && SafeRange(s, tokens, "gemv", 1, t) :: gemvMax.Some? && t <= gemvMax.value)
            && (groupedMin.Some? ==>
                  groupedMin.value in tokens && SafeRange(s, tokens, "grouped_gemm", groupedMin.value, tokens[|tokens| - 1]))
            && (forall t | t in tokens && SafeRange(s, tokens, "grouped_gemm", t, tokens[|tokens| - 1]) ::
                  groupedMin.Some? && groupedMin.value <= t)
            && (gemvMax.Some? && groupedMin.Some? ==> gemvMax.value < groupedMin.value)
  {
    hide SafelyFaster, SafeRange;
    var points: map<int, Point> := map[];
    for i := 0 to |results|
      invariant points == Collected(results[..i])
    {
      assert results[..i + 1][..i] == results[..i];
      var r := results[i];
      if Usable(r) { points := points[r.tokens := Put(PointOf(points, r.tokens), AsMeasured(r))]; }
    }
    assert results[..|results|] == results;
    var s := Sweep(points, margin, ratio);
    CollectedPositive(s, results);
    gemvMax := GemvMax(s, tokens);
    groupedMin := GroupedMin(s, tokens);
    if gemvMax.Some? && groupedMin.Some? { NeverOverlap(s, tokens, gemvMax.value, groupedMin.value); }
  }

  lemma CollectedPositive(s: Sweep, results: seq<Result>)
    requires s.points == Collected(results) && forall r | r in results && r.median.Some? :: r.median.value > 0.0
    ensures Positive(s)
  {
    forall t, m | t in s.points && m in s.points[t] ensures m.median > 0.0 {
      CollectedIsLast(results, t, m);
      var i :| LastIs(results, i, t, m);
      assert results[i] in results;
    }
  }

  lemma NeverOverlap(s: Sweep, tokens: seq<int>, gemv: int, grouped: int)
    requires Ascending(tokens) && Tolerances(s) && Positive(s) && grouped in tokens
    requires SafeRange(s, tokens, "gemv", 1, gemv) && SafeRange(s, tokens, "grouped_gemm", grouped, tokens[|tokens| - 1])
    ensures gemv < grouped
  {
    hide SafelyFaster;
    var i :| 0 <= i < |tokens| && tokens[i] == grouped;
    assert i < |tokens| - 1 ==> tokens[i] < tokens[|tokens| - 1];
    OneSafelyFaster(s, grouped, "gemv", "grouped_gemm");
  }
}
