/** The single-request FA3 schedule: how many splits, and what is stored. */
module Fa3 {
  import opened Arithmetic

  const BLOCK_SIZE := 256
  const SCHEDULER_SIZE := 16
  const GEOMETRIES: set<(int, int, int)> :=
    {(12, 2, 128), (14, 2, 64), (16, 2, 128), (16, 8, 128), (28, 4, 128),
     (32, 4, 128), (32, 8, 128), (40, 8, 128), (64, 4, 128), (64, 8, 128)}

  // ----- the schedule -----

  function SafeLen(seqLen: int): nat {
    if seqLen > 0 then seqLen else 1
  }

  function Blocks(seqLen: int): (n: nat)
    ensures n >= 1 && (n - 1) * 64 < (if seqLen > 0 then seqLen else 1) <= n * 64
  {
    (SafeLen(seqLen) + 63) / 64
  }

  /** `ceil(n * 1.1 * heads / 60)` in integers. */
  function BlocksPerMp(n: nat, heads: nat): (b: nat)
    requires n >= 1 && heads >= 1
    ensures b >= 1
  {
    MulMono(1, n * 11 * heads, 1);
    (n * 11 * heads + 599) / 600
  }

  /** Before the cap. */
  function Wanted(n: nat, heads: nat): nat
    requires n >= 1 && heads >= 1
  {
    (n + BlocksPerMp(n, heads) - 1) / BlocksPerMp(n, heads)
  }

  function Splits(n: nat, heads: nat, cap: nat): nat
    requires n >= 1 && heads >= 1
  {
    if Wanted(n, heads) <= cap then Wanted(n, heads) else cap
  }

  function BlocksPerSplit(n: nat, splits: nat): (p: nat)
    requires splits >= 1
    ensures (p - 1) * splits < n <= p * splits
  {
    DivModSpec(n + splits - 1, splits);
    (n + splits - 1) / splits
  }

  function Fitting(perSplit: nat, l2: nat): nat {
    if perSplit * 16 <= l2 then 16
    else if perSplit * 8 <= l2 then 8
    else if perSplit * 4 <= l2 then 4
    else if perSplit * 2 <= l2 then 2
    else 1
  }

  function HeadsInL2(perSplit: nat, l2: nat, heads: nat): nat {
    if Fitting(perSplit, l2) <= heads then Fitting(perSplit, l2) else heads
  }

  /** `MAX_NUM_SPLITS` as the host gate demands it. */
  function MaxSplits(heads: nat): nat
    requires heads >= 1
  {
    (60 + heads - 1) / heads
  }

  // ----- the bounds, for all block counts and heads -----

  /** The integer form is the least whole number at or above `n * 1.1 * heads / 60`. */
  lemma IntegerCeiling(n: nat, heads: nat, b: nat)
    requires n >= 1 && heads >= 1
    ensures BlocksPerMp(n, heads) <= b <==> n as real * 1.1 * heads as real / 60.0 <= b as real
  {
    var t := n * 11 * heads;
    assert t as real == n as real * 11.0 * heads as real;
    assert n as real * 1.1 * heads as real / 60.0 == t as real / 600.0;
    assert t as real / 600.0 <= b as real <==> t <= 600 * b;
  }

  /** A rounding with the relative error of binary32, where its numbers are normal. */
  ghost predicate Rounds32(fl: real -> real) {
    forall x | 0.01 <= x <= 1000.0 :: Close(fl(x), x)
  }

  predicate Close(y: real, x: real) {
    x - x / 16777216.0 <= y <= x + x / 16777216.0
  }

  /** The binary32 number next to 1.1. */
  const F11 := 9227469.0 / 8388608.0

  function Float1(fl: real -> real, n: nat): real {
    fl(n as real * F11)
  }

  function Float2(fl: real -> real, n: nat, heads: nat): real {
    fl(Float1(fl, n) * heads as real)
  }

  /** `n * 1.1f * heads / 60`, each step rounded. */
  function InFloat(fl: real -> real, n: nat, heads: nat): real {
    fl(Float2(fl, n, heads) / 60.0)
  }

  lemma Scaled(y: real, x: real, k: real)
    requires Close(y, x) && k >= 0.0
    ensures x * k - (x * k) / 16777216.0 <= y * k <= x * k + (x * k) / 16777216.0
  {
    assert (x - x / 16777216.0) * k == x * k - (x * k) / 16777216.0;
    assert (x + x / 16777216.0) * k == x * k + (x * k) / 16777216.0;
    RealMono(x - x / 16777216.0, y, k);
    RealMono(y, x + x / 16777216.0, k);
  }

  lemma RealMono(x: real, y: real, k: real)
    requires x <= y && k >= 0.0
    ensures x * k <= y * k
  {
  }

  lemma Regroup(a: real, b: real, c: real)
    ensures a * b * c == a * c * b
  {
  }

  lemma TwoSteps(fl: real -> real, n: nat, heads: nat, m: real)
    requires Rounds32(fl) && m == n as real * heads as real
    requires 1.0 <= n as real <= m < 600.0 && 1.0 <= heads as real <= m
    ensures var x := Float1(fl, n) * heads as real;
            m * F11 - m * F11 / 16777216.0 <= x <= m * F11 + m * F11 / 16777216.0
  {
    RoundsAt(fl, n as real * F11);
    hide Rounds32;
    Scaled(Float1(fl, n), n as real * F11, heads as real);
    Regroup(n as real, F11, heads as real);
  }

  /** Rounding moves the value by less than a 600th. */
  lemma FloatNear(fl: real -> real, n: nat, heads: nat, m: real)
    requires Rounds32(fl) && m == n as real * heads as real
    requires 1.0 <= n as real <= m < 600.0 && 1.0 <= heads as real <= m
    ensures m * 11.0 / 600.0 - 1.0 / 600.0 < InFloat(fl, n, heads) < m * 11.0 / 600.0 + 1.0 / 600.0
  {
    hide Rounds32, Float1;
    TwoSteps(fl, n, heads, m);
    var x2 := Float1(fl, n) * heads as real;
    assert 1.0 <= x2 <= 700.0;
    RoundsAt(fl, x2);
    var y2 := Float2(fl, n, heads);
    assert Close(y2, x2);
    assert 0.9 <= y2 <= 701.0;
    hide Float2;
    RoundsAt(fl, y2 / 60.0);
    assert Close(InFloat(fl, n, heads), y2 / 60.0);
  }

  lemma RoundsAt(fl: real -> real, x: real)
    requires Rounds32(fl) && 0.01 <= x <= 1000.0
    ensures Close(fl(x), x)
  {
  }

  /** Inside the gate the integer form is the ceiling that single precision gives. */
  lemma FloatCeiling(fl: real -> real, n: nat, heads: nat, b: nat)
    requires Rounds32(fl) && n >= 1 && heads >= 1 && n * heads < 600
    ensures BlocksPerMp(n, heads) <= b <==> InFloat(fl, n, heads) <= b as real
  {
    var m := n * heads;
    MulMono(1, heads, n);
    MulMono(1, n, heads);
    assert 1 <= n <= m && 1 <= heads <= m;
    assert m as real == n as real * heads as real;
    FloatNear(fl, n, heads, m as real);
    assert n * 11 * heads == 11 * m;
    NotWhole(m, b);
    hide InFloat, BlocksPerMp;
    assert BlocksPerMp(n, heads) <= b <==> 11 * m <= 600 * b by { CeilingIs(n, heads, m, b); }
  }

  lemma CeilingIs(n: nat, heads: nat, m: nat, b: nat)
    requires n >= 1 && heads >= 1 && n * 11 * heads == 11 * m
    ensures BlocksPerMp(n, heads) <= b <==> 11 * m <= 600 * b
  {
  }

  /** 11 m is no multiple of 600. */
  lemma NotWhole(m: nat, b: nat)
    requires 0 < m < 600
    ensures 11 * m != 600 * b
  {
  }

  lemma EnoughPerMp(n: nat, heads: nat)
    requires n >= 1 && heads >= 1
    ensures n * 11 * heads <= 600 * BlocksPerMp(n, heads)
  {
  }

  lemma WantedIs(n: nat, heads: nat)
    requires n >= 1 && heads >= 1
    ensures var (w, b) := (Wanted(n, heads), BlocksPerMp(n, heads));
            w >= 1 && (w - 1) * b < n <= w * b
  {
    var b := BlocksPerMp(n, heads);
    hide BlocksPerMp;
    DivModSpec(n + b - 1, b);
    var w := (n + b - 1) / b;
    if w <= 0 { MulMono(w, 0, b); }
  }

  /** The cap never binds. */
  lemma CapNeverBinds(n: nat, heads: nat)
    requires n >= 1 && heads >= 1
    ensures Wanted(n, heads) <= MaxSplits(heads)
    ensures Splits(n, heads, MaxSplits(heads)) == Wanted(n, heads)
  {
    var (w, b, cap) := (Wanted(n, heads), BlocksPerMp(n, heads), MaxSplits(heads));
    EnoughPerMp(n, heads);
    WantedIs(n, heads);
    CapCovers(heads);
    hide BlocksPerMp, Wanted, MaxSplits;
    CapBound(n, heads, b, cap);
    Cancel(w - 1, cap, b);
  }

  lemma CapCovers(heads: nat)
    requires heads >= 1
    ensures 60 <= MaxSplits(heads) * heads
  {
    DivModSpec(60 + heads - 1, heads);
  }

  lemma CapBound(n: nat, heads: nat, b: nat, cap: nat)
    requires heads >= 1 && n * 11 * heads <= 600 * b && 60 <= cap * heads
    ensures n <= cap * b
  {
    MulMono(60, cap * heads, b);
    assert (cap * heads) * b == (cap * b) * heads;
    assert n * 11 * heads == 11 * (n * heads);
    if cap * b < n { MulMono(cap * b + 1, n, heads); }
  }

  lemma Cancel(x: int, y: int, b: int)
    requires x * b < y * b && b >= 1
    ensures x < y
  {
    if y <= x { MulMono(y, x, b); }
  }

  /** The splits cover all the blocks, and none of them starts past the last block. */
  lemma SplitsCoverNoneEmpty(n: nat, heads: nat)
    requires n >= 1 && heads >= 1
    ensures var s := Splits(n, heads, MaxSplits(heads));
            s >= 1 && (s - 1) * BlocksPerSplit(n, s) < n <= s * BlocksPerSplit(n, s)
  {
    CapNeverBinds(n, heads);
    WantedIs(n, heads);
    var (s, b) := (Wanted(n, heads), BlocksPerMp(n, heads));
    hide BlocksPerMp, Wanted, Splits, BlocksPerSplit, MaxSplits;
    LeastPerSplit(n, s, b);
    Between(n, s, b, BlocksPerSplit(n, s));
  }

  lemma Between(n: nat, s: nat, b: nat, p: nat)
    requires s >= 1 && (s - 1) * b < n <= p * s && p <= b
    ensures (s - 1) * p < n <= s * p
  {
    MulMono(p, b, s - 1);
    assert p * (s - 1) == (s - 1) * p && b * (s - 1) == (s - 1) * b && p * s == s * p;
  }

  lemma LeastPerSplit(n: nat, s: nat, b: nat)
    requires s >= 1 && n <= s * b
    ensures BlocksPerSplit(n, s) <= b && n <= BlocksPerSplit(n, s) * s
  {
    DivModSpec(n + s - 1, s);
    if b < BlocksPerSplit(n, s) { MulMono(b + 1, BlocksPerSplit(n, s), s); }
  }

  /** Block `i` belongs to exactly one split. */
  lemma BlockInOneSplit(n: nat, heads: nat, i: nat)
    requires i < n && heads >= 1
    ensures var s := Splits(n, heads, MaxSplits(heads));
            var p := BlocksPerSplit(n, s);
            && s >= 1 && p >= 1 && i / p < s && (i / p) * p <= i < (i / p + 1) * p
            && forall j | j * p <= i < (j + 1) * p :: j == i / p
  {
    SplitsCoverNoneEmpty(n, heads);
    var s := Splits(n, heads, MaxSplits(heads));
    hide Splits, BlocksPerSplit, MaxSplits;
    OneRun(i, s, BlocksPerSplit(n, s));
  }

  lemma OneRun(i: nat, s: nat, p: nat)
    requires i < s * p
    ensures p >= 1 && i / p < s && (i / p) * p <= i < (i / p + 1) * p
    ensures forall j | j * p <= i < (j + 1) * p :: j == i / p
  {
    NoneOf(s, p);
    DivModSpec(i, p);
    if i / p >= s { MulMono(s, i / p, p); }
    forall j | j * p <= i < (j + 1) * p
      ensures j == i / p
    {
      OnlyRun(i, p, j);
    }
  }

  lemma OnlyRun(i: nat, p: nat, j: int)
    requires p >= 1 && j * p <= i < (j + 1) * p
    ensures j == i / p
  {
    DivModUnique(i, p, j, i - j * p);
  }

  lemma NoneOf(s: nat, p: nat)
    ensures p == 0 ==> s * p == 0
  {
  }

  /** The heads kept in L2: a power of two or all of them, the most that fit, at least one. */
  lemma HeadsFit(perSplit: nat, l2: nat, heads: nat)
    requires heads >= 1
    ensures var r := HeadsInL2(perSplit, l2, heads);
            && 1 <= r <= heads && r <= 16 && (r == heads || r in {1, 2, 4, 8, 16})
            && (perSplit <= l2 ==> perSplit * r <= l2)
            && (r < heads && r < 16 ==> l2 < perSplit * (2 * r))
  {
    var f := Fitting(perSplit, l2);
    if heads < f { MulMono(heads, f, perSplit); }
  }

  // ----- the host gate and the kernel -----

  predicate Supported(maxLen: int, headsQ: int, heads: int, dim: int, cap: int) {
    1 <= maxLen <= 4096 && (headsQ, heads, dim) in GEOMETRIES && cap == (if heads >= 1 then (60 + heads - 1) / heads else 0)
  }

  function L2Budget(dim: int): nat {
    if dim == 64 then 96 else 48
  }

  /** Within the gate the integer form is the ceiling that single precision gives. */
  lemma GateCeiling(maxLen: int, headsQ: int, heads: int, dim: int, cap: int, seqLen: int, fl: real -> real, b: nat)
    requires Supported(maxLen, headsQ, heads, dim, cap) && seqLen <= maxLen && Rounds32(fl)
    ensures heads >= 1 && (BlocksPerMp(Blocks(seqLen), heads) <= b <==> InFloat(fl, Blocks(seqLen), heads) <= b as real)
  {
    var n := Blocks(seqLen);
    assert 1 <= heads <= 8 && 1 <= n <= 64;
    MulMono(n, 64, heads);
    hide BlocksPerMp, InFloat, Rounds32;
    FloatCeiling(fl, n, heads, b);
  }

  /** Within the gate a split always fits the budget, so the last resort of one head that does
      not fit is never taken. */
  lemma GateFitsL2(maxLen: int, headsQ: int, heads: int, dim: int, cap: int, seqLen: int)
    requires Supported(maxLen, headsQ, heads, dim, cap) && seqLen <= maxLen
    ensures heads >= 1
    ensures var n := Blocks(seqLen);
            var s := Splits(n, heads, cap);
            s >= 1 && BlocksPerSplit(n, s) * HeadsInL2(BlocksPerSplit(n, s), L2Budget(dim), heads) <= L2Budget(dim)
  {
    var n := Blocks(seqLen);
    assert 2 <= heads <= 8 && n <= 64;
    assert cap == MaxSplits(heads);
    SplitsCoverNoneEmpty(n, heads);
    CapNeverBinds(n, heads);
    WantedIs(n, heads);
    var (s, b) := (Wanted(n, heads), BlocksPerMp(n, heads));
    FewPerMp(n, heads);
    hide Wanted, BlocksPerMp, Fitting;
    var p := BlocksPerSplit(n, s);
    LeastPerSplit(n, s, b);
    HeadsFit(p, L2Budget(dim), heads);
  }

  lemma FewPerMp(n: nat, heads: nat)
    requires 1 <= n <= 64 && 1 <= heads <= 8
    ensures BlocksPerMp(n, heads) <= 10
  {
    MulMono(n * 11, 64 * 11, heads);
  }

  /** What offset `o` of the scheduler buffer holds. */
  function Scheduled(seqLen: int, heads: nat, cap: nat, l2: nat, o: nat): nat
    requires heads >= 1 && cap >= 1
  {
    var n := Blocks(seqLen);
    var s := Splits(n, heads, cap);
    if o == 0 then s
    else if o == 8 then 1
    else if o == 12 then HeadsInL2(BlocksPerSplit(n, if s >= 1 then s else 1), l2, heads)
    else 0
  }

  /** The launch writes the whole buffer, and the cumulative lengths once, from program 0. */
  method BuildMetadata(seqLen: int, heads: nat, cap: nat, l2: nat, scheduler: array<nat>, cu: array<nat>)
    requires heads >= 1 && cap >= 1 && cu.Length == 2 && scheduler != cu && scheduler.Length >= SCHEDULER_SIZE
    modifies scheduler, cu
    ensures forall o | 0 <= o < scheduler.Length :: scheduler[o] == Scheduled(seqLen, heads, cap, l2, o)
    ensures cu[..] == [0, SafeLen(seqLen)]
  {
    hide Scheduled;
    for pid := 0 to Cdiv(scheduler.Length, BLOCK_SIZE)
      invariant forall o | 0 <= o < pid * BLOCK_SIZE && o < scheduler.Length :: scheduler[o] == Scheduled(seqLen, heads, cap, l2, o)
      invariant pid > 0 ==> cu[0] == 0 && cu[1] == SafeLen(seqLen)
    {
      for lane := 0 to BLOCK_SIZE
        invariant forall o | 0 <= o < pid * BLOCK_SIZE + lane && o < scheduler.Length ::
                    scheduler[o] == Scheduled(seqLen, heads, cap, l2, o)
        invariant pid > 0 ==> cu[0] == 0 && cu[1] == SafeLen(seqLen)
        invariant (lane > 0 ==> cu[0] == 0) && (lane > 1 ==> cu[1] == SafeLen(seqLen))
      {
        var o := pid * BLOCK_SIZE + lane;
        if o < scheduler.Length { scheduler[o] := Scheduled(seqLen, heads, cap, l2, o); }
        if pid == 0 && o < 2 { cu[o] := if o == 0 then 0 else SafeLen(seqLen); }
      }
    }
  }

  /** The gated entry point: it either declines and touches nothing, or schedules splits that
      cover every block with none empty, and heads that fit the budget. */
  method TryBuild(seqLen: int, maxLen: int, headsQ: int, heads: int, dim: int, cap: int, scheduler: array<nat>, cu: array<nat>)
    returns (built: bool)
    requires seqLen <= maxLen && scheduler != cu
    modifies scheduler, cu
    ensures built <==>
              && 1 <= maxLen <= 4096 && heads >= 1 && cap == (60 + heads - 1) / heads
              && (headsQ, heads, dim) in {(12, 2, 128), (14, 2, 64), (16, 2, 128), (16, 8, 128), (28, 4, 128),
                                          (32, 4, 128), (32, 8, 128), (40, 8, 128), (64, 4, 128), (64, 8, 128)}
              && cu.Length == 2 && scheduler.Length >= 16
    ensures !built ==> unchanged(scheduler) && unchanged(cu)
    ensures built ==>
              var (n, s) := (Blocks(seqLen), scheduler[0]);
              && s >= 1 && (s - 1) * BlocksPerMp(n, heads) < n <= s * BlocksPerMp(n, heads)
              && (s - 1) * BlocksPerSplit(n, s) < n <= s * BlocksPerSplit(n, s)
              && 1 <= scheduler[12] <= heads && BlocksPerSplit(n, s) * scheduler[12] <= (if dim == 64 then 96 else 48)
              && (scheduler[12] < heads && scheduler[12] < 16 ==>
                    (if dim == 64 then 96 else 48) < BlocksPerSplit(n, s) * (2 * scheduler[12]))
              && scheduler[8] == 1 && cu[..] == [0, if seqLen > 0 then seqLen else 1]
              && forall o | 0 <= o < scheduler.Length && o != 0 && o != 8 && o != 12 :: scheduler[o] == 0
  {
    built := Supported(maxLen, headsQ, heads, dim, cap) && cu.Length == 2 && scheduler.Length >= SCHEDULER_SIZE;
    if built {
      GateBounds(maxLen, headsQ, heads, dim, cap);
      var n := Blocks(seqLen);
      SplitsCoverNoneEmpty(n, heads);
      WantedIs(n, heads);
      CapNeverBinds(n, heads);
      GateFitsL2(maxLen, headsQ, heads, dim, cap, seqLen);
      HeadsFit(BlocksPerSplit(n, Splits(n, heads, cap)), L2Budget(dim), heads);
      BuildMetadata(seqLen, heads, cap, L2Budget(dim), scheduler, cu);
      ScheduledFields(seqLen, heads, cap, L2Budget(dim));
      hide Scheduled, Splits, BlocksPerSplit, BlocksPerMp, Wanted, HeadsInL2, MaxSplits, Supported, Blocks;
      assert scheduler[0] == Scheduled(seqLen, heads, cap, L2Budget(dim), 0);
      assert scheduler[8] == Scheduled(seqLen, heads, cap, L2Budget(dim), 8);
      assert scheduler[12] == Scheduled(seqLen, heads, cap, L2Budget(dim), 12);
    }
  }

  lemma GateBounds(maxLen: int, headsQ: int, heads: int, dim: int, cap: int)
    requires Supported(maxLen, headsQ, heads, dim, cap)
    ensures 2 <= heads <= 8 && cap >= 1 && cap == MaxSplits(heads)
  {
  }

  lemma ScheduledFields(seqLen: int, heads: nat, cap: nat, l2: nat)
    requires heads >= 1 && cap >= 1 && Splits(Blocks(seqLen), heads, cap) >= 1
    ensures var s := Splits(Blocks(seqLen), heads, cap);
            && Scheduled(seqLen, heads, cap, l2, 0) == s
            && Scheduled(seqLen, heads, cap, l2, 8) == 1
            && Scheduled(seqLen, heads, cap, l2, 12) == HeadsInL2(BlocksPerSplit(Blocks(seqLen), s), l2, heads)
            && forall o: nat | o != 0 && o != 8 && o != 12 :: Scheduled(seqLen, heads, cap, l2, o) == 0
  {
  }
}
