/** The reductions of the mHC kernels: grouped sums over split-K partials, a barrier and
    shuffle tree over 128 threads, and the element ranges of the threads. Exact reals. */
module MhcReduce {
  import opened Arithmetic

  // ----- strided groups -----

  /** `f(grp) + f(groups + grp) + ...`, `iters` terms. */
  function GroupSum(f: int -> real, groups: int, grp: int, iters: nat): real {
    if iters == 0 then 0.0 else GroupSum(f, groups, grp, iters - 1) + f((iters - 1) * groups + grp)
  }

  function Strided(f: int -> real, groups: int, iters: nat): int -> real {
    grp => GroupSum(f, groups, grp, iters)
  }

  function Shifted(f: int -> real, base: int): int -> real {
    i => f(base + i)
  }

  /** Terms past the last split load nothing. */
  function Masked(f: int -> real, n: int): int -> real {
    i => if i < n then f(i) else 0.0
  }

  lemma {:induction false} SumShifted(f: int -> real, base: int, count: nat)
    ensures Sum(Shifted(f, base), 0, count) == Sum(f, base, base + count)
  {
    if count > 0 { SumShifted(f, base, count - 1); }
  }

  /** Every index below `groups * iters` is in exactly one group: the groups add up to the sum. */
  lemma {:induction false} GroupsAddUp(f: int -> real, groups: nat, iters: nat, total: nat)
    requires total == groups * iters
    ensures Sum(Strided(f, groups, iters), 0, groups) == Sum(f, 0, total)
  {
    if iters == 0 {
      SumZero(Strided(f, groups, 0), 0, groups);
    } else {
      Fewer(groups, iters);
      var before := total - groups;
      GroupsAddUp(f, groups, iters - 1, before);
      SumSplit(f, 0, before, total);
      SumShifted(f, before, groups);
      assert (iters - 1) * groups == before;
      SumAdd(Strided(f, groups, iters - 1), Shifted(f, before), Strided(f, groups, iters), 0, groups);
    }
  }

  lemma Fewer(groups: nat, iters: nat)
    requires iters > 0
    ensures groups * iters - groups == groups * (iters - 1) >= 0
  {
  }

  lemma MaskedSum(f: int -> real, n: nat, total: nat)
    requires n <= total
    ensures Sum(Masked(f, n), 0, total) == Sum(f, 0, n)
  {
    SumSplit(Masked(f, n), 0, n, total);
    SumSame(Masked(f, n), f, 0, n);
    SumZero(Masked(f, n), n, total);
  }

  /** Splitting `n` terms over strided groups, the last one short, and adding the groups gives
      the plain sum: each split counts once, whatever their number. */
  lemma GroupedIsPlain(f: int -> real, groups: nat, n: nat)
    requires groups > 0
    ensures Sum(Strided(Masked(f, n), groups, Cdiv(n, groups)), 0, groups) == Sum(f, 0, n)
  {
    var iters := Cdiv(n, groups);
    GroupsAddUp(Masked(f, n), groups, iters, groups * iters);
    assert groups * iters == iters * groups >= n;
    MaskedSum(f, n, groups * iters);
  }

  // ----- the column sums of the delayed kernel -----

  const COLS := 25
  const THREADS := 128
  const GROUPS := 5

  function Column(part: (int, int) -> real, col: int): int -> real {
    s => part(s, col)
  }

  /** One thread's strided sum. */
  method ThreadGroupSum(part: (int, int) -> real, n: nat, col: nat, grp: nat) returns (sum: real)
    ensures sum == GroupSum(Masked(Column(part, col), n), GROUPS, grp, Cdiv(n, GROUPS))
  {
    sum := 0.0;
    for it := 0 to Cdiv(n, GROUPS)
      invariant sum == GroupSum(Masked(Column(part, col), n), GROUPS, grp, it)
    {
      var split := it * GROUPS + grp;
      if split < n { sum := sum + part(split, col); }
    }
  }

  /** What thread `t` sums. */
  function GroupValue(part: (int, int) -> real, n: nat, t: nat): real {
    GroupSum(Masked(Column(part, t % COLS), n), GROUPS, t / COLS, Cdiv(n, GROUPS))
  }

  /** Two phases between barriers: 125 threads sum strided groups, then 25 add the groups. */
  method ColumnSums(part: (int, int) -> real, n: nat, groupSums: array<real>, colSums: array<real>)
    requires groupSums.Length >= GROUPS * COLS && colSums.Length >= COLS && groupSums != colSums
    modifies groupSums, colSums
    ensures forall col | 0 <= col < COLS :: colSums[col] == Sum(Column(part, col), 0, n)
  {
    for tx := 0 to THREADS
      invariant forall t | 0 <= t < tx && t < GROUPS * COLS :: groupSums[t] == GroupValue(part, n, t)
    {
      if tx < GROUPS * COLS {
        var sum := ThreadGroupSum(part, n, tx % COLS, tx / COLS);
        groupSums[tx] := sum;
      }
    }
    for tx := 0 to COLS
      invariant forall t | 0 <= t < GROUPS * COLS :: groupSums[t] == GroupValue(part, n, t)
      invariant forall col | 0 <= col < tx :: colSums[col] == Sum(Column(part, col), 0, n)
    {
      var sum := AddGroups(part, n, groupSums, tx);
      colSums[tx] := sum;
    }
  }

  method AddGroups(part: (int, int) -> real, n: nat, groupSums: array<real>, col: nat) returns (sum: real)
    requires groupSums.Length >= GROUPS * COLS && col < COLS
    requires forall t | 0 <= t < GROUPS * COLS :: groupSums[t] == GroupValue(part, n, t)
    ensures sum == Sum(Column(part, col), 0, n)
  {
    sum := 0.0;
    for grp := 0 to GROUPS
      invariant sum == Sum(Strided(Masked(Column(part, col), n), GROUPS, Cdiv(n, GROUPS)), 0, grp)
    {
      DivModUnique(grp * COLS + col, COLS, grp, col);
      assert groupSums[grp * COLS + col] == GroupValue(part, n, grp * COLS + col);
      sum := sum + groupSums[grp * COLS + col];
    }
    GroupedIsPlain(Column(part, col), GROUPS, n);
  }

  /** The other kernel first loads every partial into shared memory, 128 at a time, ... */
  method LoadPartials(part: (int, int) -> real, n: nat, partials: array<real>)
    requires partials.Length >= n * COLS
    modifies partials
    ensures forall i | 0 <= i < n * COLS :: partials[i] == part(i / COLS, i % COLS)
  {
    for iter := 0 to Cdiv(n * COLS, THREADS)
      invariant forall i | 0 <= i < iter * THREADS && i < n * COLS :: partials[i] == part(i / COLS, i % COLS)
    {
      for tx := 0 to THREADS
        invariant forall i | 0 <= i < iter * THREADS + tx && i < n * COLS :: partials[i] == part(i / COLS, i % COLS)
      {
        var idx := iter * THREADS + tx;
        if idx < n * COLS { partials[idx] := part(idx / COLS, idx % COLS); }
      }
    }
  }

  /** ... then sums each column in split order. */
  method LoadedColumnSums(part: (int, int) -> real, n: nat, partials: array<real>, colSums: array<real>)
    requires partials.Length >= n * COLS && colSums.Length >= COLS && partials != colSums
    modifies partials, colSums
    ensures forall col | 0 <= col < COLS :: colSums[col] == Sum(Column(part, col), 0, n)
  {
    LoadPartials(part, n, partials);
    for tx := 0 to COLS
      invariant forall i | 0 <= i < n * COLS :: partials[i] == part(i / COLS, i % COLS)
      invariant forall col | 0 <= col < tx :: colSums[col] == Sum(Column(part, col), 0, n)
    {
      var sum := OneColumn(part, n, partials, tx);
      colSums[tx] := sum;
    }
  }

  method OneColumn(part: (int, int) -> real, n: nat, partials: array<real>, col: nat) returns (sum: real)
    requires partials.Length >= n * COLS && col < COLS
    requires forall i | 0 <= i < n * COLS :: partials[i] == part(i / COLS, i % COLS)
    ensures sum == Sum(Column(part, col), 0, n)
  {
    sum := 0.0;
    for s := 0 to n
      invariant sum == Sum(Column(part, col), 0, s)
    {
      DivModUnique(s * COLS + col, COLS, s, col);
      assert partials[s * COLS + col] == Column(part, col)(s);
      sum := sum + partials[s * COLS + col];
    }
  }

  /** The mean square of the mixes block: lanes sum every 32nd split and the warp adds up. */
  lemma WarpSumIsPlain(f: int -> real, n: nat)
    ensures Sum(Strided(Masked(f, n), 32, Cdiv(n, 32)), 0, 32) == Sum(f, 0, n)
  {
    GroupedIsPlain(f, 32, n);
  }

  // ----- the tree over 128 threads -----

  /** `v[0] + ... + v[k - 1]`. */
  function Total(v: seq<real>, k: nat): real
    requires k <= |v|
  {
    if k == 0 then 0.0 else Total(v, k - 1) + v[k - 1]
  }

  lemma {:induction false} HalfSteps(v: seq<real>, w: seq<real>, d: nat, k: nat)
    requires k <= d && 2 * d <= |v| && d <= |w| && forall l | 0 <= l < d :: w[l] == v[l] + v[l + d]
    ensures Total(w, k) == Total(v, k) + (Total(v, d + k) - Total(v, d))
  {
    if k > 0 { HalfSteps(v, w, d, k - 1); }
  }

  /** Adding the upper half to the lower keeps the total. */
  lemma Halved(v: seq<real>, w: seq<real>, d: nat)
    requires 2 * d <= |v| && d <= |w| && forall l | 0 <= l < d :: w[l] == v[l] + v[l + d]
    ensures Total(w, d) == Total(v, 2 * d)
  {
    HalfSteps(v, w, d, d);
  }

  /** `x += shfl_down(x, d)` in all lanes of the warp at once; past the last lane a lane reads
      its own value. */
  method ShuffleDownAdd(x: array<real>, d: nat)
    requires x.Length == THREADS && 0 < d <= 16
    modifies x
    ensures forall l | 0 <= l < 32 :: x[l] == old(x[l]) + old(x[if l + d < 32 then l + d else l])
    ensures Total(x[..], d) == Total(old(x[..]), 2 * d)
  {
    ghost var was := x[..];
    forall l | 0 <= l < 32 {
      x[l] := x[l] + x[if l + d < 32 then l + d else l];
    }
    Halved(was, x[..], d);
  }

  /** The threads at or above `d` publish, a barrier, the `d` threads below add. */
  method BarrierAdd(x: array<real>, shared: array<real>, d: nat)
    requires x.Length == shared.Length == THREADS && x != shared && (d == 64 || d == 32)
    modifies x, shared
    ensures Total(x[..], d) == Total(old(x[..]), 2 * d)
  {
    ghost var was := x[..];
    for tx := 0 to THREADS
      invariant x[..] == was
      invariant forall t | d <= t < tx :: shared[t] == was[t]
    {
      if tx >= d { shared[tx] := x[tx]; }
    }
    for tx := 0 to d
      invariant forall t | d <= t < THREADS :: shared[t] == was[t]
      invariant forall t | tx <= t < THREADS :: x[t] == was[t]
      invariant forall t | 0 <= t < tx :: x[t] == was[t] + was[t + d]
    {
      x[tx] := x[tx] + shared[tx + d];
    }
    Halved(was, x[..], d);
  }

  /** Thread 0 ends with the sum of all 128 threads and publishes it. */
  method TreeSum(x: array<real>, shared: array<real>)
    requires x.Length == shared.Length == THREADS && x != shared
    modifies x, shared
    ensures shared[0] == Total(old(x[..]), THREADS)
  {
    BarrierAdd(x, shared, 64);
    BarrierAdd(x, shared, 32);
    ShuffleDownAdd(x, 16);
    ShuffleDownAdd(x, 8);
    ShuffleDownAdd(x, 4);
    ShuffleDownAdd(x, 2);
    ShuffleDownAdd(x, 1);
    assert Total(x[..], 1) == x[0];
    shared[0] := x[0];
  }

  // ----- which elements a thread has -----

  const PER_THREAD := 8
  const CHUNK := 1024

  function Element(chunk: int, tx: int, elem: int): int {
    chunk * CHUNK + tx * PER_THREAD + elem
  }

  /** Every element of the hidden row is in exactly one thread's share. */
  lemma ElementsOnce(hidden: nat, h: nat)
    requires hidden % CHUNK == 0 && h < hidden
    ensures exists c, t, e :: 0 <= c < hidden / CHUNK && 0 <= t < THREADS && 0 <= e < PER_THREAD && Element(c, t, e) == h
    ensures forall c, t, e, c', t', e' | 0 <= t < THREADS && 0 <= e < PER_THREAD && 0 <= t' < THREADS && 0 <= e' < PER_THREAD
                                       && Element(c, t, e) == h && Element(c', t', e') == h :: c == c' && t == t' && e == e'
  {
    var (c, t, e) := (h / CHUNK, h % CHUNK / PER_THREAD, h % PER_THREAD);
    assert Element(c, t, e) == h;
  }

  /** One thread's sum over its elements. */
  function ThreadTotal(f: int -> real, tx: int, chunks: nat): real {
    if chunks == 0 then 0.0
    else ThreadTotal(f, tx, chunks - 1) + Sum(f, Element(chunks - 1, tx, 0), Element(chunks - 1, tx, PER_THREAD))
  }

  function ThreadTotals(f: int -> real, chunks: nat): int -> real {
    tx => ThreadTotal(f, tx, chunks)
  }

  function Octet(f: int -> real, chunk: int): int -> real {
    tx => Sum(f, Element(chunk, tx, 0), Element(chunk, tx, PER_THREAD))
  }

  lemma {:induction false} OctetsAddUp(f: int -> real, chunk: int, threads: nat)
    ensures Sum(Octet(f, chunk), 0, threads) == Sum(f, Element(chunk, 0, 0), Element(chunk, threads, 0))
  {
    if threads > 0 {
      OctetsAddUp(f, chunk, threads - 1);
      SumSplit(f, Element(chunk, 0, 0), Element(chunk, threads - 1, 0), Element(chunk, threads, 0));
    }
  }

  /** The threads' shares add up to the whole row. */
  lemma {:induction false} ThreadsAddUp(f: int -> real, chunks: nat)
    ensures Sum(ThreadTotals(f, chunks), 0, THREADS) == Sum(f, 0, chunks * CHUNK)
  {
    hide Sum;
    if chunks == 0 {
      SumZero(ThreadTotals(f, 0), 0, THREADS);
      NoSum(f);
    } else {
      var (c, mid, end) := (chunks - 1, (chunks - 1) * CHUNK, chunks * CHUNK);
      ThreadsAddUp(f, c);
      OctetsAddUp(f, c, THREADS);
      assert Element(c, 0, 0) == mid && Element(c, THREADS, 0) == end;
      SumSplit(f, 0, mid, end);
      SumAdd(ThreadTotals(f, c), Octet(f, c), ThreadTotals(f, chunks), 0, THREADS);
    }
  }

  lemma NoSum(f: int -> real)
    ensures Sum(f, 0, 0) == 0.0
  {
  }

  lemma {:induction false} TotalIsSum(v: seq<real>, f: int -> real, k: nat)
    requires k <= |v| && forall i | 0 <= i < k :: v[i] == f(i)
    ensures Total(v, k) == Sum(f, 0, k)
  {
    if k > 0 { TotalIsSum(v, f, k - 1); }
  }

  /** The sum of squares of a row: each thread over its share, then the tree. */
  method RowSum(f: int -> real, chunks: nat, x: array<real>, shared: array<real>)
    requires x.Length == shared.Length == THREADS && x != shared
    modifies x, shared
    ensures shared[0] == Sum(f, 0, chunks * CHUNK)
  {
    for tx := 0 to THREADS
      invariant forall t | 0 <= t < tx :: x[t] == ThreadTotal(f, t, chunks)
    {
      var sum := 0.0;
      for chunk := 0 to chunks
        invariant sum == ThreadTotal(f, tx, chunk)
      {
        ghost var before := sum;
        for elem := 0 to PER_THREAD
          invariant sum == before + Sum(f, Element(chunk, tx, 0), Element(chunk, tx, elem))
        {
          sum := sum + f(Element(chunk, tx, elem));
        }
      }
      x[tx] := sum;
    }
    TotalIsSum(x[..], ThreadTotals(f, chunks), THREADS);
    ThreadsAddUp(f, chunks);
    TreeSum(x, shared);
  }
}
