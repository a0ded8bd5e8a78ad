/** The expert route map of the small-token FP8 MoE: the distinct routed experts of a batch in
    first-use order, each with the rows routed to it. */
module RouteMap {
  import opened Arithmetic
  import opened Launch

  const MAX_R := 64
  const BLOCK_M := 16
  const WIDTH := 18

  /** The expert ids of the routed rows, `topK` rows a token, and the number of experts. */
  datatype Routing = Routing(ids: seq<int>, E: nat)

  predicate Fits(ro: Routing) {
    |ro.ids| <= MAX_R
  }

  /** Lanes past the last row load -1. */
  function Id(ro: Routing, r: int): int {
    if 0 <= r < |ro.ids| then ro.ids[r] else -1
  }

  predicate Valid(ro: Routing, r: int) {
    0 <= r < |ro.ids| && 0 <= ro.ids[r] < ro.E
  }

  predicate Eq(ro: Routing, r: int, c: int) {
    Id(ro, r) == Id(ro, c) && Valid(ro, r) && Valid(ro, c)
  }

  /** How many of the rows before `k` go where row `r` goes. */
  function Before(ro: Routing, r: int, k: nat): nat {
    if k == 0 then 0 else Before(ro, r, k - 1) + (if Eq(ro, r, k - 1) then 1 else 0)
  }

  /** The rank of a row among the rows of its expert. */
  function Rank(ro: Routing, r: nat): nat {
    Before(ro, r, r)
  }

  function CountOf(ro: Routing, r: int): nat {
    Before(ro, r, MAX_R)
  }

  predicate First(ro: Routing, r: nat) {
    Valid(ro, r) && Rank(ro, r) == 0
  }

  /** How many rows before `k` are the first of their expert. */
  function Firsts(ro: Routing, k: nat): nat {
    if k == 0 then 0 else Firsts(ro, k - 1) + (if First(ro, k - 1) then 1 else 0)
  }

  function Uniq(ro: Routing, r: nat): int {
    Firsts(ro, r + 1) - 1
  }

  function Experts(ro: Routing): nat {
    Firsts(ro, MAX_R)
  }

  /** The kernel finds a row's expert index as a masked sum over all lanes. */
  function OwnerSum(ro: Routing, r: nat, k: nat): int {
    if k == 0 then 0
    else OwnerSum(ro, r, k - 1) + (if Eq(ro, r, k - 1) && k - 1 <= r && First(ro, k - 1) then Uniq(ro, k - 1) else 0)
  }

  function Owner(ro: Routing, r: nat): int {
    OwnerSum(ro, r, MAX_R)
  }

  // ----- ranks -----

  lemma {:induction false} BeforeMono(ro: Routing, r: int, j: nat, k: nat)
    requires j <= k
    ensures Before(ro, r, j) <= Before(ro, r, k)
  {
    if j < k { BeforeMono(ro, r, j, k - 1); }
  }

  lemma {:induction false} BeforeSame(ro: Routing, r: int, c: int, k: nat)
    requires Eq(ro, r, c)
    ensures Before(ro, r, k) == Before(ro, c, k)
  {
    if k > 0 { BeforeSame(ro, r, c, k - 1); }
  }

  /** Rows of one expert have different ranks, in row order. */
  lemma RankGrows(ro: Routing, r: nat, c: nat)
    requires Eq(ro, r, c) && r < c
    ensures Rank(ro, r) < Rank(ro, c)
  {
    BeforeSame(ro, r, c, r);
    BeforeMono(ro, c, r + 1, c);
  }

  lemma RankInCount(ro: Routing, r: nat)
    requires Fits(ro) && Valid(ro, r)
    ensures Rank(ro, r) < CountOf(ro, r)
  {
    BeforeMono(ro, r, r + 1, MAX_R);
  }

  /** Every rank below the count is some row's. */
  lemma {:induction false} RankTaken(ro: Routing, r: int, k: nat, i: nat) returns (c: nat)
    requires i < Before(ro, r, k)
    ensures c < k && Eq(ro, r, c) && Rank(ro, c) == i
  {
    c := k - 1;
    if i < Before(ro, r, k - 1) {
      c := RankTaken(ro, r, k - 1, i);
    } else {
      BeforeSame(ro, r, c, c);
    }
  }

  // ----- distinct experts -----

  lemma {:induction false} FirstsMono(ro: Routing, j: nat, k: nat)
    requires j <= k
    ensures Firsts(ro, j) <= Firsts(ro, k)
  {
    if j < k { FirstsMono(ro, j, k - 1); }
  }

  lemma UniqGrows(ro: Routing, r: nat, c: nat)
    requires First(ro, r) && First(ro, c) && r < c
    ensures Uniq(ro, r) < Uniq(ro, c)
  {
    FirstsMono(ro, r + 1, c);
  }

  lemma UniqRange(ro: Routing, r: nat)
    requires Fits(ro) && First(ro, r)
    ensures 0 <= Uniq(ro, r) < Experts(ro)
  {
    FirstsMono(ro, r + 1, MAX_R);
  }

  lemma {:induction false} FirstsBound(ro: Routing, k: nat)
    ensures Firsts(ro, k) <= k
  {
    if k > 0 { FirstsBound(ro, k - 1); }
  }

  /** Every index below the number of experts is some first row's. */
  lemma {:induction false} UniqTaken(ro: Routing, k: nat, u: nat) returns (f: nat)
    requires u < Firsts(ro, k)
    ensures f < k && First(ro, f) && Uniq(ro, f) == u
  {
    f := k - 1;
    if u < Firsts(ro, k - 1) { f := UniqTaken(ro, k - 1, u); }
  }

  /** The first row of a row's expert. */
  lemma FirstRow(ro: Routing, r: nat) returns (f: nat)
    requires Valid(ro, r)
    ensures f <= r && First(ro, f) && Eq(ro, r, f)
  {
    f := RankTaken(ro, r, r + 1, 0);
  }

  lemma {:induction false} OwnerOfFirst(ro: Routing, r: nat, f: nat, k: nat)
    requires f <= r && First(ro, f) && Eq(ro, r, f)
    ensures OwnerSum(ro, r, k) == if f < k then Uniq(ro, f) else 0
  {
    if k > 0 {
      OwnerOfFirst(ro, r, f, k - 1);
      var c := k - 1;
      if Eq(ro, r, c) && First(ro, c) && c != f {
        if c < f { RankGrows(ro, c, f); } else { RankGrows(ro, f, c); }
      }
    }
  }

  /** The masked sum is the index of the first row with the row's expert. */
  lemma OwnerIs(ro: Routing, r: nat) returns (f: nat)
    requires Fits(ro) && Valid(ro, r)
    ensures f <= r && First(ro, f) && Eq(ro, r, f) && Owner(ro, r) == Uniq(ro, f) && 0 <= Owner(ro, r) < Experts(ro)
  {
    f := FirstRow(ro, r);
    OwnerOfFirst(ro, r, f, MAX_R);
    UniqRange(ro, f);
  }

  /** Rows share an owner exactly when they share an expert. */
  lemma OwnerSame(ro: Routing, r: nat, c: nat)
    requires Fits(ro) && Valid(ro, r) && Valid(ro, c)
    ensures Owner(ro, r) == Owner(ro, c) <==> ro.ids[r] == ro.ids[c]
  {
    var f := OwnerIs(ro, r);
    var d := OwnerIs(ro, c);
    if f < d { UniqGrows(ro, f, d); }
    if d < f { UniqGrows(ro, d, f); }
    if ro.ids[r] == ro.ids[c] && f != d {
      if f < d { RankGrows(ro, f, d); } else { RankGrows(ro, d, f); }
    }
  }

  /** A place in the map holds at most one row. */
  lemma PlaceUnique(ro: Routing, r: nat, c: nat)
    requires Fits(ro) && Valid(ro, r) && Valid(ro, c) && Owner(ro, r) == Owner(ro, c) && Rank(ro, r) == Rank(ro, c)
    ensures r == c
  {
    OwnerSame(ro, r, c);
    if r < c { RankGrows(ro, r, c); }
    if c < r { RankGrows(ro, c, r); }
  }

  // ----- the kernel -----

  function RowPlace(ro: Routing): int -> int {
    r => if r >= 0 then Owner(ro, r) * WIDTH + 2 + Rank(ro, r) else 0
  }

  function HeadPlace(ro: Routing, column: int): int -> int {
    r => if r >= 0 then Uniq(ro, r) * WIDTH + column else 0
  }

  predicate Packs(ro: Routing, r: int) {
    Valid(ro, r) && Rank(ro, r) < BLOCK_M
  }

  predicate Heads(ro: Routing, r: int) {
    Valid(ro, r) && First(ro, r)
  }

  /** What the map holds once the kernel has run. */
  ghost predicate HoldsMap(ro: Routing, m: seq<int>) {
    && |m| >= (MAX_R + 1) * WIDTH
    && (forall r | Packs(ro, r) :: 0 <= RowPlace(ro)(r) < MAX_R * WIDTH && m[RowPlace(ro)(r)] == r)
    && (forall r | Heads(ro, r) :: 0 <= HeadPlace(ro, 0)(r) < MAX_R * WIDTH - 1 && m[HeadPlace(ro, 0)(r)] == ro.ids[r])
    && (forall r | Heads(ro, r) :: 0 < HeadPlace(ro, 1)(r) < MAX_R * WIDTH && m[HeadPlace(ro, 1)(r)] == CountOf(ro, r))
    && m[MAX_R * WIDTH] == Experts(ro)
  }

  lemma RowPlaceIs(ro: Routing, r: nat)
    requires Fits(ro) && Packs(ro, r)
    ensures 0 <= RowPlace(ro)(r) < MAX_R * WIDTH && RowPlace(ro)(r) / WIDTH == Owner(ro, r)
    ensures RowPlace(ro)(r) % WIDTH == 2 + Rank(ro, r)
  {
    var f := OwnerIs(ro, r);
    FirstsBound(ro, MAX_R);
  }

  lemma HeadPlaceIs(ro: Routing, r: nat, column: nat)
    requires Fits(ro) && Heads(ro, r) && column < 2
    ensures 0 <= HeadPlace(ro, column)(r) < MAX_R * WIDTH && HeadPlace(ro, column)(r) / WIDTH == Uniq(ro, r)
    ensures HeadPlace(ro, column)(r) % WIDTH == column
  {
    UniqRange(ro, r);
    FirstsBound(ro, MAX_R);
  }

  lemma HeadsApart(ro: Routing, r: nat, c: nat)
    requires Heads(ro, r) && Heads(ro, c) && Uniq(ro, r) == Uniq(ro, c)
    ensures r == c
  {
    if r < c { UniqGrows(ro, r, c); }
    if c < r { UniqGrows(ro, c, r); }
  }

  /** The masked store of the rows. */
  method StoreRows(ro: Routing, m: array<int>)
    requires Fits(ro) && m.Length >= (MAX_R + 1) * WIDTH
    modifies m
    ensures forall r | Packs(ro, r) :: 0 <= RowPlace(ro)(r) < MAX_R * WIDTH && m[RowPlace(ro)(r)] == r
  {
    var lanes := map r | 0 <= r < MAX_R && Packs(ro, r) :: r;
    forall r | Packs(ro, r)
      ensures r in lanes && 0 <= RowPlace(ro)(r) < MAX_R * WIDTH && RowPlace(ro)(r) / WIDTH == Owner(ro, r)
      ensures RowPlace(ro)(r) % WIDTH == 2 + Rank(ro, r)
    {
      RowPlaceIs(ro, r);
    }
    forall r, c | r in lanes && c in lanes && RowPlace(ro)(r) == RowPlace(ro)(c)
      ensures r == c
    {
      PlaceUnique(ro, r, c);
    }
    Commit(lanes, RowPlace(ro), m);
  }

  /** The masked stores of the experts and of their counts. */
  method StoreHeads(ro: Routing, m: array<int>, column: nat, value: int -> int)
    requires Fits(ro) && column < 2 && m.Length >= (MAX_R + 1) * WIDTH
    modifies m
    ensures forall r | Heads(ro, r) :: 0 <= HeadPlace(ro, column)(r) < MAX_R * WIDTH && m[HeadPlace(ro, column)(r)] == value(r)
    ensures forall a | 0 <= a < m.Length && a % WIDTH != column :: m[a] == old(m[a])
  {
    var lanes := map r | 0 <= r < MAX_R && Heads(ro, r) :: value(r);
    forall r | Heads(ro, r)
      ensures r in lanes && 0 <= HeadPlace(ro, column)(r) < MAX_R * WIDTH
      ensures HeadPlace(ro, column)(r) / WIDTH == Uniq(ro, r) && HeadPlace(ro, column)(r) % WIDTH == column
    {
      HeadPlaceIs(ro, r, column);
    }
    forall r, c | r in lanes && c in lanes && HeadPlace(ro, column)(r) == HeadPlace(ro, column)(c)
      ensures r == c
    {
      HeadsApart(ro, r, c);
    }
    Commit(lanes, HeadPlace(ro, column), m);
  }

  /** The kernel: four stores into an uninitialised map. */
  method RouteMapKernel(ro: Routing, m: array<int>)
    requires Fits(ro) && m.Length >= (MAX_R + 1) * WIDTH
    modifies m
    ensures HoldsMap(ro, m[..])
  {
    StoreRows(ro, m);
    forall r | Packs(ro, r)
      ensures RowPlace(ro)(r) % WIDTH >= 2
    {
      RowPlaceIs(ro, r);
    }
    StoreHeads(ro, m, 0, r => Id(ro, r));
    forall r | Heads(ro, r)
      ensures HeadPlace(ro, 0)(r) % WIDTH == 0 && HeadPlace(ro, 1)(r) % WIDTH == 1
      ensures HeadPlace(ro, 1)(r) == HeadPlace(ro, 0)(r) + 1
    {
      HeadPlaceIs(ro, r, 0);
      HeadPlaceIs(ro, r, 1);
    }
    StoreHeads(ro, m, 1, r => CountOf(ro, r));
    m[MAX_R * WIDTH] := Experts(ro);
  }

  // ----- reading it back -----

  function At(m: seq<int>, a: int): int {
    if 0 <= a < |m| then m[a] else 0
  }

  function Min(a: int, b: int): int {
    if a <= b then a else b
  }

  function Base(u: int): int {
    Min(u, MAX_R - 1) * WIDTH
  }

  function ExpertAt(m: seq<int>, u: int): int {
    At(m, Base(u))
  }

  predicate RowValid(m: seq<int>, u: int, i: int) {
    0 <= i < BLOCK_M && i < At(m, Base(u) + 1) && u < At(m, MAX_R * WIDTH)
  }

  /** The masked load of a row; invalid lanes read row 0. */
  function RowAt(m: seq<int>, u: int, i: int): int {
    if RowValid(m, u, i) then At(m, Base(u) + 2 + i) else 0
  }

  /** A row that fits its expert's tile is found there, under its own expert. */
  lemma RowFound(ro: Routing, m: seq<int>, r: nat)
    requires Fits(ro) && HoldsMap(ro, m) && Packs(ro, r)
    ensures var (u, i) := (Owner(ro, r), Rank(ro, r));
            0 <= u < MAX_R && RowValid(m, u, i) && RowAt(m, u, i) == r && ExpertAt(m, u) == ro.ids[r]
  {
    var f := OwnerIs(ro, r);
    FirstsBound(ro, MAX_R);
    assert Heads(ro, f);
    HeadPlaceIs(ro, f, 0);
    BeforeSame(ro, r, f, MAX_R);
    RankInCount(ro, r);
    assert HeadPlace(ro, 0)(f) == Base(Owner(ro, r)) && HeadPlace(ro, 1)(f) == Base(Owner(ro, r)) + 1;
    assert RowPlace(ro)(r) == Base(Owner(ro, r)) + 2 + Rank(ro, r);
  }

  /** Whatever a tile lane reads is a row of that expert at that rank. */
  lemma LaneHolds(ro: Routing, m: seq<int>, u: nat, i: nat) returns (r: nat)
    requires Fits(ro) && HoldsMap(ro, m) && RowValid(m, u, i)
    ensures Packs(ro, r) && Owner(ro, r) == u && Rank(ro, r) == i && RowAt(m, u, i) == r && ExpertAt(m, u) == ro.ids[r]
  {
    FirstsBound(ro, MAX_R);
    var f := UniqTaken(ro, MAX_R, u);
    assert Heads(ro, f);
    HeadPlaceIs(ro, f, 0);
    assert HeadPlace(ro, 1)(f) == Base(u) + 1;
    r := RankTaken(ro, f, MAX_R, i);
    OwnerOfFirstRow(ro, f);
    OwnerSame(ro, r, f);
    RowFound(ro, m, r);
  }

  lemma OwnerOfFirstRow(ro: Routing, f: nat)
    requires Fits(ro) && Heads(ro, f)
    ensures Owner(ro, f) == Uniq(ro, f)
  {
    OwnerOfFirst(ro, f, f, MAX_R);
  }

  /** Each valid row is packed exactly once if it is among the first 16 of its expert, and
      otherwise not at all. */
  lemma PackedOnceIff(ro: Routing, m: seq<int>, r: nat)
    requires Fits(ro) && HoldsMap(ro, m) && Valid(ro, r)
    ensures Rank(ro, r) < BLOCK_M <==> exists u, i :: 0 <= u < MAX_R && RowValid(m, u, i) && RowAt(m, u, i) == r
    ensures forall u, i, v, j | 0 <= u < MAX_R && RowValid(m, u, i) && RowAt(m, u, i) == r
                                && 0 <= v < MAX_R && RowValid(m, v, j) && RowAt(m, v, j) == r :: u == v && i == j
  {
    if Rank(ro, r) < BLOCK_M { RowFound(ro, m, r); }
    forall u, i | 0 <= u < MAX_R && RowValid(m, u, i) && RowAt(m, u, i) == r
      ensures u == Owner(ro, r) && i == Rank(ro, r) < BLOCK_M
    {
      var c := LaneHolds(ro, m, u, i);
    }
  }

  // ----- no expert gets more than a tile of rows -----

  /** The ids of one token differ, as top-k ids do. */
  ghost predicate DistinctPerToken(ro: Routing, topK: nat)
    requires topK > 0
  {
    forall r, c | Valid(ro, r) && Valid(ro, c) && r < c && r / topK == c / topK :: ro.ids[r] != ro.ids[c]
  }

  /** Each token before `t` sends at most one row to an expert. */
  lemma {:induction false} OnePerToken(ro: Routing, topK: nat, r: int, t: nat, k: nat)
    requires topK > 0 && DistinctPerToken(ro, topK) && t * topK <= k <= (t + 1) * topK
    ensures Before(ro, r, k) <= t + 1
    ensures k == t * topK || !(exists c :: t * topK <= c < k && Eq(ro, r, c)) ==> Before(ro, r, k) <= t
    decreases k, t
  {
    if k > 0 {
      if k == t * topK {
        assert t > 0;
        OnePerToken(ro, topK, r, t - 1, k);
      } else {
        OnePerToken(ro, topK, r, t, k - 1);
        if Eq(ro, r, k - 1) {
          forall c | t * topK <= c < k - 1
            ensures !Eq(ro, r, c)
          {
            DivModUnique(c, topK, t, c - t * topK);
            DivModUnique(k - 1, topK, t, k - 1 - t * topK);
          }
        }
      }
    }
  }

  /** At most 16 tokens with distinct ids each: every valid row fits its expert's tile. */
  lemma EveryRowFits(ro: Routing, topK: nat, tokens: nat, r: nat)
    requires topK > 0 && DistinctPerToken(ro, topK) && |ro.ids| == tokens * topK && tokens <= 16 && Valid(ro, r)
    ensures Rank(ro, r) <= r / topK < tokens && Packs(ro, r)
  {
    var t := r / topK;
    DivModSpec(r, topK);
    if t >= tokens { MulMono(tokens, t, topK); }
    if t < 0 { MulMono(t, -1, topK); }
    assert (t + 1) * topK == t * topK + topK;
    forall c | t * topK <= c < r
      ensures !Eq(ro, r, c)
    {
      DivModUnique(c, topK, t, c - t * topK);
    }
    OnePerToken(ro, topK, r, t, r);
  }
}
