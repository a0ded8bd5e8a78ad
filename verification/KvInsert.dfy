/** The paged FP8 cache insert: exponents read off the bits of a binary32, and where each
    token's bytes go. */
module KvInsert {
  import opened Arithmetic
  import opened Launch

  // ----- powers of two -----

  function Doublings(k: int): real
    decreases if k < 0 then -k else k
  {
    if k == 0 then 1.0 else if k > 0 then 2.0 * Doublings(k - 1) else Doublings(k + 1) / 2.0
  }

  function Pow2(k: int): real {
    Doublings(k)
  }

  lemma Pow2Step(k: int)
    ensures Pow2(k + 1) == 2.0 * Pow2(k) && Pow2(0) == 1.0
  {
  }

  lemma {:induction false} Pow2Positive(k: int)
    ensures Pow2(k) > 0.0
    decreases if k < 0 then -k else k
  {
    if k > 0 { Pow2Positive(k - 1); }
    if k < 0 { Pow2Positive(k + 1); }
  }

  lemma {:induction false} Pow2Mono(j: int, k: int)
    requires j <= k
    ensures Pow2(j) <= Pow2(k)
    decreases k - j
  {
    if j < k {
      Pow2Mono(j, k - 1);
      Pow2Step(k - 1);
      Pow2Positive(k - 1);
    }
  }

  lemma {:induction false} Pow2Add(a: int, b: nat)
    ensures Pow2(a + b) == Pow2(a) * Pow2(b)
    decreases b
  {
    if b > 0 {
      Pow2Add(a, b - 1);
      Pow2Step(a + b - 1);
      var (x, y) := (Pow2(a), Pow2(b - 1));
      assert Pow2(b) == 2.0 * y;
      assert 2.0 * (x * y) == x * (2.0 * y);
    }
  }

  lemma Pow2At23()
    ensures Pow2(23) == 8388608.0
  {
    assert Pow2(4) == 16.0;
    Pow2Add(4, 4);
    Pow2Add(8, 8);
    assert Pow2(3) == 8.0;
    Pow2Add(4, 3);
    Pow2Add(16, 7);
  }

  lemma Pow2Inverse(e: int)
    ensures Pow2(-e) * Pow2(e) == 1.0
  {
    if e >= 0 { Pow2Add(-e, e); } else { Pow2Add(e, -e); }
  }

  // ----- IEEE 754-2019 binary32, section 3.4, of nonnegative numbers -----

  const FRACTION := 0x800000
  const INFINITY := 0x7F800000

  predicate Finite(bits: int) {
    0 <= bits < INFINITY
  }

  function Field(bits: int): int {
    bits / FRACTION
  }

  function Fraction(bits: int): int {
    bits % FRACTION
  }

  function Significand(bits: int): int {
    if Field(bits) == 0 then Fraction(bits) else FRACTION + Fraction(bits)
  }

  /** The power of two of the last place. */
  function LastPlace(bits: int): int {
    if Field(bits) == 0 then -149 else Field(bits) - 150
  }

  /** The number that the bits encode. */
  function Value(bits: int): real {
    Significand(bits) as real * Pow2(LastPlace(bits))
  }

  lemma Parts(bits: int)
    requires bits >= 0
    ensures 0 <= Field(bits) && bits == Field(bits) * FRACTION + Fraction(bits)
    ensures 0 <= Significand(bits) < (if Field(bits) == 0 then FRACTION else 2 * FRACTION)
    ensures Field(bits) > 0 ==> Significand(bits) >= FRACTION
    ensures LastPlace(bits) >= -149
  {
    DivModSpec(bits, FRACTION);
  }

  /** A number is below the next power of two, ... */
  lemma AtMost(a: int)
    requires a >= 0
    ensures Value(a) <= FRACTION as real * Pow2(Field(a) - 149)
  {
    Parts(a);
    Pow2Positive(LastPlace(a));
    if Field(a) == 0 {
      ScaleMono(Significand(a), FRACTION, Pow2(-149));
    } else {
      Pow2Step(Field(a) - 150);
      hide Pow2;
      ScaleMono(Significand(a), 2 * FRACTION, Pow2(Field(a) - 150));
      Doubled(FRACTION, Pow2(Field(a) - 150));
    }
  }

  /** ... and at least the power of two of its field. */
  lemma AtLeast(b: int)
    requires b >= 0 && Field(b) > 0
    ensures FRACTION as real * Pow2(Field(b) - 150) <= Value(b)
  {
    Parts(b);
    Pow2Positive(Field(b) - 150);
    hide Pow2;
    ScaleMono(FRACTION, Significand(b), Pow2(Field(b) - 150));
  }

  lemma Doubled(x: int, p: real)
    ensures (2 * x) as real * p == x as real * (2.0 * p)
  {
  }

  /** More bits, larger number: so the largest bits are the largest number's. */
  lemma ValueMono(a: int, b: int)
    requires 0 <= a <= b
    ensures Value(a) <= Value(b)
  {
    hide Pow2, Significand, Field, Fraction, Value;
    BitsOrder(a, b);
    var (e, f) := (Field(a), Field(b));
    if e == f {
      SameField(a, b);
    } else {
      AtMost(a);
      AtLeast(b);
      Pow2Mono(e - 149, f - 150);
      ScaleUp(FRACTION, Pow2(e - 149), Pow2(f - 150));
    }
  }

  lemma BitsOrder(a: int, b: int)
    requires 0 <= a <= b
    ensures 0 <= Field(a) <= Field(b) && (Field(a) == Field(b) ==> Significand(a) <= Significand(b))
  {
    Parts(a);
    Parts(b);
  }

  lemma SameField(a: int, b: int)
    requires Field(a) == Field(b) && Significand(a) <= Significand(b)
    ensures Value(a) <= Value(b)
  {
    hide Pow2, Significand;
    Pow2Positive(LastPlace(b));
    ScaleMono(Significand(a), Significand(b), Pow2(LastPlace(b)));
  }

  lemma ScaleMono(x: int, y: int, p: real)
    requires x <= y && p >= 0.0
    ensures x as real * p <= y as real * p
  {
  }

  lemma ScaleUp(x: nat, p: real, q: real)
    requires p <= q
    ensures x as real * p <= x as real * q
  {
  }

  function Max(a: int, b: int): int {
    if a >= b then a else b
  }

  // ----- the scale exponent -----

  /** The bits of 1e-4 rounded to binary32, below which no group maximum goes. */
  const AMIN := 0x38D1B717
  const GROUP := 64

  /** The bits of the largest magnitude of a group. */
  function MaxBits(xs: seq<int>): int {
    if xs == [] then AMIN else Max(MaxBits(xs[..|xs| - 1]), xs[|xs| - 1])
  }

  lemma {:induction false} MaxBitsBounds(xs: seq<int>, i: nat)
    requires forall x | x in xs :: Finite(x)
    ensures AMIN <= MaxBits(xs) < INFINITY
    ensures i < |xs| ==> xs[i] <= MaxBits(xs)
    ensures MaxBits(xs) == AMIN || MaxBits(xs) in xs
  {
    if xs != [] {
      var rest := xs[..|xs| - 1];
      assert forall x | x in rest :: x in xs;
      MaxBitsBounds(rest, i);
      assert xs[|xs| - 1] in xs;
    }
  }

  /** `(bits >> 23) - 135 + ((bits & 0x7FFFFF) > 0x600000)`. */
  function Exponent(bits: int): int {
    Field(bits) - 135 + (if Fraction(bits) > 0x600000 then 1 else 0)
  }

  /** 448 times a power of two in units of the last place: 1.75 times 2^23 of them. */
  lemma Unit(k: int)
    ensures 448.0 * Pow2(k) == 14680064.0 * Pow2(k - 15)
  {
    Pow2Add(k - 15, 15);
    assert Pow2(5) == 32.0;
    Pow2Add(5, 5);
    Pow2Add(10, 5);
  }

  lemma SamePlace(s: int, p: real)
    requires p > 0.0
    ensures s as real * p <= 14680064.0 * p <==> s <= 14680064
  {
    if s <= 14680064 { ScaleMono(s, 14680064, p); } else { StrictScale(14680064, s, p); }
  }

  lemma LowerPlace(s: int, p: real, q: real)
    requires s <= 2 * FRACTION && p > 0.0 && 2.0 * p <= q
    ensures s as real * p <= 14680064.0 * q
  {
    ScaleMono(s, 2 * FRACTION, p);
    Doubled(FRACTION, p);
    ScaleUp(FRACTION, 2.0 * p, q);
    ScaleMono(FRACTION, 14680064, q);
  }

  lemma HigherPlace(s: int, p: real, q: real)
    requires s >= FRACTION && q > 0.0 && 2.0 * q <= p
    ensures s as real * p > 14680064.0 * q
  {
    StrictScale(14680064, 2 * FRACTION, q);
    Doubled(FRACTION, q);
    ScaleUp(FRACTION, 2.0 * q, p);
    ScaleMono(FRACTION, s, p);
  }

  /** The exponent is the least power of two for which the maximum does not exceed 448 times it. */
  lemma ExponentIsLeast(bits: int, k: int)
    requires AMIN <= bits < INFINITY
    ensures Value(bits) <= 448.0 * Pow2(k) <==> Exponent(bits) <= k
  {
    hide Pow2, Value, Exponent, Significand, Field, Fraction;
    NormalParts(bits);
    var (e, s) := (Field(bits), Significand(bits));
    Unit(k);
    Pow2Positive(e - 150);
    Pow2Positive(k - 15);
    if k - 15 == e - 150 {
      SamePlace(s, Pow2(k - 15));
    } else if k - 15 > e - 150 {
      Pow2Mono(e - 149, k - 15);
      Pow2Step(e - 150);
      LowerPlace(s, Pow2(e - 150), Pow2(k - 15));
    } else {
      Pow2Mono(k - 14, e - 150);
      Pow2Step(k - 15);
      HigherPlace(s, Pow2(e - 150), Pow2(k - 15));
    }
  }

  /** A group maximum is a normal number. */
  lemma NormalParts(bits: int)
    requires AMIN <= bits < INFINITY
    ensures Field(bits) > 0 && FRACTION <= Significand(bits) < 2 * FRACTION
    ensures Value(bits) == Significand(bits) as real * Pow2(Field(bits) - 150)
    ensures Exponent(bits) == Field(bits) - 135 + (if Significand(bits) > 14680064 then 1 else 0)
  {
    hide Pow2;
    Parts(bits);
  }

  lemma StrictScale(x: int, y: int, p: real)
    requires x < y && p > 0.0
    ensures x as real * p < y as real * p
  {
  }

  /** The exponent byte and the bits of the inverse scale are in range without a clamp. */
  lemma ExponentRange(bits: int)
    requires AMIN <= bits < INFINITY
    ensures 105 <= Exponent(bits) + 127 <= 247
    ensures 0 < 127 - Exponent(bits) < 255
  {
    DivModSpec(bits, FRACTION);
  }

  function InverseBits(e: int): int {
    (127 - e) * FRACTION
  }

  /** Those bits are the exact inverse of the scale that the byte stands for. */
  lemma InverseIsExact(bits: int)
    requires AMIN <= bits < INFINITY
    ensures var e := Exponent(bits);
            Finite(InverseBits(e)) && Value(InverseBits(e)) == Pow2(-e) && Value(InverseBits(e)) * Pow2(e) == 1.0
  {
    ExponentRange(bits);
    var e := Exponent(bits);
    assert e + 127 - 127 == e;
    DivModUnique(InverseBits(e), FRACTION, 127 - e, 0);
    Pow2At23();
    Pow2Add(-e - 23, 23);
    Pow2Inverse(e);
  }

  function Clamp(x: real, lo: real, hi: real): real {
    if x < lo then lo else if x > hi then hi else x
  }

  function ClampByte(b: int): int {
    if b < 0 then 0 else if b > 255 then 255 else b
  }

  /** An element times the inverse scale. */
  function Scaled(sign: real, x: int, e: int): real {
    sign * Value(x) * Value(InverseBits(e))
  }

  /** On finite input neither clamp acts: no scaled element of the group exceeds 448, and the
      byte is the exponent plus 127. */
  lemma ClampsNeverAct(xs: seq<int>, i: nat, sign: real)
    requires (forall x | x in xs :: Finite(x)) && i < |xs| && (sign == 1.0 || sign == -1.0)
    ensures var e := Exponent(MaxBits(xs));
            Clamp(Scaled(sign, xs[i], e), -448.0, 448.0) == Scaled(sign, xs[i], e) && ClampByte(e + 127) == e + 127
  {
    hide Value, Pow2, Exponent, MaxBits, InverseBits, Scaled;
    MaxBitsBounds(xs, i);
    var (top, e) := (MaxBits(xs), Exponent(MaxBits(xs)));
    ExponentRange(top);
    assert xs[i] in xs;
    ScaledBound(xs[i], top, sign);
  }

  lemma ScaledBound(x: int, top: int, sign: real)
    requires 0 <= x <= top && AMIN <= top < INFINITY && (sign == 1.0 || sign == -1.0)
    ensures -448.0 <= Scaled(sign, x, Exponent(top)) <= 448.0
  {
    hide Value, Pow2, Exponent, InverseBits;
    var e := Exponent(top);
    ExponentIsLeast(top, e);
    InverseIsExact(top);
    ValueMono(x, top);
    ValueMono(0, x);
    ZeroValue();
    Pow2Positive(-e);
    Within(Value(x), Pow2(e), Value(InverseBits(e)), sign);
  }

  lemma Within(v: real, p: real, q: real, sign: real)
    requires 0.0 <= v <= 448.0 * p && q > 0.0 && q * p == 1.0 && (sign == 1.0 || sign == -1.0)
    ensures -448.0 <= sign * v * q <= 448.0
  {
    ScaledDown(v, 448.0 * p, q);
    ScaledDown(0.0, v, q);
    assert 448.0 * p * q == 448.0 * (q * p);
    assert sign * v * q == sign * (v * q);
  }

  lemma ZeroValue()
    ensures Value(0) == 0.0
  {
    assert Significand(0) == 0;
  }

  lemma ScaledDown(x: real, y: real, p: real)
    requires x <= y && p > 0.0
    ensures x * p <= y * p
  {
  }

  // ----- where the bytes go -----

  const NOPE := 448
  const TOKEN_BYTES := 576
  const SCALE_BYTES := 8

  datatype Cache = Cache(blocks: nat, blockSize: nat, stride: nat)

  /** What the gate checks of the cache. */
  predicate Supported(k: Cache) {
    k.blockSize > 0 && k.stride >= k.blockSize * (TOKEN_BYTES + SCALE_BYTES)
  }

  predicate InCache(k: Cache, slot: int) {
    0 <= slot < k.blocks * k.blockSize
  }

  /** A byte of a slot: an FP8 code, half of a BF16 RoPE value, or a scale. */
  datatype Cell = Token(slot: int, d: int) | Scale(slot: int, g: int)

  predicate IsCell(k: Cache, x: Cell) {
    InCache(k, x.slot) && (if x.Token? then 0 <= x.d < TOKEN_BYTES else 0 <= x.g < SCALE_BYTES)
  }

  function Addr(k: Cache): Cell -> int
    requires k.blockSize > 0
  {
    (x: Cell) =>
      var page := x.slot / k.blockSize;
      var inBlock := x.slot - page * k.blockSize;
      if x.Token? then page * k.stride + inBlock * TOKEN_BYTES + x.d
      else page * k.stride + k.blockSize * TOKEN_BYTES + inBlock * SCALE_BYTES + x.g
  }

  /** The offset of a byte inside its page. */
  function Offset(k: Cache, x: Cell): int
    requires k.blockSize > 0
  {
    var inBlock := x.slot - x.slot / k.blockSize * k.blockSize;
    if x.Token? then inBlock * TOKEN_BYTES + x.d else k.blockSize * TOKEN_BYTES + inBlock * SCALE_BYTES + x.g
  }

  /** Every byte stays inside the stride of its own page. */
  lemma InsidePage(k: Cache, x: Cell)
    requires Supported(k) && IsCell(k, x)
    ensures 0 <= Offset(k, x) < k.stride && Addr(k)(x) == x.slot / k.blockSize * k.stride + Offset(k, x)
    ensures 0 <= x.slot / k.blockSize < k.blocks && 0 <= Addr(k)(x) < k.blocks * k.stride
  {
    DivModSpec(x.slot, k.blockSize);
    var page := x.slot / k.blockSize;
    var inBlock := x.slot - page * k.blockSize;
    if page < 0 { MulMono(page, -1, k.blockSize); }
    if page >= k.blocks { MulMono(k.blocks, page, k.blockSize); }
    RowMajorInside(page, Offset(k, x), k.blocks, k.stride);
  }

  /** A page holds its slots' 576 bytes each, then 8 scale bytes for every slot. */
  lemma AddrIs(k: Cache, slot: int, d: int, g: int)
    requires k.blockSize > 0
    ensures Addr(k)(Token(slot, d)) == slot / k.blockSize * k.stride + slot % k.blockSize * 576 + d
    ensures Addr(k)(Scale(slot, g)) == slot / k.blockSize * k.stride + k.blockSize * 576 + slot % k.blockSize * 8 + g
  {
    DivModSpec(slot, k.blockSize);
  }

  /** Bytes of different slots, and different bytes of one slot, have different addresses. */
  lemma BytesApart(k: Cache, x: Cell, y: Cell)
    requires Supported(k) && IsCell(k, x) && IsCell(k, y) && Addr(k)(x) == Addr(k)(y)
    ensures x == y
  {
    InsidePage(k, x);
    InsidePage(k, y);
    RowMajorUnique(x.slot / k.blockSize, Offset(k, x), y.slot / k.blockSize, Offset(k, y), k.stride);
    DivModSpec(x.slot, k.blockSize);
    DivModSpec(y.slot, k.blockSize);
    var page := x.slot / k.blockSize;
    var (a, b) := (x.slot - page * k.blockSize, y.slot - page * k.blockSize);
    if x.Token? && y.Token? {
      RowMajorUnique(a, x.d, b, y.d, TOKEN_BYTES);
    } else if x.Scale? && y.Scale? {
      RowMajorUnique(a, x.g, b, y.g, SCALE_BYTES);
    }
  }

  // ----- the insert -----

  /** The tokens of a batch: `slots` may be shorter, and a slot outside the cache is padding.
      `code(t, d, e)` is the byte of element `d` scaled by `2^-e`, `rope(t, j)` of the rotated
      part; `bits` gives the magnitudes of the elements. */
  datatype Batch = Batch(tokens: nat, slots: seq<int>, bits: (int, int) -> int,
                         code: (int, int, int) -> int, rope: (int, int) -> int)

  function Slot(b: Batch, t: int): int {
    if 0 <= t < |b.slots| then b.slots[t] else -1
  }

  function GroupBits(b: Batch, t: int, g: int): seq<int> {
    seq(GROUP, (i: int) => b.bits(t, g * GROUP + i))
  }

  /** The byte that token `t` puts in a cell of its slot. */
  function ByteOf(b: Batch, t: int, x: Cell): int {
    if x.Token? then
      if x.d < NOPE then b.code(t, x.d, Exponent(MaxBits(GroupBits(b, t, x.d / GROUP)))) else b.rope(t, x.d - NOPE)
    else if x.g < NOPE / GROUP then ClampByte(Exponent(MaxBits(GroupBits(b, t, x.g))) + 127)
    else 0
  }

  /** All elements of a 64-wide group are coded with one exponent, which the group's scale byte holds
      plus 127: the least power of two of which 448 times covers them all and 1e-4. The rotated part
      follows, and the eighth scale byte is zero. */
  lemma GroupScale(b: Batch, t: int, slot: int, g: int) returns (e: int)
    requires 0 <= g < 7 && forall d | 0 <= d < 448 :: Finite(b.bits(t, d))
    ensures forall d | 0 <= d < 448 && d / 64 == g :: ByteOf(b, t, Token(slot, d)) == b.code(t, d, e)
    ensures ByteOf(b, t, Scale(slot, g)) == e + 127 && 0 <= e + 127 <= 255
    ensures forall k :: e <= k <==>
              Value(0x38D1B717) <= 448.0 * Pow2(k)
              && forall d | 0 <= d < 448 && d / 64 == g :: Value(b.bits(t, d)) <= 448.0 * Pow2(k)
    ensures forall d | 448 <= d < 576 :: ByteOf(b, t, Token(slot, d)) == b.rope(t, d - 448)
    ensures ByteOf(b, t, Scale(slot, 7)) == 0
  {
    var xs := GroupBits(b, t, g);
    hide Value, Pow2, Exponent, MaxBits, Finite;
    forall x | x in xs ensures Finite(x) {
      var i :| 0 <= i < 64 && xs[i] == x;
      assert x == b.bits(t, g * 64 + i);
    }
    MaxBitsBounds(xs, 0);
    e := Exponent(MaxBits(xs));
    ExponentRange(MaxBits(xs));
    forall k
      ensures e <= k <==> Value(0x38D1B717) <= 448.0 * Pow2(k)
                          && forall d | 0 <= d < 448 && d / 64 == g :: Value(b.bits(t, d)) <= 448.0 * Pow2(k)
    {
      Covers(b, t, g, k);
    }
  }

  lemma Covers(b: Batch, t: int, g: int, k: int)
    requires 0 <= g < 7 && forall d | 0 <= d < 448 :: Finite(b.bits(t, d))
    ensures Exponent(MaxBits(GroupBits(b, t, g))) <= k <==>
            Value(0x38D1B717) <= 448.0 * Pow2(k)
            && forall d | 0 <= d < 448 && d / 64 == g :: Value(b.bits(t, d)) <= 448.0 * Pow2(k)
  {
    var (xs, top) := (GroupBits(b, t, g), MaxBits(GroupBits(b, t, g)));
    hide Value, Pow2, Exponent, MaxBits;
    forall x | x in xs ensures Finite(x) {
      var i :| 0 <= i < 64 && xs[i] == x;
      assert x == b.bits(t, g * 64 + i);
    }
    MaxBitsBounds(xs, 0);
    ExponentIsLeast(top, k);
    ValueMono(AMIN, top);
    forall d | 0 <= d < 448 && d / 64 == g
      ensures Value(b.bits(t, d)) <= Value(top)
    {
      MaxBitsBounds(xs, d - g * 64);
      assert xs[d - g * 64] == b.bits(t, d);
      ValueMono(b.bits(t, d), top);
    }
    if top != AMIN {
      var i :| 0 <= i < 64 && xs[i] == top;
      assert top == b.bits(t, g * 64 + i) && (g * 64 + i) / 64 == g;
    }
  }

  function Cells(slot: int): set<Cell> {
    (set d | 0 <= d < TOKEN_BYTES && IsOffset(d) :: Token(slot, d)) + (set g | 0 <= g < SCALE_BYTES && IsOffset(g) :: Scale(slot, g))
  }

  predicate IsOffset(d: int) {
    d >= 0
  }

  function Stores(k: Cache, b: Batch): int -> map<Cell, int> {
    t => if InCache(k, Slot(b, t)) then map x | x in Cells(Slot(b, t)) :: ByteOf(b, t, x) else map[]
  }

  /** The scale byte of a group; the eighth byte of a slot is zero. */
  method ScaleByte(exponent: int, g: nat) returns (byte: int)
    ensures byte == if g < NOPE / GROUP then ClampByte(exponent + 127) else 0
  {
    byte := ClampByte(exponent + 127);
    if g >= NOPE / GROUP { byte := 0; }
  }

  method TokenBytes(b: Batch, t: int, slot: int) returns (stores: map<Cell, int>)
    ensures forall x: Cell :: x in stores <==> x.Token? && x.slot == slot && 0 <= x.d < TOKEN_BYTES
    ensures forall x | x in stores :: stores[x] == ByteOf(b, t, x)
  {
    hide ByteOf, Exponent, MaxBits, GroupBits;
    stores := map[];
    for d := 0 to TOKEN_BYTES
      invariant forall x: Cell :: x in stores <==> x.Token? && x.slot == slot && 0 <= x.d < d
      invariant forall x | x in stores :: stores[x] == ByteOf(b, t, x)
    {
      TokenByte(b, t, slot, d);
      var byte := if d < NOPE then b.code(t, d, Exponent(MaxBits(GroupBits(b, t, d / GROUP)))) else b.rope(t, d - NOPE);
      stores := stores[Token(slot, d) := byte];
    }
  }

  method ScaleBytes(b: Batch, t: int, slot: int) returns (stores: map<Cell, int>)
    ensures forall x: Cell :: x in stores <==> x.Scale? && x.slot == slot && 0 <= x.g < SCALE_BYTES
    ensures forall x | x in stores :: stores[x] == ByteOf(b, t, x)
  {
    hide ByteOf, Exponent, MaxBits, GroupBits, ClampByte;
    stores := map[];
    for g := 0 to SCALE_BYTES
      invariant forall x: Cell :: x in stores <==> x.Scale? && x.slot == slot && 0 <= x.g < g
      invariant forall x | x in stores :: stores[x] == ByteOf(b, t, x)
    {
      ScaleByteIs(b, t, slot, g);
      var byte := ScaleByte(Exponent(MaxBits(GroupBits(b, t, g))), g);
      stores := stores[Scale(slot, g) := byte];
    }
  }

  /** One program: nothing for a padding slot, else the codes, the rotated part and the scales. */
  method Program(k: Cache, b: Batch, t: int) returns (stores: map<Cell, int>)
    ensures stores == Stores(k, b)(t)
  {
    hide ByteOf, Cells;
    stores := map[];
    var slot := Slot(b, t);
    if InCache(k, slot) {
      var tokens := TokenBytes(b, t, slot);
      var scales := ScaleBytes(b, t, slot);
      stores := tokens + scales;
      forall x ensures x in stores <==> x in Cells(slot) { CellsAre(slot, x); }
      assert stores == Stores(k, b)(t);
    }
  }

  lemma TokenByte(b: Batch, t: int, slot: int, d: nat)
    ensures ByteOf(b, t, Token(slot, d)) ==
            if d < NOPE then b.code(t, d, Exponent(MaxBits(GroupBits(b, t, d / GROUP)))) else b.rope(t, d - NOPE)
  {
  }

  lemma ScaleByteIs(b: Batch, t: int, slot: int, g: nat)
    ensures ByteOf(b, t, Scale(slot, g)) ==
            if g < NOPE / GROUP then ClampByte(Exponent(MaxBits(GroupBits(b, t, g))) + 127) else 0
  {
  }

  predicate IsToken(b: Batch, t: int) {
    0 <= t < b.tokens
  }

  function Grid(b: Batch): set<int> {
    set t | 0 <= t < b.tokens && IsToken(b, t)
  }

  /** No two tokens of the batch go to one slot. */
  ghost predicate SlotsDiffer(k: Cache, b: Batch) {
    forall t, u | IsToken(b, t) && IsToken(b, u) && InCache(k, Slot(b, t)) && Slot(b, t) == Slot(b, u) :: t == u
  }

  lemma CellsAre(slot: int, x: Cell)
    ensures x in Cells(slot) <==> x.slot == slot && (if x.Token? then 0 <= x.d < TOKEN_BYTES else 0 <= x.g < SCALE_BYTES)
  {
    if x.Token? { assert IsOffset(x.d) || x.d < 0; } else { assert IsOffset(x.g) || x.g < 0; }
  }

  lemma StoresFit(k: Cache, b: Batch, length: int)
    requires Supported(k) && SlotsDiffer(k, b) && length >= k.blocks * k.stride
    ensures Disjoint(Grid(b), Stores(k, b), Addr(k)) && InBounds(Grid(b), Stores(k, b), Addr(k), length)
  {
    hide ByteOf, Supported, Cells;
    Positive(k);
    var (stores, addr) := (Stores(k, b), Addr(k));
    forall t, u, x, y | t in Grid(b) && u in Grid(b) && x in stores(t) && y in stores(u) && addr(x) == addr(y)
      ensures t == u && x == y
    {
      CellsAre(Slot(b, t), x);
      CellsAre(Slot(b, u), y);
      BytesApart(k, x, y);
      assert IsToken(b, t) && IsToken(b, u);
    }
    forall t, x | t in Grid(b) && x in stores(t)
      ensures 0 <= addr(x) < length
    {
      CellsAre(Slot(b, t), x);
      InsidePage(k, x);
    }
  }

  lemma Positive(k: Cache)
    requires Supported(k)
    ensures k.blockSize > 0
  {
  }

  /** Each token's 584 bytes are in its slot; every byte of every other slot is as it was, and
      so is the padding between pages. */
  method Insert(k: Cache, b: Batch, cache: array<int>)
    requires Supported(k) && SlotsDiffer(k, b) && cache.Length >= k.blocks * k.stride
    modifies cache
    ensures forall t, d | 0 <= t < b.tokens && t < |b.slots| && 0 <= b.slots[t] < k.blocks * k.blockSize && 0 <= d < 576 ::
              && 0 <= Addr(k)(Token(b.slots[t], d)) < cache.Length
              && cache[Addr(k)(Token(b.slots[t], d))] == ByteOf(b, t, Token(b.slots[t], d))
    ensures forall t, g | 0 <= t < b.tokens && t < |b.slots| && 0 <= b.slots[t] < k.blocks * k.blockSize && 0 <= g < 8 ::
              && 0 <= Addr(k)(Scale(b.slots[t], g)) < cache.Length
              && cache[Addr(k)(Scale(b.slots[t], g))] == ByteOf(b, t, Scale(b.slots[t], g))
    ensures forall x | IsCell(k, x) && (forall t | 0 <= t < b.tokens && t < |b.slots| :: b.slots[t] != x.slot) ::
              0 <= Addr(k)(x) < cache.Length && cache[Addr(k)(x)] == old(cache[Addr(k)(x)])
    ensures forall a | 0 <= a < cache.Length && (forall x | IsCell(k, x) :: Addr(k)(x) != a) :: cache[a] == old(cache[a])
  {
    hide ByteOf, Supported, Cells, Disjoint, InBounds, Addr, Grid, Ran;
    Positive(k);
    StoresFit(k, b, cache.Length);
    ghost var was := cache[..];
    var todo := Grid(b);
    NoneRan(Grid(b), Stores(k, b), Addr(k), was);
    while todo != {}
      invariant todo <= Grid(b) && Ran(Grid(b), todo, Stores(k, b), Addr(k), was, cache[..])
      decreases todo
    {
      assert (forall t :: t !in todo) ==> todo == {};
      var q :| q in todo;
      var mine := Program(k, b, q);
      CommitOne(Grid(b), todo, Stores(k, b), q, mine, Addr(k), was, cache);
      todo := todo - {q};
    }
    AllRan(Grid(b), Stores(k, b), Addr(k), was, cache[..]);
    forall t, x: Cell | IsToken(b, t) && InCache(k, Slot(b, t)) && x.slot == Slot(b, t) && IsCell(k, x)
      ensures 0 <= Addr(k)(x) < cache.Length && cache[Addr(k)(x)] == ByteOf(b, t, x)
    {
      Stored(k, b, t, x);
    }
    forall t, d | 0 <= t < b.tokens && t < |b.slots| && 0 <= b.slots[t] < k.blocks * k.blockSize && 0 <= d < 576
      ensures && 0 <= Addr(k)(Token(b.slots[t], d)) < cache.Length
              && cache[Addr(k)(Token(b.slots[t], d))] == ByteOf(b, t, Token(b.slots[t], d))
    {
      assert IsToken(b, t) && IsCell(k, Token(Slot(b, t), d));
    }
    forall t, g | 0 <= t < b.tokens && t < |b.slots| && 0 <= b.slots[t] < k.blocks * k.blockSize && 0 <= g < 8
      ensures && 0 <= Addr(k)(Scale(b.slots[t], g)) < cache.Length
              && cache[Addr(k)(Scale(b.slots[t], g))] == ByteOf(b, t, Scale(b.slots[t], g))
    {
      assert IsToken(b, t) && IsCell(k, Scale(Slot(b, t), g));
    }
    forall x | IsCell(k, x) && (forall t | 0 <= t < b.tokens && t < |b.slots| :: b.slots[t] != x.slot)
      ensures 0 <= Addr(k)(x) < cache.Length && cache[Addr(k)(x)] == was[Addr(k)(x)]
    {
      InsidePage(k, x);
      Untouched(k, b, x);
      assert cache[..][Addr(k)(x)] == was[Addr(k)(x)];
    }
    forall a | 0 <= a < cache.Length && (forall x | IsCell(k, x) :: Addr(k)(x) != a)
      ensures cache[a] == was[a]
    {
      OnlyCells(k, b);
      assert cache[..][a] == was[a];
    }
  }

  lemma Stored(k: Cache, b: Batch, t: int, x: Cell)
    requires IsToken(b, t) && InCache(k, Slot(b, t)) && x.slot == Slot(b, t) && IsCell(k, x)
    ensures t in Grid(b) && x in Stores(k, b)(t) && Stores(k, b)(t)[x] == ByteOf(b, t, x)
  {
    hide ByteOf, Cells;
    CellsAre(Slot(b, t), x);
  }

  lemma OnlyCells(k: Cache, b: Batch)
    ensures forall t, y | t in Grid(b) && y in Stores(k, b)(t) :: IsCell(k, y) && IsToken(b, t) && y.slot == Slot(b, t)
  {
    hide ByteOf, Cells;
    forall t, y | t in Grid(b) && y in Stores(k, b)(t)
      ensures IsCell(k, y) && IsToken(b, t) && y.slot == Slot(b, t)
    {
      CellsAre(Slot(b, t), y);
    }
  }

  lemma Untouched(k: Cache, b: Batch, x: Cell)
    requires Supported(k) && IsCell(k, x) && forall t | IsToken(b, t) :: Slot(b, t) != x.slot
    ensures forall t, y | t in Grid(b) && y in Stores(k, b)(t) :: Addr(k)(y) != Addr(k)(x)
  {
    hide Supported, Addr, Stores, Grid;
    Positive(k);
    OnlyCells(k, b);
    forall t, y | t in Grid(b) && y in Stores(k, b)(t)
      ensures Addr(k)(y) != Addr(k)(x)
    {
      if Addr(k)(y) == Addr(k)(x) { BytesApart(k, y, x); }
    }
  }
}
