/** The cache of the full-width mHC weight, keyed by the tensor's version counter, and the cache
    of identity pre-mixes. */
module MhcCache {
  import opened Options
  import opened Arithmetic
  import opened MhcPre
  import opened MhcReduce
  import opened Sinkhorn

  type Rows = seq<seq<real>>

  // ----- values -----

  ghost predicate Shaped(data: Rows, hidden: nat) {
    forall j | 0 <= j < |data| :: |data[j]| == hidden
  }

  /** `(row / hc).repeat(hc)`. */
  function FullRow(row: seq<real>, hc: nat): (r: seq<real>)
    requires hc > 0
    ensures |r| == hc * |row|
  {
    seq(hc * |row|, i requires 0 <= i < hc * |row| => EntryAt(row, i) / hc as real)
  }

  function EntryAt(row: seq<real>, i: int): real {
    if |row| == 0 then 0.0 else row[i % |row|]
  }

  /** `(fn / hc).repeat(1, hc)`. */
  function Full(data: Rows, hc: nat): (r: Rows)
    requires hc > 0
    ensures |r| == |data| && forall j | 0 <= j < |data| :: r[j] == FullRow(data[j], hc)
  {
    seq(|data|, j requires 0 <= j < |data| => FullRow(data[j], hc))
  }

  // ----- the weight's cache as a state machine -----

  datatype Entry = Entry(version: nat, full: Rows, width: nat)

  /** The tensor: its elements, PyTorch's in-place version counter, and the attribute. */
  datatype State = State(hidden: nat, data: Rows, version: nat, cached: Option<Entry>)

  /** An in-place update of the weight, or a forward pass asking for the full-width weight. */
  datatype Event = Update(data: Rows) | Call(hc: nat, hidden: nat, capturing: bool)

  predicate Hit(s: State, hc: nat, hidden: nat) {
    s.cached.Some? && s.cached.value.version == s.version && s.cached.value.width == hc * hidden
  }

  function Step(s: State, e: Event): (State, Option<Rows>)
    requires e.Call? ==> e.hc > 0
  {
    match e
    case Update(data) => (s.(data := data, version := s.version + 1), None)
    case Call(hc, hidden, capturing) =>
      if s.hidden != hidden then (s, None)
      else if Hit(s, hc, hidden) then (s, Some(s.cached.value.full))
      else if capturing then (s, None)
      else (s.(cached := Some(Entry(s.version, Full(s.data, hc), hc * hidden))), Some(Full(s.data, hc)))
  }

  /** A full-width weight of the current version is the current weight, divided and repeated. */
  ghost predicate Coherent(s: State) {
    && Shaped(s.data, s.hidden)
    && (s.cached.Some? ==>
          var c := s.cached.value;
          c.version <= s.version &&
          (c.version == s.version ==> exists hc: nat :: hc > 0 && c.width == hc * s.hidden && c.full == Full(s.data, hc)))
  }

  /** Events whose updates keep the shape, as in-place updates do. */
  ghost predicate Possible(s: State, events: seq<Event>) {
    forall i | 0 <= i < |events| ::
      match events[i] case Update(data) => |data| == |s.data| && Shaped(data, s.hidden) case Call(hc, _, _) => hc > 0
  }

  function After(s: State, events: seq<Event>): State
    requires forall i | 0 <= i < |events| && events[i].Call? :: events[i].hc > 0
  {
    if events == [] then s else Step(After(s, events[..|events| - 1]), events[|events| - 1]).0
  }

  /** The weight as the updates alone make it. */
  function Current(data: Rows, events: seq<Event>): Rows {
    if events == [] then data
    else if events[|events| - 1].Update? then events[|events| - 1].data
    else Current(data, events[..|events| - 1])
  }

  lemma SameFull(data: Rows, hidden: nat, a: nat, b: nat)
    requires a > 0 && b > 0 && a * hidden == b * hidden && Shaped(data, hidden)
    ensures Full(data, a) == Full(data, b)
  {
    if hidden > 0 { Cancel(a, b, hidden); }
    forall j | 0 <= j < |data| ensures Full(data, a)[j] == Full(data, b)[j] {
      assert |FullRow(data[j], a)| == |FullRow(data[j], b)|;
      assert hidden == 0 ==> FullRow(data[j], a) == [] && FullRow(data[j], b) == [];
    }
  }

  lemma Cancel(a: nat, b: nat, h: nat)
    requires h > 0 && a * h == b * h
    ensures a == b
  {
    assert (a - b) * h == 0;
  }

  /** One call: an answer is the current weight divided and repeated for the width asked for. */
  lemma CallAnswers(s: State, e: Event)
    requires Coherent(s) && e.Call? && e.hc > 0
    ensures var (t, answer) := Step(s, e);
            Coherent(t) && t.data == s.data && (answer.Some? ==> answer.value == Full(s.data, e.hc))
            && (answer.None? <==> s.hidden != e.hidden || (e.capturing && !Hit(s, e.hc, e.hidden)))
            && (answer.Some? ==> Hit(t, e.hc, e.hidden))
  {
    hide Full, Shaped;
    if s.hidden == e.hidden && Hit(s, e.hc, e.hidden) {
      var c := s.cached.value;
      var hc: nat :| hc > 0 && c.width == hc * s.hidden && c.full == Full(s.data, hc);
      SameFull(s.data, s.hidden, e.hc, hc);
    }
  }

  lemma {:induction false} RunCoherent(s: State, events: seq<Event>)
    requires Coherent(s) && Possible(s, events)
    ensures Coherent(After(s, events)) && After(s, events).hidden == s.hidden
    ensures After(s, events).data == Current(s.data, events)
  {
    hide Coherent, Full;
    if events != [] {
      var (before, last) := (events[..|events| - 1], events[|events| - 1]);
      RunCoherent(s, before);
      if last.Call? { CallAnswers(After(s, before), last); } else { UpdateCoherent(After(s, before), last.data); }
    }
  }

  lemma UpdateCoherent(s: State, data: Rows)
    requires Coherent(s) && Shaped(data, s.hidden)
    ensures Coherent(Step(s, Update(data)).0)
  {
  }

  /** Over any run of updates and calls, whatever is cached when, an answered call gets the
      weight as last updated, divided and repeated for its own number of copies. */
  lemma AnswersAreCurrent(s: State, events: seq<Event>, e: Event)
    requires Coherent(s) && Possible(s, events) && e.Call? && e.hc > 0
    ensures var answer := Step(After(s, events), e).1;
            answer.Some? ==> answer.value == Full(Current(s.data, events), e.hc)
  {
    hide Coherent, Full;
    RunCoherent(s, events);
    CallAnswers(After(s, events), e);
  }

  /** A call outside capture warms the cache: the captured call that follows is answered. */
  lemma WarmedForCapture(s: State, hc: nat)
    requires Coherent(s) && hc > 0
    ensures var (warm, answer) := Step(s, Call(hc, s.hidden, false));
            answer.Some? && Step(warm, Call(hc, s.hidden, true)) == (warm, answer)
  {
    hide Full;
    CallAnswers(s, Call(hc, s.hidden, false));
  }

  // ----- the objects -----

  /** The parameter tensor, with the attribute the module sets on it. */
  class Weight {
    const hidden: nat
    var data: Rows
    var version: nat
    var cached: Option<Entry>

    ghost function Abstract(): State
      reads this
    {
      State(hidden, data, version, cached)
    }

    constructor (data: Rows, hidden: nat)
      requires Shaped(data, hidden)
      ensures Coherent(Abstract()) && this.data == data && this.hidden == hidden
    {
      this.hidden, this.data, this.version, this.cached := hidden, data, 0, None;
    }

    /** Any in-place update: PyTorch counts it. */
    method Assign(data: Rows)
      requires Coherent(Abstract()) && |data| == |this.data| && Shaped(data, hidden)
      modifies this
      ensures Abstract() == Step(old(Abstract()), Update(data)).0 && Coherent(Abstract())
    {
      this.data, version := data, version + 1;
    }

    /** The full-width weight, rebuilt outside capture when the cached one is of another version
        or width. */
    method FullWidth(hc: nat, hidden: nat, capturing: bool) returns (full: Option<Rows>)
      requires Coherent(Abstract()) && hc > 0
      modifies this
      ensures (Abstract(), full) == Step(old(Abstract()), Call(hc, hidden, capturing)) && Coherent(Abstract())
      ensures data == old(data) && (full.Some? ==> full.value == Full(data, hc))
    {
      CallAnswers(Abstract(), Call(hc, hidden, capturing));
      hide Full, Coherent;
      if this.hidden != hidden { return None; }
      if cached.Some? && cached.value.version == version && cached.value.width == hc * hidden {
        full := Some(cached.value.full);
      } else if capturing {
        full := None;
      } else {
        var built := Full(data, hc);
        cached := Some(Entry(version, built, hc * hidden));
        full := Some(built);
      }
    }
  }

  const MAX_TOKENS := 256

  /** The identity pre-mix: weight one for copy 0. */
  function SelectFirst(hc: nat): (r: seq<real>)
    ensures |r| == hc
  {
    seq(hc, j => if j == 0 then 1.0 else 0.0)
  }

  ghost predicate IsIdentity(rows: Rows, hc: nat) {
    forall t | 0 <= t < |rows| :: rows[t] == SelectFirst(hc)
  }

  /** `_IDENTITY_PRE_MIX`, by device and number of copies. */
  class IdentityCache {
    var entries: map<(nat, nat), Rows>

    ghost predicate Valid()
      reads this
    {
      forall key | key in entries :: IsIdentity(entries[key], key.1)
    }

    constructor ()
      ensures Valid() && entries == map[]
    {
      entries := map[];
    }

    predicate Enough(device: nat, hc: nat, tokens: nat)
      reads this
    {
      (device, hc) in entries && |entries[(device, hc)]| >= tokens
    }

    /** As many rows selecting copy 0 as there are tokens; nothing only inside a capture that
        finds too few, which leaves the cache alone. */
    method PreMix(device: nat, hc: nat, tokens: nat, capturing: bool) returns (pre: Option<Rows>)
      requires Valid() && hc > 0
      modifies this
      ensures Valid()
      ensures pre.None? <==> capturing && !old(Enough(device, hc, tokens))
      ensures pre.Some? ==> |pre.value| == tokens && IsIdentity(pre.value, hc) && Enough(device, hc, tokens)
      ensures entries == if !capturing && !old(Enough(device, hc, tokens))
                         then old(entries)[(device, hc) := seq(Larger(tokens, MAX_TOKENS), t => SelectFirst(hc))]
                         else old(entries)
    {
      var key := (device, hc);
      if key !in entries || |entries[key]| < tokens {
        if capturing { return None; }
        entries := entries[key := seq(Larger(tokens, MAX_TOKENS), t => SelectFirst(hc))];
      }
      pre := Some(entries[key][..tokens]);
    }
  }

  function Larger(a: nat, b: nat): nat {
    if a >= b then a else b
  }

  /** Both inputs of the fused first layer, or nothing. */
  method BroadcastInputs(fn: Weight, identities: IdentityCache, device: nat, tokens: nat, hc: nat, hidden: nat, capturing: bool)
    returns (inputs: Option<(Rows, Rows)>)
    requires Coherent(fn.Abstract()) && identities.Valid() && hc > 0
    modifies fn, identities
    ensures Coherent(fn.Abstract()) && identities.Valid() && fn.data == old(fn.data)
    ensures inputs.Some? ==>
              inputs.value.0 == Full(fn.data, hc) && |inputs.value.1| == tokens && IsIdentity(inputs.value.1, hc)
    ensures inputs.None? <==>
              fn.hidden != hidden
              || (capturing && !(Hit(old(fn.Abstract()), hc, hidden) && old(identities.Enough(device, hc, tokens))))
  {
    hide Coherent, Full, IsIdentity;
    CallAnswers(fn.Abstract(), Call(hc, hidden, capturing));
    var full := fn.FullWidth(hc, hidden, capturing);
    if full.None? { return None; }
    var pre := identities.PreMix(device, hc, tokens, capturing);
    if pre.None? { return None; }
    inputs := Some((full.value, pre.value));
  }

  // ----- what the full-width weight computes on identical copies -----

  function Wrapped(g: int -> real, n: int): int -> real {
    i => if n == 0 then 0.0 else g(i % n)
  }

  lemma {:induction false} OneLap(g: int -> real, n: nat, lap: nat, k: nat)
    requires k <= n
    ensures Sum(Wrapped(g, n), lap * n, lap * n + k) == Sum(g, 0, k)
  {
    if k > 0 {
      OneLap(g, n, lap, k - 1);
      DivModUnique(lap * n + k - 1, n, lap, k - 1);
    }
  }

  /** A row repeated end to end sums to as many times its sum. */
  lemma {:induction false} Laps(g: int -> real, n: nat, laps: nat)
    ensures Sum(Wrapped(g, n), 0, laps * n) == laps as real * Sum(g, 0, n)
  {
    if laps > 0 {
      Laps(g, n, laps - 1);
      OneLap(g, n, laps - 1, n);
      NextLap(n, laps);
      SumSplit(Wrapped(g, n), 0, (laps - 1) * n, laps * n);
      OneMore((laps - 1) as real, Sum(g, 0, n));
    }
  }

  lemma NextLap(n: nat, laps: nat)
    requires laps > 0
    ensures (laps - 1) * n + n == laps * n && 0 <= (laps - 1) * n <= laps * n
  {
  }

  lemma OneMore(k: real, s: real)
    ensures k * s + s == (k + 1.0) * s
  {
  }

  /** One copy's product with a row of the narrow weight. */
  function CopyProducts(x: int -> real, row: seq<real>): int -> real {
    i => x(i) * EntryAt(row, i)
  }

  function CopySquares(x: int -> real): int -> real {
    i => x(i) * x(i)
  }

  function Shared(x: int -> real, row: seq<real>, hc: nat): int -> real
    requires hc > 0
  {
    i => x(i) * (EntryAt(row, i) / hc as real)
  }

  lemma {:induction false} SharedSum(x: int -> real, row: seq<real>, hc: nat, k: nat)
    requires hc > 0
    ensures hc as real * Sum(Shared(x, row, hc), 0, k) == Sum(CopyProducts(x, row), 0, k)
  {
    if k > 0 {
      SharedSum(x, row, hc, k - 1);
      ShareBack(hc as real, x(k - 1), EntryAt(row, k - 1), Sum(Shared(x, row, hc), 0, k - 1));
    }
  }

  lemma ShareBack(h: real, x: real, w: real, s: real)
    requires h > 0.0
    ensures h * (s + x * (w / h)) == h * s + x * w
  {
    assert (w / h) * h == w;
    assert h * (x * (w / h)) == x * ((w / h) * h);
  }

  /** The copies of a token are all equal to `x`, and the weight is the full-width one. */
  ghost predicate Broadcast(p: Problem, x: int -> real, data: Rows) {
    && p.hidden > 0 && |data| == MIXES && Shaped(data, p.hidden)
    && (forall j, h | 0 <= j < HC && 0 <= h < p.hidden :: p.x(j, h) == x(h))
    && (forall j, i | 0 <= j < MIXES && 0 <= i < HC * p.hidden :: p.fn(j, i) == Full(data, HC)[j][i])
  }

  lemma CopyEntry(p: Problem, x: int -> real, data: Rows, i: nat)
    requires Broadcast(p, x, data) && i < HC * p.hidden
    ensures Flat(p, i) == x(i % p.hidden)
  {
    DivModSpec(i, p.hidden);
    if i / p.hidden >= HC { MulMono(HC, i / p.hidden, p.hidden); }
  }

  /** Four equal copies times the divided weight: the product of one copy with the narrow one. */
  lemma MixSumOfOneCopy(p: Problem, x: int -> real, data: Rows, j: nat)
    requires Broadcast(p, x, data) && j < MIXES
    ensures Sum(Products(p, j), 0, HC * p.hidden) == Sum(CopyProducts(x, data[j]), 0, p.hidden)
  {
    var (n, row) := (p.hidden, data[j]);
    forall i | 0 <= i < HC * n
      ensures Products(p, j)(i) == Wrapped(Shared(x, row, HC), n)(i)
    {
      CopyEntry(p, x, data, i);
      ModTwice(i, n);
      assert p.fn(j, i) == FullRow(row, HC)[i];
    }
    SumSame(Products(p, j), Wrapped(Shared(x, row, HC), n), 0, HC * n);
    Laps(Shared(x, row, HC), n, HC);
    SharedSum(x, row, HC, n);
  }

  lemma ModTwice(i: int, n: int)
    requires n > 0
    ensures i % n % n == i % n
  {
  }

  /** The squares of four equal copies add up to four times those of one. */
  lemma SquaresOfOneCopy(p: Problem, x: int -> real, data: Rows)
    requires Broadcast(p, x, data)
    ensures Sum(Squares(p), 0, HC * p.hidden) == HC as real * Sum(CopySquares(x), 0, p.hidden)
  {
    var n := p.hidden;
    forall i | 0 <= i < HC * n
      ensures Squares(p)(i) == Wrapped(CopySquares(x), n)(i)
    {
      CopyEntry(p, x, data, i);
    }
    SumSame(Squares(p), Wrapped(CopySquares(x), n), 0, HC * n);
    Laps(CopySquares(x), n, HC);
  }

  lemma MeanOfCopies(s: real, n: nat)
    requires n > 0
    ensures Quot(HC as real * s, (HC * n) as real) == Quot(s, n as real)
  {
    var q := Quot(s, n as real);
    assert q * n as real == s;
    assert q * (HC * n) as real == HC as real * s;
    QuotUnique(q, HC as real * s, (HC * n) as real);
  }

  /** On identical copies the full-width weight mixes as the narrow weight does on one copy: the
      same mean square, so the same root, and the same logits. */
  lemma MixesOfOneCopy(p: Problem, x: int -> real, data: Rows, j: nat)
    requires Broadcast(p, x, data) && j < MIXES
    ensures Rms(p) == p.rsqrt(Quot(Sum(CopySquares(x), 0, p.hidden), p.hidden as real) + p.rmsEps)
    ensures Mix(p, j) == Times(Sum(CopyProducts(x, data[j]), 0, p.hidden), Rms(p))
  {
    SquaresOfOneCopy(p, x, data);
    MeanOfCopies(Sum(CopySquares(x), 0, p.hidden), p.hidden);
    MixSumOfOneCopy(p, x, data, j);
  }

  /** The identity pre-mix selects copy 0. */
  lemma IdentitySelectsFirst(p: Problem, h: int)
    ensures LayerInput(p, FourOf(SelectFirst(HC)), h) == p.round(p.x(0, h))
  {
    var f := Copies(p, FourOf(SelectFirst(HC)), h);
    assert f(0) == p.x(0, h) && f(1) == 0.0 && f(2) == 0.0 && f(3) == 0.0;
    assert Sum(f, 0, 1) == f(0);
    assert Sum(f, 0, 2) == f(0) + f(1);
    assert Sum(f, 0, 3) == f(0) + f(1) + f(2);
  }

  /** The whole first layer: the delayed kernel fed by `BroadcastInputs` normalises copy 0 and
      mixes it with the narrow weight. */
  method FirstLayer(p: Problem, x: int -> real, fn: Weight, identities: IdentityCache, device: nat, tokens: nat, capturing: bool,
                    part: (int, int) -> real, n: nat)
    returns (done: bool, layer: seq<real>, next: seq<real>)
    requires Coherent(fn.Abstract()) && identities.Valid() && tokens > 0
    requires Supported(p) && GemmParts(p, part, n) && fn.hidden == p.hidden && Broadcast(p, x, fn.data)
    modifies fn, identities
    ensures !done ==> capturing
    ensures done ==> IsNormed(p, FourOf(SelectFirst(HC)), layer) && |next| == HC
    ensures done ==> forall j | 0 <= j < HC ::
                      next[j] == PreOf(p, Times(Sum(CopyProducts(x, old(fn.data)[j]), 0, p.hidden), Rms(p)), j)
  {
    assert |fn.data| == MIXES;
    hide Coherent, Supported, GemmParts, IsNormed, AreMixes, Broadcast, PreOf, Times, Rms, FourOf, IsIdentity;
    var inputs := BroadcastInputs(fn, identities, device, tokens, HC, p.hidden, capturing);
    done, layer, next := inputs.Some?, [], [];
    if inputs.Some? {
      FirstRow(inputs.value.1);
      var post, comb, rows, pre := DelayedDecode(p, part, n, inputs.value.1[0]);
      layer, next := rows[..], pre[..];
      forall j | 0 <= j < HC
        ensures next[j] == PreOf(p, Times(Sum(CopyProducts(x, old(fn.data)[j]), 0, p.hidden), Rms(p)), j)
      {
        MixesOfOneCopy(p, x, old(fn.data), j);
      }
    }
  }

  lemma FirstRow(rows: Rows)
    requires |rows| > 0 && IsIdentity(rows, HC)
    ensures rows[0] == SelectFirst(HC)
  {
  }
}
