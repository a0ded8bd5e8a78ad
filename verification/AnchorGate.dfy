/** The anchors of a patch series: the offline gate that accepts a preimage which the
    repository lacks but an earlier entry claims to produce, and the replay gate that checks
    those claims. */
module AnchorGate {
  import opened Options

  type Name(==, !new)
  type Path(==, !new)
  /** An object id as abbreviated in an `index` line. */
  type Abbrev(==, !new)
  /** A full object id. */
  type Oid(==, !new)

  datatype Kind = Blob | OtherKind

  /** git's answer for an id: the type of the object it names, or missing. */
  datatype Answer = Missing | Is(kind: Kind)

  /** One file section of a diff: `index` holds its (preimage, postimage) pairs. */
  datatype Section = Section(gitlink: bool, path: Option<Path>, index: seq<(Abbrev, Abbrev)>)

  type Entry = seq<Section>

  // ----- what an entry declares -----

  function DeclaredBlobs(e: Entry): seq<(Abbrev, Abbrev)> {
    if e == [] then []
    else (if e[0].gitlink then [] else e[0].index) + DeclaredBlobs(e[1..])
  }

  function WithPath(p: Path, index: seq<(Abbrev, Abbrev)>): seq<(Path, Abbrev)> {
    seq(|index|, i requires 0 <= i < |index| => (p, index[i].1))
  }

  function DeclaredPostimages(e: Entry): seq<(Path, Abbrev)> {
    if e == [] then []
    else (if e[0].gitlink || e[0].path == None then [] else WithPath(e[0].path.value, e[0].index))
         + DeclaredPostimages(e[1..])
  }

  /** Every section that is read for blobs also yields a path. */
  predicate PathsKnown(e: Entry) {
    forall s | s in e && !s.gitlink && s.index != [] :: s.path.Some?
  }

  lemma {:induction false} PostimageDeclared(e: Entry, pair: (Abbrev, Abbrev))
    requires PathsKnown(e) && pair in DeclaredBlobs(e)
    ensures exists p :: (p, pair.1) in DeclaredPostimages(e)
  {
    var s := e[0];
    assert e == [s] + e[1..];
    if !s.gitlink && pair in s.index {
      var i :| 0 <= i < |s.index| && s.index[i] == pair;
      assert WithPath(s.path.value, s.index)[i] == (s.path.value, pair.1);
      assert (s.path.value, pair.1) in DeclaredPostimages(e);
    } else {
      PostimageDeclared(e[1..], pair);
      var p :| (p, pair.1) in DeclaredPostimages(e[1..]);
      assert (p, pair.1) in DeclaredPostimages(e);
    }
  }

  // ----- the offline gate -----

  datatype Series = Series(order: seq<Name>, texts: map<Name, Entry>, zero: set<Abbrev>) {
    predicate Distinct() {
      forall i, j | 0 <= i < j < |order| :: order[i] != order[j]
    }

    function Pre(n: Name): set<Abbrev> {
      if n in texts then (set p | p in DeclaredBlobs(texts[n]) && p.0 !in zero :: p.0) else {}
    }

    function Post(n: Name): set<Abbrev> {
      if n in texts then (set p | p in DeclaredBlobs(texts[n]) && p.1 !in zero :: p.1) else {}
    }

    /** The postimages declared by the first `i` entries. */
    function Produced(i: nat): set<Abbrev>
      requires i <= |order|
    {
      if i == 0 then {} else Produced(i - 1) + Post(order[i - 1])
    }

    /** The preimages that no earlier entry declares, and the others. */
    function Unclaimed(i: nat): set<Abbrev>
      requires i < |order|
    {
      Pre(order[i]) - Produced(i)
    }

    function Claimed(i: nat): set<Abbrev>
      requires i < |order|
    {
      Pre(order[i]) * Produced(i)
    }

    /** The preimages of entry `i` that make it a finding: neither a blob of the repository
        nor an id that is missing there and claimed by an earlier entry. */
    function Unusable(i: nat, ask: Abbrev -> Answer): set<Abbrev>
      requires i < |order|
    {
      set b | b in Pre(order[i]) && ask(b) != Is(Blob) && (b in Produced(i) ==> ask(b) != Missing)
    }
  }

  lemma {:induction false} DeclaredIff(e: Entry, pair: (Abbrev, Abbrev))
    ensures pair in DeclaredBlobs(e) <==> exists k :: 0 <= k < |e| && !e[k].gitlink && pair in e[k].index
  {
    if e != [] {
      DeclaredIff(e[1..], pair);
      if !e[0].gitlink && pair in e[0].index { assert pair in e[0].index; }
      if k :| 0 <= k < |e[1..]| && !e[1..][k].gitlink && pair in e[1..][k].index { assert e[k + 1] == e[1..][k]; }
      if k :| 0 <= k < |e| && !e[k].gitlink && pair in e[k].index {
        if k > 0 { assert e[1..][k - 1] == e[k]; }
      }
    }
  }

  /** The anchors of an entry: the preimage of every index line of every section that is no gitlink,
      unless it is the zero id; and its claims, the postimages likewise. */
  lemma AnchorsAre(s: Series, n: Name, b: Abbrev)
    requires n in s.texts
    ensures b in s.Pre(n) <==>
            b !in s.zero && exists k, post :: 0 <= k < |s.texts[n]| && !s.texts[n][k].gitlink && (b, post) in s.texts[n][k].index
    ensures b in s.Post(n) <==>
            b !in s.zero && exists k, pre :: 0 <= k < |s.texts[n]| && !s.texts[n][k].gitlink && (pre, b) in s.texts[n][k].index
  {
    var e := s.texts[n];
    hide DeclaredBlobs;
    forall x ensures (b, x) in DeclaredBlobs(e) <==> exists k :: 0 <= k < |e| && !e[k].gitlink && (b, x) in e[k].index {
      DeclaredIff(e, (b, x));
    }
    forall x ensures (x, b) in DeclaredBlobs(e) <==> exists k :: 0 <= k < |e| && !e[k].gitlink && (x, b) in e[k].index {
      DeclaredIff(e, (x, b));
    }
    assert b in s.Pre(n) <==> b !in s.zero && exists x :: (b, x) in DeclaredBlobs(e) by {
      if b in s.Pre(n) {
        var p :| p in DeclaredBlobs(e) && p.0 == b;
        assert p == (b, p.1);
      }
    }
    assert b in s.Post(n) <==> b !in s.zero && exists x :: (x, b) in DeclaredBlobs(e) by {
      if b in s.Post(n) {
        var p :| p in DeclaredBlobs(e) && p.1 == b;
        assert p == (p.0, b);
      }
    }
  }

  /** A claim at a path is one of a section that names the path. */
  lemma {:induction false} PostimageIff(e: Entry, p: Path, b: Abbrev)
    ensures (p, b) in DeclaredPostimages(e) <==>
            exists k, pre :: 0 <= k < |e| && !e[k].gitlink && e[k].path == Some(p) && (pre, b) in e[k].index
  {
    if e != [] {
      PostimageIff(e[1..], p, b);
      var first := if e[0].gitlink || e[0].path == None then [] else WithPath(e[0].path.value, e[0].index);
      if (p, b) in first {
        var i :| 0 <= i < |first| && first[i] == (p, b);
        assert e[0].index[i] == (e[0].index[i].0, b);
        assert (e[0].index[i].0, b) in e[0].index;
      }
      if k, pre :| 0 <= k < |e[1..]| && !e[1..][k].gitlink && e[1..][k].path == Some(p) && (pre, b) in e[1..][k].index {
        assert e[k + 1] == e[1..][k];
      }
      if k, pre :| 0 <= k < |e| && !e[k].gitlink && e[k].path == Some(p) && (pre, b) in e[k].index {
        if k > 0 {
          assert e[1..][k - 1] == e[k];
        } else {
          var i :| 0 <= i < |e[0].index| && e[0].index[i] == (pre, b);
          assert first[i] == (p, b);
        }
      }
    }
  }

  function Lookup(m: map<Name, set<Abbrev>>, n: Name): set<Abbrev> {
    if n in m then m[n] else {}
  }

  function Merge(m: map<Name, set<Abbrev>>, n: Name, more: set<Abbrev>): (r: map<Name, set<Abbrev>>)
    ensures forall k :: Lookup(r, k) == if k == n then Lookup(m, k) + more else Lookup(m, k)
    ensures forall k | k in r :: k in m || k == n
  {
    if more == {} then m else m[n := Lookup(m, n) + more]
  }

  lemma AnchorParts(s: Series, i: nat)
    requires i < |s.order|
    ensures s.Unclaimed(i) == s.Pre(s.order[i]) - s.Produced(i) && s.Claimed(i) == s.Pre(s.order[i]) * s.Produced(i)
  {
  }

  /** The first pass: the preimages no earlier entry declares, and those one does. */
  method CollectAnchors(s: Series) returns (needed: map<Name, set<Abbrev>>, exempt: set<Abbrev>)
    requires s.Distinct()
    ensures forall n :: n in needed ==> n in s.order
    ensures forall i | 0 <= i < |s.order| :: Lookup(needed, s.order[i]) == s.Unclaimed(i)
    ensures forall i | 0 <= i < |s.order| :: s.Claimed(i) <= exempt
  {
    hide Series.Pre, Series.Post, Series.Unclaimed, Series.Claimed;
    var produced: set<Abbrev> := {};
    needed, exempt := map[], {};
    for k := 0 to |s.order|
      invariant produced == s.Produced(k)
      invariant forall n :: n in needed ==> n in s.order
      invariant forall i | k <= i < |s.order| :: Lookup(needed, s.order[i]) == {}
      invariant forall i | 0 <= i < k :: Lookup(needed, s.order[i]) == s.Unclaimed(i)
      invariant forall i | 0 <= i < k :: s.Claimed(i) <= exempt
    {
      var n := s.order[k];
      var pre := s.Pre(n);
      AnchorParts(s, k);
      exempt := exempt + (pre * produced);
      needed := Merge(needed, n, pre - produced);
      produced := produced + s.Post(n);
    }
  }

  /** Ids that a claim cannot excuse: they resolve here, and not to a blob. */
  function NotBlobs(pre: set<Abbrev>, ask: Abbrev -> Answer): set<Abbrev> {
    set b | b in pre && ask(b) !in {Is(Blob), Missing}
  }

  /** The second pass adds those, claimed or not. */
  method AddNotBlobs(s: Series, ask: Abbrev -> Answer, needed: map<Name, set<Abbrev>>)
    returns (all: map<Name, set<Abbrev>>)
    requires s.Distinct() && forall n :: n in needed ==> n in s.order
    ensures forall n :: n in all ==> n in s.order
    ensures forall i | 0 <= i < |s.order| ::
              Lookup(all, s.order[i]) == Lookup(needed, s.order[i]) + NotBlobs(s.Pre(s.order[i]), ask)
  {
    hide Series.Pre, NotBlobs;
    all := needed;
    for k := 0 to |s.order|
      invariant forall n :: n in all ==> n in s.order
      invariant forall i | 0 <= i < k ::
                  Lookup(all, s.order[i]) == Lookup(needed, s.order[i]) + NotBlobs(s.Pre(s.order[i]), ask)
      invariant forall i | k <= i < |s.order| :: Lookup(all, s.order[i]) == Lookup(needed, s.order[i])
    {
      all := Merge(all, s.order[k], NotBlobs(s.Pre(s.order[k]), ask));
    }
  }

  /** Of the wanted ids, those that are no blob here. */
  function NoBlobs(wanted: set<Abbrev>, ask: Abbrev -> Answer): set<Abbrev> {
    set b | b in wanted && ask(b) != Is(Blob)
  }

  lemma UnusableParts(s: Series, ask: Abbrev -> Answer, i: nat, found: set<Abbrev>)
    requires i < |s.order|
    requires found == s.Unclaimed(i) + NotBlobs(s.Pre(s.order[i]), ask)
    ensures NoBlobs(found, ask) == s.Unusable(i, ask) && (found == {} ==> s.Unusable(i, ask) == {})
  {
  }

  lemma NothingWanted(s: Series, ask: Abbrev -> Answer, i: nat)
    requires i < |s.order| && s.Unclaimed(i) == {} && s.Claimed(i) == {}
    ensures s.Unusable(i, ask) == {}
  {
    var pre := s.Pre(s.order[i]);
    assert pre == (pre - s.Produced(i)) + pre * s.Produced(i);
  }

  /** Entries and the anchors this repository cannot use. */
  method MissingIndexBlobs(s: Series, ask: Abbrev -> Answer) returns (findings: map<Name, set<Abbrev>>)
    requires s.Distinct()
    ensures forall n | n in findings :: n in s.order && findings[n] != {}
    ensures forall i | 0 <= i < |s.order| :: Lookup(findings, s.order[i]) == s.Unusable(i, ask)
  {
    hide Series.Pre, Series.Post, Series.Produced, Series.Unclaimed, Series.Claimed, Series.Unusable, NotBlobs, NoBlobs;
    var needed, exempt := CollectAnchors(s);
    if needed == map[] && exempt == {} {
      findings := map[];
      forall i | 0 <= i < |s.order|
        ensures s.Unusable(i, ask) == {}
      {
        assert Lookup(needed, s.order[i]) == {};
        NothingWanted(s, ask, i);
      }
      return;
    }
    needed := AddNotBlobs(s, ask, needed);
    findings := map n | n in needed && NoBlobs(needed[n], ask) != {} :: NoBlobs(needed[n], ask);
    forall i | 0 <= i < |s.order|
      ensures Lookup(findings, s.order[i]) == s.Unusable(i, ask)
    {
      UnusableParts(s, ask, i, Lookup(needed, s.order[i]));
    }
  }

  // ----- the replay gate -----

  /** What `git am` left behind: per entry the tree of the commit it created, and git's
      resolution of an abbreviated id to a blob once the replay has run. */
  datatype Replayed = Replayed(trees: map<Name, map<Path, Oid>>, resolve: Abbrev -> Option<Oid>)

  /** The path under which an entry first declares a postimage. */
  function FirstPath(declared: seq<(Path, Abbrev)>, b: Abbrev): Path
    requires exists p :: (p, b) in declared
  {
    if declared[0].1 == b then declared[0].0 else FirstPath(declared[1..], b)
  }

  predicate Earned(r: Replayed, n: Name, b: Abbrev, p: Path) {
    && r.resolve(b).Some? && n in r.trees && p in r.trees[n] && r.trees[n][p] == r.resolve(b).value
  }

  ghost predicate Claims(s: Series, n: Name, b: Abbrev) {
    n in s.texts && b !in s.zero && exists p :: (p, b) in DeclaredPostimages(s.texts[n])
  }

  ghost predicate ClaimEarned(s: Series, r: Replayed, n: Name, b: Abbrev) {
    Claims(s, n, b) ==> Earned(r, n, b, FirstPath(DeclaredPostimages(s.texts[n]), b))
  }

  /** Every claim of every entry holds in the commit that the entry itself created. */
  ghost predicate AllEarned(s: Series, r: Replayed) {
    forall n, b | n in s.order :: ClaimEarned(s, r, n, b)
  }

  /** The claims of one entry; `rows` lists those that were not earned. */
  method EntryRows(s: Series, r: Replayed, n: Name) returns (rows: seq<(Name, Abbrev)>)
    ensures rows == [] <==> forall b :: ClaimEarned(s, r, n, b)
  {
    rows := [];
    if n !in s.texts { return; }
    var declared := DeclaredPostimages(s.texts[n]);
    var known: set<Abbrev> := {};
    for j := 0 to |declared|
      invariant forall i | 0 <= i < j && declared[i].1 !in s.zero :: declared[i].1 in known
      invariant forall b | b in known :: exists i :: 0 <= i < j && declared[i].1 == b
      invariant rows == [] ==> forall b | b in known :: ClaimEarned(s, r, n, b)
      invariant rows != [] ==> exists b :: !ClaimEarned(s, r, n, b)
    {
      var (p, b) := declared[j];
      assert (p, b) in declared;
      if b !in s.zero && b !in known {
        FirstPathIs(declared, b, j);
        if !Earned(r, n, b, p) {
          assert !ClaimEarned(s, r, n, b);
          rows := rows + [(n, b)];
        }
        known := known + {b};
      }
    }
    forall b
      ensures Claims(s, n, b) ==> b in known
    {
      if Claims(s, n, b) {
        var p :| (p, b) in declared;
        var i :| 0 <= i < |declared| && declared[i] == (p, b);
      }
    }
  }

  /** Claims that the replay did not earn. */
  method UnearnedExemptionRows(s: Series, r: Replayed) returns (rows: seq<(Name, Abbrev)>)
    ensures rows == [] <==> AllEarned(s, r)
  {
    hide ClaimEarned;
    rows := [];
    for k := 0 to |s.order|
      invariant rows == [] <==> forall i, b | 0 <= i < k :: ClaimEarned(s, r, s.order[i], b)
    {
      var more := EntryRows(s, r, s.order[k]);
      rows := rows + more;
    }
  }

  lemma {:induction false} FirstPathIs(declared: seq<(Path, Abbrev)>, b: Abbrev, j: nat)
    requires j < |declared| && declared[j].1 == b && forall i | 0 <= i < j :: declared[i].1 != b
    ensures (exists p :: (p, b) in declared) && FirstPath(declared, b) == declared[j].0
    decreases j
  {
    assert (declared[j].0, b) in declared;
    if j > 0 { FirstPathIs(declared[1..], b, j - 1); }
  }

  // ----- soundness over a whole replay -----

  type Odb = map<Oid, Kind>

  /** `odbs[i]` is the object database when entry `i` is about to be applied. */
  ghost predicate IsReplay(s: Series, r: Replayed, odbs: seq<Odb>, names: (Abbrev, Oid) -> bool) {
    && |odbs| == |s.order| + 1
    // objects are only ever added
    && (forall i, j, f | 0 <= i <= j <= |s.order| && f in odbs[i] :: f in odbs[j] && odbs[j][f] == odbs[i][f])
    // `rev-parse <id>^{blob}` in the final database
    && (forall b | r.resolve(b).Some? ::
          names(b, r.resolve(b).value) && r.resolve(b).value in odbs[|s.order|]
          && odbs[|s.order|][r.resolve(b).value] == Blob)
    // the blobs of a commit's tree are there once the commit is
    && (forall i, p | 0 <= i < |s.order| && s.order[i] in r.trees && p in r.trees[s.order[i]] ::
          var f := r.trees[s.order[i]][p];
          f in odbs[|s.order|] && odbs[|s.order|][f] == Blob ==> f in odbs[i + 1] && odbs[i + 1][f] == Blob)
  }

  /** What the batch query says of the repository. */
  ghost predicate Truthful(ask: Abbrev -> Answer, odb: Odb, names: (Abbrev, Oid) -> bool) {
    forall b | ask(b).Is? :: exists f :: f in odb && names(b, f) && odb[f] == ask(b).kind
  }

  ghost predicate Anchored(odb: Odb, names: (Abbrev, Oid) -> bool, b: Abbrev) {
    exists f :: f in odb && names(b, f) && odb[f] == Blob
  }

  lemma {:induction false} ProducedBy(s: Series, i: nat, b: Abbrev)
    requires i <= |s.order| && b in s.Produced(i)
    ensures exists k :: 0 <= k < i && b in s.Post(s.order[k])
  {
    if b !in s.Post(s.order[i - 1]) { ProducedBy(s, i - 1, b); }
  }

  /** The offline gate found nothing. */
  ghost predicate OfflineSilent(s: Series, ask: Abbrev -> Answer) {
    forall k | 0 <= k < |s.order| :: s.Unusable(k, ask) == {}
  }

  /** Some entry before `i` claims `b` at a path, so the replay gate checks the claim. */
  ghost predicate Backs(s: Series, i: nat, b: Abbrev)
    requires i <= |s.order|
  {
    exists k :: 0 <= k < i && Claims(s, s.order[k], b)
  }

  /** Every missing anchor that an entry rests on is backed. */
  ghost predicate Backed(s: Series, ask: Abbrev -> Answer) {
    forall i, b | 0 <= i < |s.order| && b in s.Claimed(i) && ask(b) == Missing :: Backs(s, i, b)
  }

  /** Where every section names its path, every anchor is backed. */
  lemma PathsKnownBacked(s: Series, ask: Abbrev -> Answer)
    requires forall n | n in s.texts :: PathsKnown(s.texts[n])
    ensures Backed(s, ask)
  {
    forall i, b | 0 <= i < |s.order| && b in s.Claimed(i) && ask(b) == Missing
      ensures Backs(s, i, b)
    {
      ProducedBy(s, i, b);
      var k :| 0 <= k < i && b in s.Post(s.order[k]);
      var pair :| pair in DeclaredBlobs(s.texts[s.order[k]]) && pair.1 == b;
      PostimageDeclared(s.texts[s.order[k]], pair);
      assert Claims(s, s.order[k], b);
    }
  }

  /** Every anchor is a blob of the object database at the moment its entry is applied. */
  ghost predicate AllAnchored(s: Series, odbs: seq<Odb>, names: (Abbrev, Oid) -> bool)
    requires |odbs| == |s.order| + 1
  {
    forall i, b | 0 <= i < |s.order| && b in s.Pre(s.order[i]) :: Anchored(odbs[i], names, b)
  }

  /** A replay of the series that passes the replay gate, from a repository that answers truthfully. */
  ghost predicate Passes(s: Series, ask: Abbrev -> Answer, r: Replayed, odbs: seq<Odb>, names: (Abbrev, Oid) -> bool) {
    IsReplay(s, r, odbs, names) && Truthful(ask, odbs[0], names) && AllEarned(s, r)
  }

  lemma AnchorSound(s: Series, ask: Abbrev -> Answer, r: Replayed, odbs: seq<Odb>, names: (Abbrev, Oid) -> bool, i: nat, b: Abbrev)
    requires OfflineSilent(s, ask) && Backed(s, ask) && Passes(s, ask, r, odbs, names)
    requires i < |s.order| && b in s.Pre(s.order[i])
    ensures Anchored(odbs[i], names, b)
  {
    assert b !in s.Unusable(i, ask);
    if ask(b) == Is(Blob) {
      var f :| f in odbs[0] && names(b, f) && odbs[0][f] == Blob;
    } else {
      assert b in s.Claimed(i) && Backs(s, i, b);
      var k :| 0 <= k < i && Claims(s, s.order[k], b);
      assert ClaimEarned(s, r, s.order[k], b);
      var f := r.resolve(b).value;
      assert f in odbs[k + 1] && odbs[k + 1][f] == Blob;
    }
  }

  /** With both gates silent and every anchor backed, every anchor is there when it is needed. */
  lemma AnchorsSound(s: Series, ask: Abbrev -> Answer, r: Replayed, odbs: seq<Odb>, names: (Abbrev, Oid) -> bool)
    requires OfflineSilent(s, ask) && Backed(s, ask) && Passes(s, ask, r, odbs, names)
    ensures AllAnchored(s, odbs, names)
  {
    forall i, b | 0 <= i < |s.order| && b in s.Pre(s.order[i]) { AnchorSound(s, ask, r, odbs, names, i, b); }
  }

  // ----- an anchor that is not backed -----

  /** No entry declares two ids at one path. */
  ghost predicate OneIdPerPath(s: Series) {
    forall n, p, x, y | n in s.order && n in s.texts
                        && (p, x) in DeclaredPostimages(s.texts[n]) && (p, y) in DeclaredPostimages(s.texts[n]) :: x == y
  }

  /** The commit of an entry: its declared paths hold `late` where it declares `b`, else `blob`. */
  function TreeOf(declared: seq<(Path, Abbrev)>, b: Abbrev, blob: Oid, late: Oid): map<Path, Oid> {
    map p | p in (set d | d in declared :: d.0) :: if (p, b) in declared then late else blob
  }

  function TreesOf(s: Series, b: Abbrev, blob: Oid, late: Oid): map<Name, map<Path, Oid>> {
    map n | n in s.texts :: TreeOf(DeclaredPostimages(s.texts[n]), b, blob, late)
  }

  /** `b` names `late` alone, every other id the two objects that are there from the start. */
  function ReplayWithout(s: Series, b: Abbrev, blob: Oid, late: Oid): Replayed {
    Replayed(TreesOf(s, b, blob, late), x => Some(if x == b then late else blob))
  }

  function NamesWithout(b: Abbrev, late: Oid): (Abbrev, Oid) -> bool {
    (x, f) => (x == b) == (f == late)
  }

  /** `late` comes into being with entry `i`. */
  function OdbsWithout(s: Series, i: nat, blob: Oid, other: Oid, late: Oid): seq<Odb> {
    var start := map[blob := Blob, other := OtherKind];
    seq(|s.order| + 1, k requires 0 <= k => if k <= i then start else start[late := Blob])
  }

  lemma FirstPathDeclares(declared: seq<(Path, Abbrev)>, b: Abbrev)
    requires exists p :: (p, b) in declared
    ensures (FirstPath(declared, b), b) in declared
  {
    if declared[0].1 == b {
      assert declared[0] == (FirstPath(declared, b), b);
    } else {
      FirstPathDeclares(declared[1..], b);
    }
  }

  lemma EarnedWithout(s: Series, b: Abbrev, blob: Oid, late: Oid, n: Name, x: Abbrev)
    requires OneIdPerPath(s) && n in s.order
    ensures ClaimEarned(s, ReplayWithout(s, b, blob, late), n, x)
  {
    if Claims(s, n, x) {
      var declared := DeclaredPostimages(s.texts[n]);
      FirstPathDeclares(declared, x);
      var p := FirstPath(declared, x);
      assert p in TreeOf(declared, b, blob, late);
      assert (p, b) in declared ==> x == b;
    }
  }

  lemma TreesWithout(s: Series, i: nat, b: Abbrev, blob: Oid, other: Oid, late: Oid, k: nat, p: Path)
    requires i < |s.order| && k < |s.order| && b !in s.zero && !Backs(s, i, b) && blob != other && late !in {blob, other}
    ensures var r := ReplayWithout(s, b, blob, late);
            s.order[k] in r.trees && p in r.trees[s.order[k]] ==>
              var f := r.trees[s.order[k]][p];
              f in OdbsWithout(s, i, blob, other, late)[k + 1] && OdbsWithout(s, i, blob, other, late)[k + 1][f] == Blob
  {
    if s.order[k] in s.texts {
      var declared := DeclaredPostimages(s.texts[s.order[k]]);
      if (p, b) in declared { assert Claims(s, s.order[k], b); }
    }
  }

  /** An anchor that is not backed is unsound: some replay passes both gates and lacks it. */
  lemma UnbackedFails(s: Series, ask: Abbrev -> Answer, i: nat, b: Abbrev, blob: Oid, other: Oid, late: Oid)
    requires OneIdPerPath(s) && blob != other && late !in {blob, other}
    requires i < |s.order| && b in s.Claimed(i) && ask(b) == Missing && !Backs(s, i, b)
    ensures var (r, odbs, names) := (ReplayWithout(s, b, blob, late), OdbsWithout(s, i, blob, other, late), NamesWithout(b, late));
            Passes(s, ask, r, odbs, names) && b in s.Pre(s.order[i]) && !Anchored(odbs[i], names, b)
  {
    var (r, odbs, names) := (ReplayWithout(s, b, blob, late), OdbsWithout(s, i, blob, other, late), NamesWithout(b, late));
    forall n, x | n in s.order { EarnedWithout(s, b, blob, late, n, x); }
    forall k: nat, p | k < |s.order| { TreesWithout(s, i, b, blob, other, late, k, p); }
    forall x | ask(x).Is?
      ensures exists f :: f in odbs[0] && names(x, f) && odbs[0][f] == ask(x).kind
    {
      var f := if ask(x).kind == Blob then blob else other;
      assert f in odbs[0] && names(x, f) && odbs[0][f] == ask(x).kind;
    }
    assert IsReplay(s, r, odbs, names);
  }

  /** For a series that the offline gate accepts, silence of both gates anchors every entry in every
      replay if and only if every missing anchor is claimed at a path by an earlier entry. */
  lemma AnchorsSoundIff(s: Series, ask: Abbrev -> Answer, blob: Oid, other: Oid, late: Oid)
    requires OfflineSilent(s, ask) && OneIdPerPath(s) && blob != other && late !in {blob, other}
    ensures Backed(s, ask) <==>
            forall r, odbs, names :: Passes(s, ask, r, odbs, names) ==> AllAnchored(s, odbs, names)
  {
    hide OfflineSilent, OneIdPerPath, Anchored, Series.Claimed, Backs, ReplayWithout, OdbsWithout, NamesWithout, IsReplay;
    if Backed(s, ask) {
      forall r, odbs, names | Passes(s, ask, r, odbs, names)
        ensures |odbs| == |s.order| + 1 && AllAnchored(s, odbs, names)
      {
        ReplayLength(s, r, odbs, names);
        AnchorsSound(s, ask, r, odbs, names);
      }
    } else {
      var i: nat, b :| i < |s.order| && b in s.Claimed(i) && ask(b) == Missing && !Backs(s, i, b);
      UnbackedFails(s, ask, i, b, blob, other, late);
    }
  }

  lemma ReplayLength(s: Series, r: Replayed, odbs: seq<Odb>, names: (Abbrev, Oid) -> bool)
    requires IsReplay(s, r, odbs, names)
    ensures |odbs| == |s.order| + 1
  {
  }

  /** Without the paths the two gates together prove nothing: an entry whose section names no
      path can claim any id `b`, and the next one can rest on it. */
  lemma PathlessClaimUnchecked(first: Name, second: Name, zero: Abbrev, b: Abbrev, q: Path)
    requires first != second && zero != b
    ensures var s := Series([first, second],
                            map[first := [Section(false, None, [(zero, b)])],
                                second := [Section(false, Some(q), [(b, zero)])]], {zero});
            var ask := (x: Abbrev) => Missing;
            var r := Replayed(map[first := map[], second := map[]], (x: Abbrev) => None);
            var odbs: seq<Odb> := [map[], map[], map[]];
            var names := (x: Abbrev, f: Oid) => true;
            && s.Distinct() && IsReplay(s, r, odbs, names) && Truthful(ask, odbs[0], names)
            && OfflineSilent(s, ask) && AllEarned(s, r) && OneIdPerPath(s) && !Backed(s, ask)
            && b in s.Pre(second) && !Anchored(odbs[1], names, b)
  {
    var e1 := [Section(false, None, [(zero, b)])];
    var e2 := [Section(false, Some(q), [(b, zero)])];
    var s := Series([first, second], map[first := e1, second := e2], {zero});
    assert e1[1..] == [] && e2[1..] == [];
    assert DeclaredBlobs(e1) == [(zero, b)] && DeclaredBlobs(e2) == [(b, zero)];
    assert DeclaredPostimages(e1) == [];
    assert DeclaredPostimages(e2) == [(q, zero)] by { assert WithPath(q, [(b, zero)])[0] == (q, zero); }
    assert (b, zero) in DeclaredBlobs(e2) && (zero, b) in DeclaredBlobs(e1);
    assert b in s.Pre(second) && b in s.Post(first);
    assert s.Produced(1) == s.Produced(0) + s.Post(s.order[0]);
    assert s.Pre(first) == {};
    assert b in s.Claimed(1) && !Backs(s, 1, b);
  }
}
