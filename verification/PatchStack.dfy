/** The commit stack that `regen` turns into the patch series: which commits go to
    `upstream/`, and why moving them behind the others changes nothing. */
module PatchStack {

  type Sha(==, !new)
  type Path(==, !new)
  type Blob(==, !new)

  type Tree = map<Path, Blob>

  /** What git knows of each commit: whether its message names a cherry-picked upstream
      commit, the paths it changes, and how it rewrites the contents it finds at them. */
  datatype Repo = Repo(picked: set<Sha>, files: Sha -> set<Path>, edit: (Sha, Tree) -> Tree)

  // ----- lists of commits -----

  predicate Distinct(s: seq<Sha>) {
    forall i, j | 0 <= i < j < |s| :: s[i] != s[j]
  }

  function SetOf(s: seq<Sha>): set<Sha> {
    set x | x in s
  }

  function Keep(s: seq<Sha>, u: set<Sha>): seq<Sha> {
    if s == [] then [] else (if s[0] in u then [s[0]] else []) + Keep(s[1..], u)
  }

  function Drop(s: seq<Sha>, u: set<Sha>): seq<Sha> {
    if s == [] then [] else (if s[0] in u then [] else [s[0]]) + Drop(s[1..], u)
  }

  lemma {:induction false} KeepDropMembers(s: seq<Sha>, u: set<Sha>, x: Sha)
    ensures x in Keep(s, u) <==> x in s && x in u
    ensures x in Drop(s, u) <==> x in s && x !in u
  {
    if s != [] {
      KeepDropMembers(s[1..], u, x);
      assert s == [s[0]] + s[1..];
    }
  }

  // ----- splitting -----

  /** Index of the first cherry-pick, or the length. */
  function FirstPick(repo: Repo, commits: seq<Sha>): (first: nat)
    ensures first <= |commits|
  {
    if commits == [] || commits[0] in repo.picked then 0 else 1 + FirstPick(repo, commits[1..])
  }

  lemma {:induction false} FirstPickFirst(repo: Repo, commits: seq<Sha>)
    ensures var first := FirstPick(repo, commits);
            && (forall i | 0 <= i < first :: commits[i] !in repo.picked)
            && (first < |commits| ==> commits[first] in repo.picked)
  {
    if commits != [] && commits[0] !in repo.picked { FirstPickFirst(repo, commits[1..]); }
  }

  function Picks(repo: Repo, rest: seq<Sha>): set<Sha> {
    set s | s in rest && s in repo.picked
  }

  ghost predicate SharesFile(repo: Repo, a: Sha, b: Sha) {
    repo.files(a) * repo.files(b) != {}
  }

  /** Contains the cherry-picks and, with a commit, every commit that shares a file with it. */
  ghost predicate Closed(repo: Repo, rest: seq<Sha>, u: set<Sha>) {
    && Picks(repo, rest) <= u <= SetOf(rest)
    && forall a, b | a in u && b in rest && SharesFile(repo, a, b) :: b in u
  }

  ghost predicate LeastClosed(repo: Repo, rest: seq<Sha>, u: set<Sha>) {
    Closed(repo, rest, u) && forall c | Closed(repo, rest, c) :: u <= c
  }

  lemma LeastClosedUnique(repo: Repo, rest: seq<Sha>, u: set<Sha>, w: set<Sha>)
    requires LeastClosed(repo, rest, u) && LeastClosed(repo, rest, w)
    ensures u == w
  {
  }

  /** Commits of `rest` from a cherry-pick to `x`, each sharing a file with the one before. */
  ghost predicate IsChain(repo: Repo, rest: seq<Sha>, chain: seq<Sha>, x: Sha) {
    && chain != [] && chain[0] in repo.picked && chain[|chain| - 1] == x
    && (forall i | 0 <= i < |chain| :: chain[i] in rest)
    && forall i | 1 <= i < |chain| :: repo.files(chain[i - 1]) * repo.files(chain[i]) != {}
  }

  lemma {:induction false} ChainInside(repo: Repo, rest: seq<Sha>, u: set<Sha>, chain: seq<Sha>, x: Sha)
    requires Closed(repo, rest, u) && IsChain(repo, rest, chain, x)
    ensures x in u
  {
    if |chain| == 1 {
      assert x in Picks(repo, rest);
    } else {
      var (front, last) := (chain[..|chain| - 1], chain[|chain| - 2]);
      assert IsChain(repo, rest, front, last) by {
        forall i | 1 <= i < |front| ensures repo.files(front[i - 1]) * repo.files(front[i]) != {} {
          assert front[i - 1] == chain[i - 1] && front[i] == chain[i];
        }
      }
      ChainInside(repo, rest, u, front, last);
      assert SharesFile(repo, last, x);
    }
  }

  lemma ChainGrows(repo: Repo, rest: seq<Sha>, chain: seq<Sha>, a: Sha, b: Sha)
    requires IsChain(repo, rest, chain, a) && b in rest && SharesFile(repo, a, b)
    ensures IsChain(repo, rest, chain + [b], b)
  {
    var longer := chain + [b];
    forall i | 1 <= i < |longer| ensures repo.files(longer[i - 1]) * repo.files(longer[i]) != {} {
      if i < |chain| { assert longer[i - 1] == chain[i - 1] && longer[i] == chain[i]; }
    }
  }

  /** The commits split off are those that a chain of shared files leads to from a cherry-pick. */
  lemma SplitOffIff(repo: Repo, rest: seq<Sha>, u: set<Sha>, x: Sha)
    requires LeastClosed(repo, rest, u)
    ensures x in u <==> exists chain :: IsChain(repo, rest, chain, x)
  {
    var reached := set y | y in rest && exists chain :: IsChain(repo, rest, chain, y);
    forall y | y in Picks(repo, rest) ensures y in reached { assert IsChain(repo, rest, [y], y); }
    forall a, b | a in reached && b in rest && SharesFile(repo, a, b)
      ensures b in reached
    {
      var chain :| IsChain(repo, rest, chain, a);
      ChainGrows(repo, rest, chain, a, b);
    }
    assert Closed(repo, rest, reached);
    if chain :| IsChain(repo, rest, chain, x) { ChainInside(repo, rest, u, chain, x); }
  }

  /** `touched` is the set of paths that the commits of `u` change. */
  ghost predicate IsTouched(repo: Repo, u: set<Sha>, touched: set<Path>) {
    forall p :: p in touched <==> exists s :: s in u && p in repo.files(s)
  }

  /** Grows the set of cherry-picks to a fixpoint, scanning the commits over and over. */
  method SplitStack(repo: Repo, commits: seq<Sha>) returns (first: nat, upstream: set<Sha>)
    ensures first == FirstPick(repo, commits)
    ensures LeastClosed(repo, commits[first..], upstream)
  {
    first := 0;
    while first < |commits| && commits[first] !in repo.picked
      invariant first <= |commits| && FirstPick(repo, commits) == first + FirstPick(repo, commits[first..])
    {
      assert commits[first..][1..] == commits[first + 1..];
      first := first + 1;
    }
    var rest := commits[first..];
    upstream := Picks(repo, rest);
    var touched: set<Path> := set s, p | s in upstream && p in repo.files(s) :: p;
    var grew := true;
    while grew
      invariant Picks(repo, rest) <= upstream <= SetOf(rest)
      invariant IsTouched(repo, upstream, touched)
      invariant forall c | Closed(repo, rest, c) :: upstream <= c
      invariant !grew ==> forall s | s in rest && s !in upstream :: repo.files(s) * touched == {}
      decreases SetOf(rest) - upstream, grew
    {
      grew := false;
      ghost var before := upstream;
      for i := 0 to |rest|
        invariant before <= upstream <= SetOf(rest) && (grew ==> before != upstream)
        invariant IsTouched(repo, upstream, touched)
        invariant forall c | Closed(repo, rest, c) :: upstream <= c
        invariant !grew ==> upstream == before
                            && forall j | 0 <= j < i && rest[j] !in upstream :: repo.files(rest[j]) * touched == {}
      {
        var sha := rest[i];
        if sha !in upstream && repo.files(sha) * touched != {} {
          GrowthNeeded(repo, rest, upstream, touched, sha);
          upstream := upstream + {sha};
          touched := touched + repo.files(sha);
          grew := true;
        }
      }
    }
    forall a, b | a in upstream && b in rest && SharesFile(repo, a, b)
      ensures b in upstream
    {
      var p :| p in repo.files(a) * repo.files(b);
      assert p in touched;
      assert p in repo.files(b) * touched;
    }
  }

  lemma GrowthNeeded(repo: Repo, rest: seq<Sha>, u: set<Sha>, touched: set<Path>, sha: Sha)
    requires IsTouched(repo, u, touched) && sha in rest && repo.files(sha) * touched != {}
    requires forall c | Closed(repo, rest, c) :: u <= c
    ensures forall c | Closed(repo, rest, c) :: u + {sha} <= c
  {
    var p :| p in repo.files(sha) * touched;
    var a :| a in u && p in repo.files(a);
    assert p in repo.files(a) * repo.files(sha);
    assert SharesFile(repo, a, sha);
  }

  // ----- reordering -----

  /** The order of the series: the commits before the first cherry-pick, the other MUSA
      commits, then those of `upstream/`. */
  function Reordered(commits: seq<Sha>, first: nat, upstream: set<Sha>): seq<Sha>
    requires first <= |commits|
  {
    commits[..first] + Drop(commits[first..], upstream) + Keep(commits, upstream)
  }

  /** The contents a commit finds at the paths it changes. */
  function Seen(repo: Repo, t: Tree, s: Sha): Tree {
    map p | p in t && p in repo.files(s) :: t[p]
  }

  function Apply(repo: Repo, t: Tree, s: Sha): Tree {
    var after := repo.edit(s, Seen(repo, t, s));
    map p | p in t.Keys + after.Keys && (if p in repo.files(s) then p in after else p in t)
      :: if p in repo.files(s) then after[p] else t[p]
  }

  function Replay(repo: Repo, t: Tree, commits: seq<Sha>): Tree
    decreases |commits|
  {
    if commits == [] then t else Replay(repo, Apply(repo, t, commits[0]), commits[1..])
  }

  /** What `s` sees when its turn comes in the replay. */
  function SeenIn(repo: Repo, t: Tree, commits: seq<Sha>, s: Sha): Tree
    requires s in commits
    decreases |commits|
  {
    if commits[0] == s then Seen(repo, t, s) else SeenIn(repo, Apply(repo, t, commits[0]), commits[1..], s)
  }

  /** A replay that changes no path of `s` does not change what `s` sees. */
  lemma ApplyUnseen(repo: Repo, t: Tree, m: Sha, s: Sha)
    requires repo.files(m) !! repo.files(s)
    ensures Seen(repo, Apply(repo, t, m), s) == Seen(repo, t, s)
  {
  }

  lemma ApplyCommutes(repo: Repo, t: Tree, a: Sha, b: Sha)
    requires repo.files(a) !! repo.files(b)
    ensures Apply(repo, Apply(repo, t, a), b) == Apply(repo, Apply(repo, t, b), a)
  {
    ApplyUnseen(repo, t, a, b);
    ApplyUnseen(repo, t, b, a);
    var ab, ba := Apply(repo, Apply(repo, t, a), b), Apply(repo, Apply(repo, t, b), a);
    forall p
      ensures p in ab <==> p in ba
      ensures p in ab && p in ba ==> ab[p] == ba[p]
    {
    }
  }

  ghost predicate ApartFrom(repo: Repo, u: Sha, ms: seq<Sha>) {
    forall m | m in ms :: repo.files(u) !! repo.files(m)
  }

  lemma {:induction false} ReplayCommutes(repo: Repo, t: Tree, u: Sha, ms: seq<Sha>)
    requires ApartFrom(repo, u, ms)
    ensures Replay(repo, Apply(repo, t, u), ms) == Apply(repo, Replay(repo, t, ms), u)
    ensures Seen(repo, Replay(repo, t, ms), u) == Seen(repo, t, u)
    decreases |ms|
  {
    if ms != [] {
      ApplyCommutes(repo, t, u, ms[0]);
      ApplyUnseen(repo, t, ms[0], u);
      ReplayCommutes(repo, Apply(repo, t, ms[0]), u, ms[1..]);
    }
  }

  lemma {:induction false} SeenPast(repo: Repo, t: Tree, u: Sha, ms: seq<Sha>, s: Sha)
    requires ApartFrom(repo, u, ms) && s in ms
    ensures SeenIn(repo, Apply(repo, t, u), ms, s) == SeenIn(repo, t, ms, s)
    decreases |ms|
  {
    ApplyUnseen(repo, t, u, s);
    if ms[0] != s {
      ApplyCommutes(repo, t, u, ms[0]);
      SeenPast(repo, Apply(repo, t, ms[0]), u, ms[1..], s);
    }
  }

  lemma {:induction false} ReplayConcat(repo: Repo, t: Tree, a: seq<Sha>, b: seq<Sha>)
    ensures Replay(repo, t, a + b) == Replay(repo, Replay(repo, t, a), b)
    decreases |a|
  {
    if a == [] {
      assert a + b == b;
    } else {
      assert (a + b)[1..] == a[1..] + b;
      ReplayConcat(repo, Apply(repo, t, a[0]), a[1..], b);
    }
  }

  lemma {:induction false} SeenConcat(repo: Repo, t: Tree, a: seq<Sha>, b: seq<Sha>, s: Sha)
    requires s in a + b
    ensures s in a ==> SeenIn(repo, t, a + b, s) == SeenIn(repo, t, a, s)
    ensures s !in a ==> s in b && SeenIn(repo, t, a + b, s) == SeenIn(repo, Replay(repo, t, a), b, s)
    decreases |a|
  {
    if a == [] {
      assert a + b == b;
    } else {
      assert (a + b)[1..] == a[1..] + b;
      if a[0] != s { SeenConcat(repo, Apply(repo, t, a[0]), a[1..], b, s); }
    }
  }

  ghost predicate Separated(repo: Repo, rest: seq<Sha>, u: set<Sha>) {
    forall a, b | a in rest && b in rest && a in u && b !in u :: repo.files(a) !! repo.files(b)
  }

  /** Both orders, one commit at a time. */
  lemma SplitStep(rest: seq<Sha>, u: set<Sha>)
    requires rest != []
    ensures rest[0] !in u ==> Drop(rest, u) == [rest[0]] + Drop(rest[1..], u) && Keep(rest, u) == Keep(rest[1..], u)
    ensures rest[0] in u ==> Drop(rest, u) == Drop(rest[1..], u) && Keep(rest, u) == [rest[0]] + Keep(rest[1..], u)
  {
  }

  lemma DroppedApart(repo: Repo, rest: seq<Sha>, u: set<Sha>)
    requires rest != [] && Separated(repo, rest, u) && rest[0] in u
    ensures ApartFrom(repo, rest[0], Drop(rest[1..], u))
  {
    forall m | m in Drop(rest[1..], u)
      ensures repo.files(rest[0]) !! repo.files(m)
    {
      KeepDropMembers(rest[1..], u, m);
    }
  }

  lemma {:induction false} SplitReplay(repo: Repo, t: Tree, rest: seq<Sha>, u: set<Sha>)
    requires Separated(repo, rest, u)
    ensures Replay(repo, Replay(repo, t, Drop(rest, u)), Keep(rest, u)) == Replay(repo, t, rest)
    decreases |rest|
  {
    if rest != [] {
      var (c, tail) := (rest[0], rest[1..]);
      SplitStep(rest, u);
      SplitReplay(repo, Apply(repo, t, c), tail, u);
      if c in u {
        DroppedApart(repo, rest, u);
        ReplayCommutes(repo, t, c, Drop(tail, u));
      } else {
        assert Drop(rest, u)[1..] == Drop(tail, u);
      }
    }
  }

  /** What `s` sees once the commits are split in two. */
  function SeenSplit(repo: Repo, t: Tree, ms: seq<Sha>, us: seq<Sha>, s: Sha): Tree
    requires s in ms + us
  {
    if s in ms then SeenIn(repo, t, ms, s) else SeenIn(repo, Replay(repo, t, ms), us, s)
  }

  lemma {:induction false} SplitSeen(repo: Repo, t: Tree, rest: seq<Sha>, u: set<Sha>, s: Sha)
    requires Distinct(rest) && Separated(repo, rest, u) && s in rest
    ensures s in Drop(rest, u) + Keep(rest, u)
    ensures SeenSplit(repo, t, Drop(rest, u), Keep(rest, u), s) == SeenIn(repo, t, rest, s)
    decreases |rest|
  {
    var (c, tail) := (rest[0], rest[1..]);
    var (ms, us) := (Drop(tail, u), Keep(tail, u));
    KeepDropMembers(rest, u, s);
    KeepDropMembers(tail, u, s);
    SplitStep(rest, u);
    if c in u {
      DroppedApart(repo, rest, u);
      ReplayCommutes(repo, t, c, ms);
      assert ([c] + us)[1..] == us;
      if s != c {
        SplitSeen(repo, Apply(repo, t, c), tail, u, s);
        if s in ms { SeenPast(repo, t, c, ms, s); }
      }
    } else {
      assert ([c] + ms)[1..] == ms;
      if s != c { SplitSeen(repo, Apply(repo, t, c), tail, u, s); }
    }
  }

  lemma ClosedSeparates(repo: Repo, rest: seq<Sha>, u: set<Sha>)
    requires Closed(repo, rest, u)
    ensures Separated(repo, rest, u)
  {
    forall a, b | a in rest && b in rest && a in u && b !in u
      ensures repo.files(a) !! repo.files(b)
    {
      assert !SharesFile(repo, a, b);
      var (x, y) := (repo.files(a), repo.files(b));
      assert x * y == {};
      assert forall p | p in x && p in y :: p in x * y;
    }
  }

  lemma {:induction false} KeepBelow(commits: seq<Sha>, first: nat, u: set<Sha>)
    requires first <= |commits| && forall i | 0 <= i < first :: commits[i] !in u
    ensures Keep(commits, u) == Keep(commits[first..], u)
    decreases first
  {
    if first > 0 {
      KeepBelow(commits[1..], first - 1, u);
      assert commits[1..][first - 1..] == commits[first..];
    } else {
      assert commits[first..] == commits;
    }
  }

  lemma LeadUntouched(repo: Repo, commits: seq<Sha>, u: set<Sha>)
    requires Distinct(commits) && LeastClosed(repo, commits[FirstPick(repo, commits)..], u)
    ensures Keep(commits, u) == Keep(commits[FirstPick(repo, commits)..], u)
  {
    var first := FirstPick(repo, commits);
    forall i | 0 <= i < first
      ensures commits[i] !in u
    {
      assert forall j | 0 <= j < |commits| - first :: commits[first..][j] == commits[first + j];
      assert commits[i] !in commits[first..];
    }
    KeepBelow(commits, first, u);
  }

  /** Behind a common lead, splitting the rest in two keeps the final tree and what each commit sees. */
  lemma MovePreserves(repo: Repo, base: Tree, lead: seq<Sha>, rest: seq<Sha>, u: set<Sha>)
    requires Distinct(rest) && Separated(repo, rest, u)
    ensures var moved := Drop(rest, u) + Keep(rest, u);
            && Replay(repo, base, lead + moved) == Replay(repo, base, lead + rest)
            && forall s | s in lead + rest ::
                 s in lead + moved && SeenIn(repo, base, lead + moved, s) == SeenIn(repo, base, lead + rest, s)
  {
    var (ms, us) := (Drop(rest, u), Keep(rest, u));
    var t := Replay(repo, base, lead);
    ReplayConcat(repo, base, lead, rest);
    ReplayConcat(repo, base, lead, ms + us);
    ReplayConcat(repo, t, ms, us);
    SplitReplay(repo, t, rest, u);
    forall s | s in lead + rest
      ensures s in lead + (ms + us)
      ensures SeenIn(repo, base, lead + (ms + us), s) == SeenIn(repo, base, lead + rest, s)
    {
      KeepDropMembers(rest, u, s);
      SeenConcat(repo, base, lead, rest, s);
      SeenConcat(repo, base, lead, ms + us, s);
      if s !in lead {
        SplitSeen(repo, t, rest, u, s);
        SeenConcat(repo, t, ms, us, s);
      }
    }
  }

  /** Regenerating the series leaves the final tree, from any base, and what every commit
      finds at the paths it changes: its patch is the same at its new place. */
  lemma ReorderPreserves(repo: Repo, base: Tree, commits: seq<Sha>, upstream: set<Sha>)
    requires Distinct(commits) && LeastClosed(repo, commits[FirstPick(repo, commits)..], upstream)
    ensures var series := Reordered(commits, FirstPick(repo, commits), upstream);
            && Replay(repo, base, series) == Replay(repo, base, commits)
            && forall s | s in commits :: s in series && SeenIn(repo, base, series, s) == SeenIn(repo, base, commits, s)
  {
    var first := FirstPick(repo, commits);
    var (lead, rest) := (commits[..first], commits[first..]);
    ClosedSeparates(repo, rest, upstream);
    hide LeastClosed;
    LeadUntouched(repo, commits, upstream);
    assert commits == lead + rest;
    assert Reordered(commits, first, upstream) == lead + (Drop(rest, upstream) + Keep(rest, upstream));
    MovePreserves(repo, base, lead, rest, upstream);
  }

  // ----- regenerating again -----

  lemma {:induction false} FirstPickIs(repo: Repo, commits: seq<Sha>, n: nat)
    requires n <= |commits| && forall i | 0 <= i < n :: commits[i] !in repo.picked
    requires n < |commits| ==> commits[n] in repo.picked
    ensures FirstPick(repo, commits) == n
    decreases n
  {
    if n > 0 { FirstPickIs(repo, commits[1..], n - 1); }
  }

  lemma {:induction false} KeepHead(s: seq<Sha>, u: set<Sha>)
    requires s != [] && s[0] in u
    ensures Keep(s, u) != [] && Keep(s, u)[0] == s[0]
  {
  }

  lemma {:induction false} KeepAll(s: seq<Sha>, u: set<Sha>)
    requires forall x | x in s :: x in u
    ensures Keep(s, u) == s && Drop(s, u) == []
  {
    if s != [] { KeepAll(s[1..], u); }
  }

  lemma {:induction false} KeepNone(s: seq<Sha>, u: set<Sha>)
    requires forall x | x in s :: x !in u
    ensures Keep(s, u) == []
  {
    if s != [] { KeepNone(s[1..], u); }
  }

  lemma {:induction false} KeepConcat(a: seq<Sha>, b: seq<Sha>, u: set<Sha>)
    ensures Keep(a + b, u) == Keep(a, u) + Keep(b, u)
  {
    if a == [] {
      assert a + b == b;
    } else {
      assert (a + b)[1..] == a[1..] + b && (a + b)[0] == a[0];
      KeepConcat(a[1..], b, u);
      var head := if a[0] in u then [a[0]] else [];
      assert Keep(a + b, u) == head + Keep(a[1..] + b, u) && Keep(a, u) == head + Keep(a[1..], u);
    }
  }

  /** The closure does not change when the commits outside it are taken away. */
  lemma ClosureOfKept(repo: Repo, rest: seq<Sha>, u: set<Sha>)
    requires LeastClosed(repo, rest, u)
    ensures LeastClosed(repo, Keep(rest, u), u)
  {
    var kept := Keep(rest, u);
    forall x
      ensures x in kept <==> x in u
    {
      KeepDropMembers(rest, u, x);
    }
    assert SetOf(kept) == u;
    assert Picks(repo, kept) == Picks(repo, rest);
    forall c | Closed(repo, kept, c)
      ensures u <= c
    {
      forall a, b | a in c && b in rest && SharesFile(repo, a, b)
        ensures b in c
      {
        assert a in u && b in u;
      }
      assert Closed(repo, rest, c);
    }
  }

  /** Where the first cherry-pick stands in the series, and what follows it. */
  lemma SeriesShape(repo: Repo, commits: seq<Sha>, u: set<Sha>)
    requires Distinct(commits) && LeastClosed(repo, commits[FirstPick(repo, commits)..], u)
    ensures var first := FirstPick(repo, commits);
            var series := Reordered(commits, first, u);
            var n := first + |Drop(commits[first..], u)|;
            FirstPick(repo, series) == n && series[n..] == Keep(commits[first..], u)
  {
    var first := FirstPick(repo, commits);
    var rest := commits[first..];
    var (ms, us) := (Drop(rest, u), Keep(rest, u));
    var series := Reordered(commits, first, u);
    LeadUntouched(repo, commits, u);
    FirstPickFirst(repo, commits);
    assert series == commits[..first] + ms + us;
    forall i | 0 <= i < first + |ms|
      ensures series[i] !in repo.picked
    {
      if i >= first {
        KeepDropMembers(rest, u, ms[i - first]);
        assert ms[i - first] in ms && Picks(repo, rest) <= u;
        assert ms[i - first] !in Picks(repo, rest);
      }
    }
    if us != [] {
      KeepDropMembers(rest, u, us[0]);
      assert us[0] in us && rest != [] && rest[0] in repo.picked && rest[0] in Picks(repo, rest);
      KeepHead(rest, u);
    }
    FirstPickIs(repo, series, first + |ms|);
  }

  lemma PiecesReordered(lead: seq<Sha>, tail: seq<Sha>, u: set<Sha>)
    requires (forall s | s in lead :: s !in u) && (forall s | s in tail :: s in u)
    ensures Reordered(lead + tail, |lead|, u) == lead + tail
  {
    KeepAll(tail, u);
    KeepNone(lead, u);
    KeepConcat(lead, tail, u);
    assert (lead + tail)[|lead|..] == tail && (lead + tail)[..|lead|] == lead;
  }

  lemma SeriesReordered(repo: Repo, commits: seq<Sha>, u: set<Sha>)
    requires Distinct(commits) && LeastClosed(repo, commits[FirstPick(repo, commits)..], u)
    ensures var series := Reordered(commits, FirstPick(repo, commits), u);
            var first := FirstPick(repo, series);
            (forall s | s in series[first..] :: s in u) && Reordered(series, first, u) == series
  {
    hide LeastClosed;
    var start := FirstPick(repo, commits);
    var rest := commits[start..];
    var series := Reordered(commits, start, u);
    SeriesShape(repo, commits, u);
    LeadUntouched(repo, commits, u);
    var (lead, tail) := (commits[..start] + Drop(rest, u), Keep(rest, u));
    assert series == lead + tail;
    forall s | s in tail
      ensures s in u
    {
      KeepDropMembers(rest, u, s);
    }
    forall s | s in lead
      ensures s !in u
    {
      LeadOutside(repo, commits, u, s);
    }
    PiecesReordered(lead, tail, u);
  }

  /** Splitting a regenerated stack finds the same `upstream/` commits, all of them behind
      every other commit, and regenerating it changes nothing. */
  lemma RegenIsFixedPoint(repo: Repo, commits: seq<Sha>, u: set<Sha>, again: set<Sha>)
    requires Distinct(commits) && LeastClosed(repo, commits[FirstPick(repo, commits)..], u)
    requires var series := Reordered(commits, FirstPick(repo, commits), u);
             LeastClosed(repo, series[FirstPick(repo, series)..], again)
    ensures var series := Reordered(commits, FirstPick(repo, commits), u);
            var first := FirstPick(repo, series);
            && again == u
            && (forall s | s in series[first..] :: s in again)
            && Reordered(series, first, again) == series
  {
    hide LeastClosed;
    var rest := commits[FirstPick(repo, commits)..];
    var series := Reordered(commits, FirstPick(repo, commits), u);
    SeriesShape(repo, commits, u);
    ClosureOfKept(repo, rest, u);
    LeastClosedUnique(repo, series[FirstPick(repo, series)..], u, again);
    SeriesReordered(repo, commits, u);
  }

  lemma LeadOutside(repo: Repo, commits: seq<Sha>, u: set<Sha>, s: Sha)
    requires Distinct(commits) && LeastClosed(repo, commits[FirstPick(repo, commits)..], u)
    requires var first := FirstPick(repo, commits);
             s in commits[..first] + Drop(commits[first..], u)
    ensures s !in u
  {
    var first := FirstPick(repo, commits);
    KeepDropMembers(commits[first..], u, s);
    if s in commits[..first] {
      assert forall j | 0 <= j < |commits| - first :: commits[first..][j] == commits[first + j];
      assert s !in commits[first..];
    }
  }

  /** `_restack` rebuilds the clone exactly when regenerating would move a commit. */
  lemma RestackIffMoved(repo: Repo, commits: seq<Sha>, u: set<Sha>)
    requires Distinct(commits) && LeastClosed(repo, commits[FirstPick(repo, commits)..], u)
    ensures var first := FirstPick(repo, commits);
            (forall s | s in commits[first..] :: s in u) <==> Reordered(commits, first, u) == commits
  {
    hide LeastClosed, Distinct, FirstPick;
    var first := FirstPick(repo, commits);
    var rest := commits[first..];
    if forall s | s in rest :: s in u {
      LeadUntouched(repo, commits, u);
      KeepAll(rest, u);
      assert Reordered(commits, first, u) == commits[..first] + [] + rest;
    } else {
      var s :| s in rest && s !in u;
      KeepDropMembers(rest, u, s);
      SeriesShape(repo, commits, u);
      assert FirstPick(repo, Reordered(commits, first, u)) > first;
    }
  }
}
