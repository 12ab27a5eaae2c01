/// Weight paths and the ranking they define.
///
/// A user's weight path lists the weights met on the way from the root's child
/// down to the user.  Fair Tree ranks users by these paths alone: the walk, its
/// tie flags, its virtual nodes and its rank arithmetic are only a way to
/// compute the standard competition ranking by weight path.

module WeightPath {

  type Path = seq<real>

  /** Whether path p beats path q: at the first difference the heavier weight
      wins, and a user listed directly beside a bank of the same weight beats
      everyone inside that bank (the shorter path wins on an equal prefix). */
  predicate Ahead(p: Path, q: Path)
  {
    if p == [] then q != []
    else if q == [] then false
    else p[0] > q[0] || (p[0] == q[0] && Ahead(p[1..], q[1..]))
  }

  lemma {:induction false} AheadTrichotomy(p: Path, q: Path)
    ensures p == q <==> !Ahead(p, q) && !Ahead(q, p)
    ensures !(Ahead(p, q) && Ahead(q, p))
  {
    if p != [] && q != [] {
      AheadTrichotomy(p[1..], q[1..]);
      assert p == [p[0]] + p[1..] && q == [q[0]] + q[1..];
    }
  }

  lemma {:induction false} AheadTransitive(p: Path, q: Path, r: Path)
    requires Ahead(p, q) && Ahead(q, r)
    ensures Ahead(p, r)
  {
    if p != [] && q != [] && r != [] && p[0] == q[0] == r[0] {
      AheadTransitive(p[1..], q[1..], r[1..]);
    }
  }

  /** A common prefix does not change who is ahead. */
  lemma {:induction false} AheadPrefix(s: Path, p: Path, q: Path)
    ensures Ahead(s + p, s + q) == Ahead(p, q)
  {
    if s == [] {
      assert s + p == p && s + q == q;
    } else {
      assert (s + p)[1..] == s[1..] + p && (s + q)[1..] == s[1..] + q;
      AheadPrefix(s[1..], p, q);
    }
  }

  lemma AheadCons(w: real, p: Path, q: Path)
    ensures Ahead([w] + p, [w] + q) == Ahead(p, q)
    ensures [w] + p == [w] + q <==> p == q
  {
    AheadPrefix([w], p, q);
    assert ([w] + p)[1..] == p && ([w] + q)[1..] == q;
  }

  /** Who is strictly ahead of a user with path p. */
  function AheadOf<U>(paths: map<U, Path>, p: Path): set<U>
  {
    set v | v in paths && Ahead(paths[v], p)
  }

  /** The competition rank of user u: the number of users, less those ahead. */
  function Rank<U>(paths: map<U, Path>, u: U): (r: nat)
    requires u in paths
    ensures 1 <= r <= |paths|
  {
    AheadTrichotomy(paths[u], paths[u]);
    var a := AheadOf(paths, paths[u]);
    assert a <= paths.Keys - {u};
    SubsetSize(a, paths.Keys - {u});
    |paths| - |a|
  }

  lemma {:induction false} SubsetSize<U>(a: set<U>, b: set<U>)
    requires a <= b
    ensures |a| <= |b|
    ensures a < b ==> |a| < |b|
    decreases a
  {
    if a != {} {
      var x :| x in a;
      SubsetSize(a - {x}, b - {x});
    } else if a < b {
      var x :| x in b;
    }
  }

  function Share(rank: nat, users: nat): real
    requires 0 < users
  {
    rank as real / users as real
  }

  /** The fairshare value of user u. */
  function FairShare<U>(paths: map<U, Path>, u: U): real
    requires u in paths
  {
    Share(Rank(paths, u), |paths|)
  }

  /** A user ahead of another one has strictly higher fairshare; users with the
      same path share one value. */
  lemma FairShareFollowsPaths<U>(paths: map<U, Path>, u: U, v: U)
    requires u in paths && v in paths
    ensures FairShare(paths, u) > FairShare(paths, v) <==> Ahead(paths[u], paths[v])
    ensures FairShare(paths, u) == FairShare(paths, v) <==> paths[u] == paths[v]
  {
    AheadTrichotomy(paths[u], paths[v]);
    if Ahead(paths[u], paths[v]) {
      RankStrict(paths, u, v);
    } else if Ahead(paths[v], paths[u]) {
      RankStrict(paths, v, u);
    }
  }

  lemma RankStrict<U>(paths: map<U, Path>, u: U, v: U)
    requires u in paths && v in paths && Ahead(paths[u], paths[v])
    ensures Rank(paths, u) > Rank(paths, v)
    ensures FairShare(paths, u) > FairShare(paths, v)
  {
    var a, b := AheadOf(paths, paths[u]), AheadOf(paths, paths[v]);
    forall x | x in a ensures x in b {
      AheadTransitive(paths[x], paths[u], paths[v]);
    }
    AheadTrichotomy(paths[u], paths[u]);
    assert u in b && u !in a;
    SubsetSize(a, b);
    DivideOrder(Rank(paths, v), Rank(paths, u), |paths|);
  }

  lemma DivideOrder(a: nat, b: nat, n: nat)
    requires a < b && 0 < n
    ensures a as real / n as real < b as real / n as real
  {
  }

  // ----- visit orders -----

  /** One visit of a user: who, and whether its tie flag was up. */
  datatype Visit<U> = Visit(user: U, tied: bool)

  /** The users visited by the first i visits. */
  function Visited<U>(log: seq<Visit<U>>, i: nat): set<U>
    requires i <= |log|
  {
    set j | 0 <= j < i :: log[j].user
  }

  /** With `done` already visited, u is a right choice for the next visit and
      `tied` is the right tie flag: nobody still waiting is ahead of u, and the
      flag is up exactly if someone else still waiting has u's path. */
  ghost predicate PickFrom<U>(paths: map<U, Path>, done: set<U>, u: U, tied: bool)
  {
    && u in paths && u !in done
    && (forall v | v in paths.Keys - done :: !Ahead(paths[v], paths[u]))
    && (tied <==> exists v | v in paths.Keys - done :: v != u && paths[v] == paths[u])
  }

  ghost predicate PicksNext<U>(paths: map<U, Path>, log: seq<Visit<U>>, i: nat)
    requires i < |log|
  {
    PickFrom(paths, Visited(log, i), log[i].user, log[i].tied)
  }

  /** The log visits every user exactly once, best path first, with exact tie flags. */
  ghost predicate IsWalk<U>(paths: map<U, Path>, log: seq<Visit<U>>)
  {
    && Visited(log, |log|) == paths.Keys
    && forall i | 0 <= i < |log| :: PicksNext(paths, log, i)
  }

  /** Where the run of tied visits that position k belongs to begins. */
  function GroupStart<U>(log: seq<Visit<U>>, k: nat): (s: nat)
    requires k <= |log|
    ensures s <= k
  {
    if k == 0 || !log[k - 1].tied then k else GroupStart(log, k - 1)
  }

  lemma {:induction false} GroupStartPrefix<U>(log: seq<Visit<U>>, more: seq<Visit<U>>, k: nat)
    requires k <= |log|
    ensures GroupStart(log + more, k) == GroupStart(log, k)
  {
    if k != 0 && log[k - 1].tied {
      GroupStartPrefix(log, more, k - 1);
    }
  }

  lemma GroupStartPush<U>(log: seq<Visit<U>>, v: Visit<U>)
    ensures forall i | 0 <= i <= |log| :: GroupStart(log + [v], i) == GroupStart(log, i)
    ensures GroupStart(log + [v], |log| + 1) == if v.tied then GroupStart(log, |log|) else |log| + 1
  {
    forall i | 0 <= i <= |log| ensures GroupStart(log + [v], i) == GroupStart(log, i) {
      GroupStartPrefix(log, [v], i);
    }
    assert (log + [v])[|log|] == v;
  }

  /** Rank, stride and shares follow from the visits made so far: the rank
      stands at the number of users n less those visited before the current tie
      group, the stride is the size of that group so far, and each visited user
      was given the rank its tie group started with. */
  ghost predicate InStep<U>(log: seq<Visit<U>>, n: nat, rank: int, stride: int, shares: seq<real>)
  {
    && |shares| == |log| <= n
    && rank == n - GroupStart(log, |log|)
    && stride == |log| - GroupStart(log, |log|)
    && forall i | 0 <= i < |log| :: shares[i] == Share(n - GroupStart(log, i), n)
  }

  /** The rank is positive whenever another user is visited, and the update of
      rank and stride keeps them in step. */
  lemma StaysInStep<U>(log: seq<Visit<U>>, n: nat, rank: nat, stride: nat, shares: seq<real>, v: Visit<U>)
    requires InStep(log, n, rank, stride, shares) && |log| < n
    ensures 0 < rank && (!v.tied ==> stride < rank)
    ensures InStep(log + [v], n, if v.tied then rank else rank - 1 - stride,
                   if v.tied then stride + 1 else 0, shares + [Share(rank, n)])
  {
    GroupStartPush(log, v);
  }

  lemma {:induction false} VisitedSize<U>(log: seq<Visit<U>>, i: nat)
    requires i <= |log|
    requires forall j | 0 <= j < i :: log[j].user !in Visited(log, j)
    ensures |Visited(log, i)| == i
  {
    if i != 0 {
      VisitedSize(log, i - 1);
      assert Visited(log, i) == Visited(log, i - 1) + {log[i - 1].user};
    }
  }

  /** In a walk, nobody visited later is ahead of anybody visited earlier. */
  lemma EarlierNotBehind<U>(paths: map<U, Path>, log: seq<Visit<U>>, i: nat, j: nat)
    requires IsWalk(paths, log) && i < j < |log|
    ensures log[j].user in paths && log[i].user in paths && !Ahead(paths[log[j].user], paths[log[i].user])
    ensures log[j].user !in Visited(log, i + 1)
  {
    assert PicksNext(paths, log, i) && PicksNext(paths, log, j);
    assert log[j].user !in Visited(log, j);
    assert forall u :: u in Visited(log, i + 1) ==> u in Visited(log, j);
    assert forall u :: u in Visited(log, i) ==> u in Visited(log, j);
  }

  /** A raised tie flag at i means that visit i + 1 has the same path. */
  lemma TiedMeansSamePath<U>(paths: map<U, Path>, log: seq<Visit<U>>, i: nat)
    requires IsWalk(paths, log) && i < |log| && log[i].tied
    ensures i + 1 < |log| && log[i].user in paths && log[i + 1].user in paths
    ensures paths[log[i + 1].user] == paths[log[i].user]
  {
    assert PicksNext(paths, log, i);
    var v :| v in paths.Keys - Visited(log, i) && v != log[i].user && paths[v] == paths[log[i].user];
    assert v in Visited(log, |log|);
    assert v !in Visited(log, i + 1);
    EarlierNotBehind(paths, log, i, i + 1);
    assert PicksNext(paths, log, i + 1);
    assert !Ahead(paths[v], paths[log[i + 1].user]);
    AheadTrichotomy(paths[log[i].user], paths[log[i + 1].user]);
  }

  /** An untied visit is strictly ahead of every later one. */
  lemma UntiedIsAhead<U>(paths: map<U, Path>, log: seq<Visit<U>>, i: nat, j: nat)
    requires IsWalk(paths, log) && i < j < |log| && !log[i].tied
    ensures log[i].user in paths && log[j].user in paths && Ahead(paths[log[i].user], paths[log[j].user])
  {
    assert PicksNext(paths, log, i);
    EarlierNotBehind(paths, log, i, j);
    AheadTrichotomy(paths[log[i].user], paths[log[j].user]);
  }

  lemma {:induction false} GroupSharesPath<U>(paths: map<U, Path>, log: seq<Visit<U>>, k: nat)
    requires IsWalk(paths, log) && k < |log|
    ensures log[k].user in paths
    ensures forall j | GroupStart(log, k) <= j <= k :: log[j].user in paths && paths[log[j].user] == paths[log[k].user]
    ensures GroupStart(log, k) == 0 || !log[GroupStart(log, k) - 1].tied
  {
    assert PicksNext(paths, log, k);
    if k != 0 && log[k - 1].tied {
      GroupSharesPath(paths, log, k - 1);
      TiedMeansSamePath(paths, log, k - 1);
    }
  }

  /** Everyone visited before visit k's tie group is strictly ahead of it. */
  lemma {:induction false} EarlierGroupIsAhead<U>(paths: map<U, Path>, log: seq<Visit<U>>, j: nat, k: nat)
    requires IsWalk(paths, log) && k < |log| && j < GroupStart(log, k)
    ensures log[j].user in paths && log[k].user in paths && Ahead(paths[log[j].user], paths[log[k].user])
  {
    var g := GroupStart(log, k);
    GroupSharesPath(paths, log, k);
    UntiedIsAhead(paths, log, g - 1, k);
    if j < g - 1 {
      EarlierNotBehind(paths, log, j, g - 1);
      var p, q := paths[log[j].user], paths[log[g - 1].user];
      AheadTrichotomy(p, q);
      if p != q {
        AheadTransitive(p, q, paths[log[k].user]);
      }
    }
  }

  /** Nobody visited in or after visit k's tie group is strictly ahead of it. */
  lemma LaterIsNotAhead<U>(paths: map<U, Path>, log: seq<Visit<U>>, j: nat, k: nat)
    requires IsWalk(paths, log) && k < |log| && GroupStart(log, k) <= j < |log|
    ensures log[j].user in paths && log[k].user in paths && !Ahead(paths[log[j].user], paths[log[k].user])
  {
    GroupSharesPath(paths, log, k);
    if k < j {
      EarlierNotBehind(paths, log, k, j);
    } else {
      AheadTrichotomy(paths[log[j].user], paths[log[k].user]);
    }
  }

  /** The users ahead of visit k are exactly those visited before its tie group. */
  lemma AheadAreEarlierGroups<U>(paths: map<U, Path>, log: seq<Visit<U>>, k: nat)
    requires IsWalk(paths, log) && k < |log|
    ensures log[k].user in paths
    ensures AheadOf(paths, paths[log[k].user]) == Visited(log, GroupStart(log, k))
  {
    assert PicksNext(paths, log, k);
    var g, u := GroupStart(log, k), log[k].user;
    forall v | v in AheadOf(paths, paths[u]) ensures v in Visited(log, g) {
      assert v in Visited(log, |log|);
      var j :| 0 <= j < |log| && log[j].user == v;
      if g <= j {
        LaterIsNotAhead(paths, log, j, k);
      }
    }
    forall j | 0 <= j < g ensures log[j].user in AheadOf(paths, paths[u]) {
      EarlierGroupIsAhead(paths, log, j, k);
    }
  }

  /** A walk has as many visits as users, and its last visit is not tied, so the
      last tie group is complete. */
  lemma WalkEnds<U>(paths: map<U, Path>, log: seq<Visit<U>>)
    requires IsWalk(paths, log)
    ensures |log| == |paths| && GroupStart(log, |log|) == |log|
  {
    forall i | 0 <= i < |log| ensures log[i].user !in Visited(log, i) {
      assert PicksNext(paths, log, i);
    }
    VisitedSize(log, |log|);
    if log != [] && log[|log| - 1].tied {
      TiedMeansSamePath(paths, log, |log| - 1);
      assert false;
    }
  }

  /** At the end of a walk rank and stride are used up. */
  lemma RankUsedUp<U>(paths: map<U, Path>, log: seq<Visit<U>>, rank: int, stride: int, shares: seq<real>)
    requires IsWalk(paths, log) && InStep(log, |paths|, rank, stride, shares)
    ensures rank == 0 && stride == 0
  {
    WalkEnds(paths, log);
  }

  /** A tree that is one user is walked by visiting that user. */
  lemma SingleWalk<U>(u: U)
    ensures IsWalk(map[u := []], [Visit(u, false)])
  {
    var log := [Visit(u, false)];
    assert Visited(log, 1) == {log[0].user};
    assert PicksNext(map[u := []], log, 0);
  }

  /** Rank arithmetic over the tie flags of a walk is competition ranking. */
  lemma WalkRanks<U>(paths: map<U, Path>, log: seq<Visit<U>>, k: nat)
    requires IsWalk(paths, log) && k < |log|
    ensures |log| == |paths| && log[k].user in paths
    ensures |paths| - GroupStart(log, k) == Rank(paths, log[k].user)
  {
    forall i | 0 <= i < |log| ensures log[i].user !in Visited(log, i) {
      assert PicksNext(paths, log, i);
    }
    VisitedSize(log, |log|);
    VisitedSize(log, GroupStart(log, k));
    AheadAreEarlierGroups(paths, log, k);
  }

  /** The value written at visit k is the fairshare value of the user visited. */
  lemma WalkShares<U>(paths: map<U, Path>, log: seq<Visit<U>>, rank: int, stride: int, shares: seq<real>, k: nat)
    requires IsWalk(paths, log) && InStep(log, |paths|, rank, stride, shares) && k < |log|
    ensures log[k].user in paths && shares[k] == FairShare(paths, log[k].user)
  {
    WalkRanks(paths, log, k);
  }

  // ----- only walks are ranked rightly -----

  /** The log visits every user exactly once, in whatever order and with whatever flags. */
  ghost predicate VisitsEach<U>(paths: map<U, Path>, log: seq<Visit<U>>)
  {
    && Visited(log, |log|) == paths.Keys
    && forall i | 0 <= i < |log| :: log[i].user !in Visited(log, i)
  }

  /** The log with the last tie flag down, which no share depends on. */
  function LastDown<U>(log: seq<Visit<U>>): (down: seq<Visit<U>>)
    ensures |down| == |log| && forall i | 0 <= i < |log| :: down[i].user == log[i].user
  {
    if log == [] then [] else log[|log| - 1 := Visit(log[|log| - 1].user, false)]
  }

  lemma {:induction false} LastDownGroups<U>(log: seq<Visit<U>>, k: nat)
    requires k < |log|
    ensures GroupStart(LastDown(log), k) == GroupStart(log, k)
  {
    if k != 0 && log[k - 1].tied {
      LastDownGroups(log, k - 1);
    }
  }

  lemma {:induction false} GroupStartGrows<U>(log: seq<Visit<U>>, i: nat, j: nat)
    requires i < j <= |log|
    ensures GroupStart(log, i) <= GroupStart(log, j)
    ensures !log[i].tied ==> i < GroupStart(log, j)
  {
    if i < j - 1 && log[j - 1].tied {
      GroupStartGrows(log, i, j - 1);
    }
  }

  lemma RankOrder<U>(paths: map<U, Path>, u: U, v: U)
    requires u in paths && v in paths
    ensures Rank(paths, u) <= Rank(paths, v) ==> !Ahead(paths[u], paths[v])
    ensures Rank(paths, u) == Rank(paths, v) <==> paths[u] == paths[v]
  {
    AheadTrichotomy(paths[u], paths[v]);
    if Ahead(paths[u], paths[v]) {
      RankStrict(paths, u, v);
    } else if Ahead(paths[v], paths[u]) {
      RankStrict(paths, v, u);
    }
  }

  /** Rank arithmetic gives every user its competition rank. */
  ghost predicate RankedRightly<U>(paths: map<U, Path>, log: seq<Visit<U>>)
  {
    forall k | 0 <= k < |log| ::
      log[k].user in paths && |paths| - GroupStart(log, k) == Rank(paths, log[k].user)
  }

  lemma LaterRank<U>(paths: map<U, Path>, log: seq<Visit<U>>, i: nat, j: nat)
    requires RankedRightly(paths, log) && i < j < |log|
    ensures log[i].user in paths && log[j].user in paths
    ensures !Ahead(paths[log[j].user], paths[log[i].user])
    ensures !log[i].tied ==> paths[log[j].user] != paths[log[i].user]
    ensures log[i].tied && j == i + 1 ==> paths[log[j].user] == paths[log[i].user]
  {
    var u, v := log[i].user, log[j].user;
    GroupStartGrows(log, i, j);
    assert Rank(paths, u) == |paths| - GroupStart(log, i) && Rank(paths, v) == |paths| - GroupStart(log, j);
    RankOrder(paths, v, u);
  }

  /** A user still waiting is visited later. */
  lemma WaitingIsLater<U>(paths: map<U, Path>, log: seq<Visit<U>>, i: nat, v: U) returns (j: nat)
    requires VisitsEach(paths, log) && i < |log| && v in paths && v !in Visited(log, i) && v != log[i].user
    ensures i < j < |log| && log[j].user == v
  {
    assert v in Visited(log, |log|);
    j :| 0 <= j < |log| && log[j].user == v;
  }

  lemma NextIsWaiting<U>(paths: map<U, Path>, log: seq<Visit<U>>, i: nat)
    requires VisitsEach(paths, log) && i + 1 < |log|
    ensures log[i + 1].user in paths && log[i + 1].user !in Visited(log, i) && log[i + 1].user != log[i].user
  {
    assert log[i + 1].user !in Visited(log, i + 1) && log[i + 1].user in Visited(log, |log|);
  }

  lemma SameVisited<U>(log: seq<Visit<U>>, down: seq<Visit<U>>, i: nat)
    requires |down| == |log| && (forall j | 0 <= j < |log| :: down[j].user == log[j].user) && i <= |log|
    ensures Visited(down, i) == Visited(log, i)
  {
  }

  lemma RankedPicks<U>(paths: map<U, Path>, log: seq<Visit<U>>, i: nat, tied: bool)
    requires VisitsEach(paths, log) && RankedRightly(paths, log) && i < |log|
    requires tied == (i + 1 < |log| && log[i].tied)
    ensures PickFrom(paths, Visited(log, i), log[i].user, tied)
  {
    var u, done := log[i].user, Visited(log, i);
    AheadTrichotomy(paths[u], paths[u]);
    forall v | v in paths.Keys - done
      ensures !Ahead(paths[v], paths[u]) && (!tied && v != u ==> paths[v] != paths[u])
    {
      if v != u {
        var j := WaitingIsLater(paths, log, i, v);
        LaterRank(paths, log, i, j);
      }
    }
    if tied {
      LaterRank(paths, log, i, i + 1);
      NextIsWaiting(paths, log, i);
    }
  }

  lemma RankedIsWalk<U>(paths: map<U, Path>, log: seq<Visit<U>>, down: seq<Visit<U>>)
    requires VisitsEach(paths, log) && RankedRightly(paths, log)
    requires |down| == |log| && (forall j | 0 <= j < |log| :: down[j].user == log[j].user)
    requires forall j | 0 <= j < |log| :: down[j].tied == (j + 1 < |log| && log[j].tied)
    ensures IsWalk(paths, down)
  {
    forall i | 0 <= i < |down| ensures PicksNext(paths, down, i) {
      RankedPicks(paths, log, i, down[i].tied);
      SameVisited(log, down, i);
    }
    SameVisited(log, down, |log|);
  }

  lemma WalkIsRanked<U>(paths: map<U, Path>, log: seq<Visit<U>>)
    requires IsWalk(paths, LastDown(log))
    ensures RankedRightly(paths, log)
  {
    forall k | 0 <= k < |log|
      ensures log[k].user in paths && |paths| - GroupStart(log, k) == Rank(paths, log[k].user)
    {
      WalkRanks(paths, LastDown(log), k);
      LastDownGroups(log, k);
    }
  }

  /** Counting the rank down past tie groups ranks a log of all users rightly exactly
      if the log, apart from its last flag, visits best path first with exact flags. */
  lemma RankedExactlyIfWalk<U>(paths: map<U, Path>, log: seq<Visit<U>>)
    requires VisitsEach(paths, log)
    ensures RankedRightly(paths, log) <==> IsWalk(paths, LastDown(log))
  {
    if RankedRightly(paths, log) {
      RankedIsWalk(paths, log, LastDown(log));
    }
    if IsWalk(paths, LastDown(log)) {
      WalkIsRanked(paths, log);
    }
  }
}
