/// The emulator's own fairshare calculation: a plain depth-first traversal that
/// looks for tied banks among the children of one bank only.

module Emulator {
  import opened WeightPath
  import opened VisitOrder
  import opened WeightedTree

  /** The tree the emulator is given. */
  datatype Tree<U> =
    | User(user: U, shares: nat, usage: nat)
    | Bank(shares: nat, usage: nat, children: seq<Tree<U>>)

  /** A node once it has a weight among its siblings, and a tie flag. */
  datatype Placed<U> =
    | PlacedUser(weight: real, tied: bool, user: U)
    | PlacedBank(weight: real, tied: bool, children: seq<Placed<U>>)

  function SharesOf<U>(ts: seq<Tree<U>>): (total: nat)
    ensures forall i | 0 <= i < |ts| :: ts[i].shares <= total
  {
    if ts == [] then 0 else SharesOf(ts[..|ts| - 1]) + ts[|ts| - 1].shares
  }

  function UsageOf<U>(ts: seq<Tree<U>>): (total: nat)
    ensures forall i | 0 <= i < |ts| :: ts[i].usage <= total
  {
    if ts == [] then 0 else UsageOf(ts[..|ts| - 1]) + ts[|ts| - 1].usage
  }

  /** The tree with weights, all tie flags down, in the given order. */
  function Weighed<U>(t: Tree<U>, weight: real): (p: Placed<U>)
    ensures p.weight == weight && (p.PlacedUser? <==> t.User?)
  {
    match t
    case User(user, _, _) => PlacedUser(weight, false, user)
    case Bank(_, _, children) =>
      var s, u := SharesOf(children), UsageOf(children);
      PlacedBank(weight, false, seq(|children|, i requires 0 <= i < |children| =>
        Weighed(children[i], WeightOf(children[i].shares, children[i].usage, s, u))))
  }

  // ----- what a placed tree is made of -----

  function UsersOf<U>(p: Placed<U>): multiset<U>
  {
    if p.PlacedUser? then multiset{p.user} else UsersIn(p.children)
  }

  function UsersIn<U>(ps: seq<Placed<U>>): multiset<U>
  {
    if ps == [] then multiset{} else UsersIn(ps[..|ps| - 1]) + UsersOf(ps[|ps| - 1])
  }

  function Height<U>(p: Placed<U>): nat
  {
    if p.PlacedUser? then 0 else HeightOver(p.children)
  }

  /** Larger than all the heights. */
  function HeightOver<U>(ps: seq<Placed<U>>): (h: nat)
    ensures 0 < h
  {
    if ps == [] then 1
    else
      var h, k := HeightOver(ps[..|ps| - 1]), Height(ps[|ps| - 1]);
      if k < h then h else k + 1
  }

  /** All lie lower than h. */
  ghost predicate Lower<U>(ps: seq<Placed<U>>, h: nat)
  {
    forall i | 0 <= i < |ps| :: Height(ps[i]) < h
  }

  lemma {:induction false} HeightIsOver<U>(ps: seq<Placed<U>>)
    ensures Lower(ps, HeightOver(ps))
  {
    if ps != [] {
      HeightIsOver(ps[..|ps| - 1]);
    }
  }

  /** The weight paths of the users, relative to the node. */
  function PathsOf<U>(p: Placed<U>): map<U, Path>
    decreases p, 0
  {
    if p.PlacedUser? then map[p.user := []] else PathsIn(p.children)
  }

  /** The same for several nodes, seen from the bank above. */
  function PathsIn<U>(ps: seq<Placed<U>>): map<U, Path>
    decreases ps, 0
  {
    if ps == [] then map[] else PathsIn(ps[..|ps| - 1]) + PathsFrom(ps[|ps| - 1])
  }

  function PathsFrom<U>(p: Placed<U>): map<U, Path>
    decreases p, 1
  {
    var paths := PathsOf(p);
    map u | u in paths :: [p.weight] + paths[u]
  }

  lemma {:induction false} UsersConcat<U>(ps: seq<Placed<U>>, qs: seq<Placed<U>>)
    ensures UsersIn(ps + qs) == UsersIn(ps) + UsersIn(qs)
  {
    if qs == [] {
      assert ps + qs == ps;
    } else {
      var init, q := qs[..|qs| - 1], qs[|qs| - 1];
      assert (ps + qs)[..|ps + qs| - 1] == ps + init;
      UsersConcat(ps, init);
    }
  }

  lemma {:induction false} UserKnown<U>(p: Placed<U>, u: U)
    ensures u in UsersOf(p) <==> u in PathsOf(p)
    decreases p, 1
  {
    if p.PlacedBank? {
      UserKnownIn(p.children, u);
    }
  }

  lemma {:induction false} UserKnownIn<U>(ps: seq<Placed<U>>, u: U)
    ensures u in UsersIn(ps) <==> u in PathsIn(ps)
    decreases ps, 0
  {
    if ps != [] {
      UserKnownIn(ps[..|ps| - 1], u);
      UserKnown(ps[|ps| - 1], u);
    }
  }

  /** No user occurs twice. */
  ghost predicate Once<U>(users: multiset<U>)
  {
    forall u | u in users :: users[u] == 1
  }

  lemma Apart<U>(a: multiset<U>, b: multiset<U>, u: U)
    requires Once(a + b) && u in a
    ensures u !in b
  {
    assert u in a + b && (a + b)[u] == a[u] + b[u];
  }

  /** With no user on both sides, the order of two parts does not matter. */
  lemma PathsConcat<U>(ps: seq<Placed<U>>, qs: seq<Placed<U>>)
    requires Once(UsersIn(ps) + UsersIn(qs))
    ensures PathsIn(ps + qs) == PathsIn(ps) + PathsIn(qs) == PathsIn(qs) + PathsIn(ps)
  {
    forall u | u in PathsIn(ps) ensures u !in PathsIn(qs) {
      UserKnownIn(ps, u);
      UserKnownIn(qs, u);
      Apart(UsersIn(ps), UsersIn(qs), u);
    }
    PathsAppend(ps, qs);
    SumOfApart(PathsIn(ps), PathsIn(qs));
  }

  lemma SumOfApart<U>(a: map<U, Path>, b: map<U, Path>)
    requires forall u | u in a :: u !in b
    ensures a + b == b + a
  {
  }

  lemma SumOfThree<U>(a: map<U, Path>, b: map<U, Path>, c: map<U, Path>)
    ensures a + (b + c) == (a + b) + c
  {
  }

  lemma {:induction false} PathsAppend<U>(ps: seq<Placed<U>>, qs: seq<Placed<U>>)
    ensures PathsIn(ps + qs) == PathsIn(ps) + PathsIn(qs)
  {
    if qs == [] {
      assert ps + qs == ps;
    } else {
      var init, q := qs[..|qs| - 1], qs[|qs| - 1];
      assert (ps + qs)[..|ps + qs| - 1] == ps + init;
      PathsAppend(ps, init);
      SumOfThree(PathsIn(ps), PathsIn(init), PathsFrom(q));
    }
  }

  // ----- sorting -----

  ghost predicate Heaviest<U>(ps: seq<Placed<U>>)
  {
    forall i, j | 0 <= i < j < |ps| :: ps[i].weight >= ps[j].weight
  }

  /** Only users, or only banks no two of which weigh the same. */
  ghost predicate Uniform<U>(ps: seq<Placed<U>>)
  {
    AllUsers(ps) || DistinctBanks(ps)
  }

  ghost predicate AllUsers<U>(ps: seq<Placed<U>>)
  {
    forall i | 0 <= i < |ps| :: ps[i].PlacedUser?
  }

  ghost predicate DistinctBanks<U>(ps: seq<Placed<U>>)
  {
    && (forall i | 0 <= i < |ps| :: ps[i].PlacedBank?)
    && forall i, j | 0 <= i < j < |ps| :: ps[i].weight != ps[j].weight
  }

  /** The same nodes in another order: the same users on the same paths. */
  ghost predicate Rearranged<U>(ps: seq<Placed<U>>, qs: seq<Placed<U>>)
  {
    && multiset(ps) == multiset(qs) && UsersIn(ps) == UsersIn(qs)
    && (Once(UsersIn(ps)) ==> PathsIn(ps) == PathsIn(qs))
    && (AllUsers(ps) ==> AllUsers(qs)) && (DistinctBanks(ps) ==> DistinctBanks(qs))
  }

  lemma UsersOfOne<U>(p: Placed<U>)
    ensures UsersIn([p]) == UsersOf(p) && PathsIn([p]) == PathsFrom(p)
  {
    assert [p][..0] == [];
  }

  lemma SnocParts<U>(ps: seq<Placed<U>>, p: Placed<U>)
    ensures UsersIn(ps + [p]) == UsersIn(ps) + UsersOf(p) && PathsIn(ps + [p]) == PathsIn(ps) + PathsFrom(p)
  {
    assert (ps + [p])[..|ps|] == ps;
  }

  lemma UsersInserted<U>(a: seq<Placed<U>>, b: seq<Placed<U>>, p: Placed<U>)
    ensures UsersIn(a + [p] + b) == UsersIn(a + b) + UsersOf(p)
  {
    UsersConcat(a + [p], b);
    SnocParts(a, p);
    UsersConcat(a, b);
  }

  lemma PathsInserted<U>(a: seq<Placed<U>>, b: seq<Placed<U>>, p: Placed<U>)
    requires Once(UsersIn(a + b) + UsersOf(p))
    ensures PathsIn(a + [p] + b) == PathsIn(a + b) + PathsFrom(p)
  {
    UsersConcat(a, b);
    UsersOfOne(p);
    forall u | u in UsersIn([p]) + UsersIn(b) ensures (UsersIn([p]) + UsersIn(b))[u] == 1 {
      assert u in UsersIn(a + b) + UsersOf(p) && (UsersIn(a + b) + UsersOf(p))[u] == 1;
    }
    PathsConcat([p], b);
    PathsAppend(a + [p], b);
    PathsAppend(a, [p]);
    PathsAppend(a, b);
    SumOfThree(PathsIn(a), PathsFrom(p), PathsIn(b));
    SumOfThree(PathsIn(a), PathsIn(b), PathsFrom(p));
  }

  lemma InsertUsers<U>(ps: seq<Placed<U>>, s: seq<Placed<U>>, k: nat, p: Placed<U>)
    requires UsersIn(ps) == UsersIn(s) && k <= |s|
    ensures UsersIn(s[..k] + [p] + s[k..]) == UsersIn(ps + [p]) == UsersIn(s) + UsersOf(p)
  {
    assert s[..k] + s[k..] == s;
    UsersInserted(s[..k], s[k..], p);
    SnocParts(ps, p);
  }

  lemma InsertPaths<U>(ps: seq<Placed<U>>, s: seq<Placed<U>>, k: nat, p: Placed<U>)
    requires UsersIn(ps) == UsersIn(s) && (Once(UsersIn(ps)) ==> PathsIn(ps) == PathsIn(s)) && k <= |s|
    requires Once(UsersIn(ps) + UsersOf(p))
    ensures PathsIn(ps + [p]) == PathsIn(s[..k] + [p] + s[k..])
  {
    assert s[..k] + s[k..] == s;
    OncePart(UsersIn(ps), UsersOf(p));
    PathsInserted(s[..k], s[k..], p);
    SnocParts(ps, p);
  }

  lemma InsertMembers<U>(ps: seq<Placed<U>>, s: seq<Placed<U>>, k: nat, p: Placed<U>)
    requires multiset(ps) == multiset(s) && k <= |s|
    ensures multiset(ps + [p]) == multiset(s[..k] + [p] + s[k..])
  {
    assert s[..k] + s[k..] == s;
  }

  /** Putting the next node in its place. */
  lemma InsertRearranges<U>(ps: seq<Placed<U>>, s: seq<Placed<U>>, k: nat, p: Placed<U>)
    requires Rearranged(ps, s) && k <= |s|
    ensures Rearranged(ps + [p], s[..k] + [p] + s[k..])
  {
    InsertMembers(ps, s, k, p);
    InsertUsers(ps, s, k, p);
    if Once(UsersIn(ps + [p])) {
      InsertPaths(ps, s, k, p);
    }
    if AllUsers(ps + [p]) {
      InsertUser(ps, s, k, p);
    }
    if DistinctBanks(ps + [p]) {
      InsertBank(ps, s, k, p);
    }
  }

  lemma OncePart<U>(a: multiset<U>, b: multiset<U>)
    requires Once(a + b)
    ensures Once(a) && Once(b)
  {
    forall u | u in a ensures a[u] == 1 {
      assert u in a + b;
    }
    forall u | u in b ensures b[u] == 1 {
      assert u in a + b;
    }
  }

  lemma SameMembers<U>(ps: seq<Placed<U>>, s: seq<Placed<U>>, i: nat) returns (j: nat)
    requires multiset(ps) == multiset(s) && i < |s|
    ensures j < |ps| && ps[j] == s[i]
  {
    assert s[i] in multiset(s);
    assert s[i] in ps;
    j :| 0 <= j < |ps| && ps[j] == s[i];
  }

  lemma InsertUser<U>(ps: seq<Placed<U>>, s: seq<Placed<U>>, k: nat, p: Placed<U>)
    requires (AllUsers(ps) ==> AllUsers(s)) && k <= |s| && AllUsers(ps + [p])
    ensures AllUsers(s[..k] + [p] + s[k..])
  {
    assert (ps + [p])[|ps|] == p;
    assert forall i | 0 <= i < |ps| :: (ps + [p])[i] == ps[i];
  }

  lemma InsertBank<U>(ps: seq<Placed<U>>, s: seq<Placed<U>>, k: nat, p: Placed<U>)
    requires multiset(ps) == multiset(s) && (DistinctBanks(ps) ==> DistinctBanks(s)) && k <= |s|
             && DistinctBanks(ps + [p])
    ensures DistinctBanks(s[..k] + [p] + s[k..])
  {
    var all := ps + [p];
    assert forall i | 0 <= i < |ps| :: all[i] == ps[i];
    assert all[|ps|] == p && DistinctBanks(ps);
    forall i | 0 <= i < |s| ensures s[i].weight != p.weight {
      var j := SameMembers(ps, s, i);
      assert all[j] == s[i];
    }
    PutBank(s, k, p);
  }

  lemma PutBank<U>(s: seq<Placed<U>>, k: nat, p: Placed<U>)
    requires DistinctBanks(s) && k <= |s| && p.PlacedBank? && forall i | 0 <= i < |s| :: s[i].weight != p.weight
    ensures DistinctBanks(s[..k] + [p] + s[k..])
  {
    var now := s[..k] + [p] + s[k..];
    assert forall i | 0 <= i < |now| :: now[i] == (if i < k then s[i] else if i == k then p else s[i - 1]);
  }

  /** The place after the nodes that are at least as heavy. */
  function Place<U>(s: seq<Placed<U>>, weight: real): (k: nat)
    ensures k <= |s|
  {
    if s == [] || weight <= s[|s| - 1].weight then |s| else Place(s[..|s| - 1], weight)
  }

  lemma {:induction false} PlaceRight<U>(s: seq<Placed<U>>, weight: real)
    ensures var k := Place(s, weight);
            (forall j | k <= j < |s| :: s[j].weight < weight) && (0 < k ==> weight <= s[k - 1].weight)
  {
    if s != [] && s[|s| - 1].weight < weight {
      PlaceRight(s[..|s| - 1], weight);
    }
  }

  function Inserted<U>(s: seq<Placed<U>>, p: Placed<U>): seq<Placed<U>>
  {
    var k := Place(s, p.weight);
    s[..k] + [p] + s[k..]
  }

  /** The nodes by falling weight. */
  function SortedByWeight<U>(ps: seq<Placed<U>>): seq<Placed<U>>
  {
    if ps == [] then [] else Inserted(SortedByWeight(ps[..|ps| - 1]), ps[|ps| - 1])
  }

  lemma PutHeaviest<U>(s: seq<Placed<U>>, k: nat, p: Placed<U>)
    requires Heaviest(s) && k <= |s|
    requires (forall j | k <= j < |s| :: s[j].weight < p.weight) && forall j | 0 <= j < k :: p.weight <= s[j].weight
    ensures Heaviest(s[..k] + [p] + s[k..])
  {
    var now := s[..k] + [p] + s[k..];
    assert forall i | 0 <= i < |now| :: now[i] == (if i < k then s[i] else if i == k then p else s[i - 1]);
  }

  lemma InsertHeaviest<U>(s: seq<Placed<U>>, p: Placed<U>)
    requires Heaviest(s)
    ensures Heaviest(Inserted(s, p))
  {
    var k := Place(s, p.weight);
    PlaceRight(s, p.weight);
    forall j | 0 <= j < k ensures p.weight <= s[j].weight {
      assert j < k - 1 ==> s[j].weight >= s[k - 1].weight;
    }
    PutHeaviest(s, k, p);
  }

  lemma SortedNext<U>(init: seq<Placed<U>>, s: seq<Placed<U>>, p: Placed<U>)
    requires Rearranged(init, s) && Heaviest(s)
    ensures Rearranged(init + [p], Inserted(s, p)) && Heaviest(Inserted(s, p))
  {
    InsertRearranges(init, s, Place(s, p.weight), p);
    InsertHeaviest(s, p);
  }

  /** Sorting rearranges, and puts the heaviest first. */
  lemma {:induction false} SortedRearranges<U>(ps: seq<Placed<U>>)
    ensures Rearranged(ps, SortedByWeight(ps)) && Heaviest(SortedByWeight(ps))
  {
    if ps != [] {
      var init, p := ps[..|ps| - 1], ps[|ps| - 1];
      SortedRearranges(init);
      SortedNext(init, SortedByWeight(init), p);
      assert ps == init + [p];
    }
  }

  /** The nodes of one weight, in order. */
  function OfWeight<U>(ps: seq<Placed<U>>, weight: real): seq<Placed<U>>
  {
    if ps == [] then []
    else OfWeight(ps[..|ps| - 1], weight) + if ps[|ps| - 1].weight == weight then [ps[|ps| - 1]] else []
  }

  lemma {:induction false} OfWeightConcat<U>(ps: seq<Placed<U>>, qs: seq<Placed<U>>, weight: real)
    ensures OfWeight(ps + qs, weight) == OfWeight(ps, weight) + OfWeight(qs, weight)
  {
    if qs == [] {
      assert ps + qs == ps;
    } else {
      var init := qs[..|qs| - 1];
      assert (ps + qs)[..|ps + qs| - 1] == ps + init;
      OfWeightConcat(ps, init, weight);
    }
  }

  lemma {:induction false} NoneOfWeight<U>(ps: seq<Placed<U>>, weight: real)
    requires forall i | 0 <= i < |ps| :: ps[i].weight < weight
    ensures OfWeight(ps, weight) == []
  {
    if ps != [] {
      NoneOfWeight(ps[..|ps| - 1], weight);
    }
  }

  lemma OfWeightPut<U>(a: seq<Placed<U>>, p: Placed<U>, b: seq<Placed<U>>, weight: real)
    ensures OfWeight(a + [p] + b, weight)
         == OfWeight(a, weight) + (if p.weight == weight then [p] else []) + OfWeight(b, weight)
  {
    OfWeightConcat(a + [p], b, weight);
    assert (a + [p])[..|a|] == a;
  }

  lemma OfWeightSplit<U>(s: seq<Placed<U>>, k: nat, weight: real)
    requires k <= |s|
    ensures OfWeight(s, weight) == OfWeight(s[..k], weight) + OfWeight(s[k..], weight)
  {
    OfWeightConcat(s[..k], s[k..], weight);
    assert s[..k] + s[k..] == s;
  }

  lemma OfWeightInserted<U>(s: seq<Placed<U>>, p: Placed<U>, weight: real)
    ensures OfWeight(Inserted(s, p), weight) == OfWeight(s, weight) + if p.weight == weight then [p] else []
  {
    var k := Place(s, p.weight);
    OfWeightPut(s[..k], p, s[k..], weight);
    OfWeightSplit(s, k, weight);
    if p.weight == weight {
      PlaceRight(s, p.weight);
      NoneOfWeight(s[k..], weight);
    }
  }

  /** Nodes of the same weight stay in the order they had. */
  lemma {:induction false} SortIsStable<U>(ps: seq<Placed<U>>, weight: real)
    ensures OfWeight(SortedByWeight(ps), weight) == OfWeight(ps, weight)
  {
    if ps != [] {
      SortIsStable(ps[..|ps| - 1], weight);
      OfWeightInserted(SortedByWeight(ps[..|ps| - 1]), ps[|ps| - 1], weight);
    }
  }

  method PlaceFor<U>(s: seq<Placed<U>>, weight: real) returns (k: nat)
    ensures k == Place(s, weight)
  {
    k := |s|;
    assert s[..|s|] == s;
    while 0 < k && s[k - 1].weight < weight
      invariant k <= |s| && Place(s[..k], weight) == Place(s, weight)
    {
      assert s[..k][..k - 1] == s[..k - 1];
      k := k - 1;
    }
  }

  /** Sort by weight, heaviest first, keeping the order of equals. */
  method SortByWeight<U>(ps: seq<Placed<U>>) returns (s: seq<Placed<U>>)
    ensures s == SortedByWeight(ps) && Rearranged(ps, s) && Heaviest(s)
    ensures forall weight :: OfWeight(s, weight) == OfWeight(ps, weight)
  {
    s := [];
    for i := 0 to |ps|
      invariant s == SortedByWeight(ps[..i])
    {
      var k := PlaceFor(s, ps[i].weight);
      assert ps[..i + 1][..i] == ps[..i];
      s := s[..k] + [ps[i]] + s[k..];
    }
    assert ps[..|ps|] == ps;
    SortedRearranges(ps);
    forall weight ensures OfWeight(s, weight) == OfWeight(ps, weight) {
      SortIsStable(ps, weight);
    }
  }

  // ----- ties -----

  predicate SameKind<U>(a: Placed<U>, b: Placed<U>)
  {
    a.PlacedUser? == b.PlacedUser?
  }

  /** The same nodes, apart from tie flags. */
  ghost predicate Reflagged<U>(ps: seq<Placed<U>>, qs: seq<Placed<U>>)
  {
    |qs| == |ps| && forall i | 0 <= i < |ps| :: qs[i] == ps[i].(tied := qs[i].tied)
  }

  lemma {:induction false} ReflaggedUsers<U>(ps: seq<Placed<U>>, qs: seq<Placed<U>>)
    requires Reflagged(ps, qs)
    ensures UsersIn(ps) == UsersIn(qs) && PathsIn(ps) == PathsIn(qs)
  {
    if ps != [] {
      ReflaggedUsers(ps[..|ps| - 1], qs[..|qs| - 1]);
      FlagIsNoMatter(ps[|ps| - 1], qs[|qs| - 1].tied);
    }
  }

  lemma FlagIsNoMatter<U>(p: Placed<U>, tied: bool)
    ensures UsersOf(p.(tied := tied)) == UsersOf(p) && PathsFrom(p.(tied := tied)) == PathsFrom(p)
    ensures Height(p.(tied := tied)) == Height(p)
  {
    assert PathsOf(p.(tied := tied)) == PathsOf(p);
  }

  /** Node i weighs the same as the next one; with `kinds` only nodes of one kind tie. */
  predicate TiesWithNext<U>(ps: seq<Placed<U>>, i: nat, kinds: bool)
    requires i < |ps|
  {
    i + 1 < |ps| && (kinds ==> SameKind(ps[i], ps[i + 1])) && ps[i].weight == ps[i + 1].weight
  }

  /** The nodes with the flag of each that ties with the next one raised. */
  function MarkedTies<U>(ps: seq<Placed<U>>, kinds: bool): seq<Placed<U>>
  {
    seq(|ps|, i requires 0 <= i < |ps| => ps[i].(tied := ps[i].tied || TiesWithNext(ps, i, kinds)))
  }

  lemma MarkedIsReflagged<U>(ps: seq<Placed<U>>, kinds: bool)
    ensures Reflagged(ps, MarkedTies(ps, kinds))
  {
  }

  /** Raise the flag of each node that ties with the next one. */
  method MarkTies<U>(ps: seq<Placed<U>>, kinds: bool) returns (qs: seq<Placed<U>>)
    ensures qs == MarkedTies(ps, kinds)
  {
    qs := ps;
    var i := 0;
    while i + 1 < |ps|
      invariant 0 <= i && (i < |ps| || i == 0) && |qs| == |ps|
      invariant forall j | i <= j < |ps| :: qs[j] == ps[j]
      invariant forall j | 0 <= j < i :: qs[j] == MarkedTies(ps, kinds)[j]
    {
      if (kinds ==> SameKind(qs[i], qs[i + 1])) && qs[i].weight == qs[i + 1].weight {
        qs := qs[i := qs[i].(tied := true)];
      }
      i := i + 1;
    }
  }

  // ----- preparing the tree -----

  /** Every bank has only users below it, or only banks of different weights. */
  ghost predicate Simple<U>(p: Placed<U>)
  {
    p.PlacedBank? ==> Uniform(p.children) && forall i | 0 <= i < |p.children| :: Simple(p.children[i])
  }

  /** No flag is up yet. */
  ghost predicate Untied<U>(p: Placed<U>)
  {
    p.PlacedBank? ==> forall i | 0 <= i < |p.children| :: !p.children[i].tied && Untied(p.children[i])
  }

  /** A flag is up exactly if the next node is of the same kind and weight. */
  ghost predicate Marked<U>(ps: seq<Placed<U>>)
  {
    forall i | 0 <= i < |ps| :: ps[i].tied == TiesWithNext(ps, i, true)
  }

  /** The children of every bank are sorted and marked. */
  ghost predicate Orderly<U>(p: Placed<U>)
  {
    p.PlacedBank? ==>
      Heaviest(p.children) && Marked(p.children) && forall i | 0 <= i < |p.children| :: Orderly(p.children[i])
  }

  /** Node r is node p with its subtree prepared. */
  ghost predicate Stands<U>(p: Placed<U>, r: Placed<U>)
  {
    && r.weight == p.weight && r.tied == p.tied && SameKind(p, r) && UsersOf(r) == UsersOf(p)
    && (Once(UsersOf(p)) ==> PathsOf(r) == PathsOf(p)) && (Simple(p) ==> Simple(r))
  }

  ghost predicate AllStand<U>(ps: seq<Placed<U>>, rs: seq<Placed<U>>)
  {
    |rs| == |ps| && forall i | 0 <= i < |ps| :: Stands(ps[i], rs[i])
  }

  lemma {:induction false} AllStandIn<U>(ps: seq<Placed<U>>, rs: seq<Placed<U>>)
    requires AllStand(ps, rs)
    ensures UsersIn(rs) == UsersIn(ps) && (Once(UsersIn(ps)) ==> PathsIn(rs) == PathsIn(ps))
  {
    if ps != [] {
      var init, p := ps[..|ps| - 1], ps[|ps| - 1];
      AllStandIn(init, rs[..|rs| - 1]);
      assert Stands(p, rs[|rs| - 1]);
      if Once(UsersIn(ps)) {
        OncePart(UsersIn(init), UsersOf(p));
      }
    }
  }

  lemma StandUniform<U>(ps: seq<Placed<U>>, rs: seq<Placed<U>>)
    requires AllStand(ps, rs) && Uniform(ps)
    ensures Uniform(rs)
  {
    forall i | 0 <= i < |ps| ensures rs[i].weight == ps[i].weight && SameKind(ps[i], rs[i]) {
      assert Stands(ps[i], rs[i]);
    }
  }

  /** The node with its children sorted and marked everywhere. */
  function Prepared<U>(p: Placed<U>): Placed<U>
  {
    if p.PlacedUser? then p
    else
      var kids := seq(|p.children|, i requires 0 <= i < |p.children| => Prepared(p.children[i]));
      p.(children := MarkedTies(SortedByWeight(kids), true))
  }

  /** Sort and mark the children everywhere. */
  method PrepareTree<U>(p: Placed<U>) returns (r: Placed<U>)
    ensures r == Prepared(p)
    decreases p
  {
    if p.PlacedUser? {
      return p;
    }
    var kids: seq<Placed<U>> := [];
    for i := 0 to |p.children|
      invariant |kids| == i && forall j | 0 <= j < i :: kids[j] == Prepared(p.children[j])
    {
      var kid := PrepareTree(p.children[i]);
      kids := kids + [kid];
    }
    var sorted := SortByWeight(kids);
    var marked := MarkTies(sorted, true);
    assert kids == seq(|p.children|, i requires 0 <= i < |p.children| => Prepared(p.children[i]));
    r := p.(children := marked);
  }

  /** The prepared tree stands in for the tree, and is sorted and marked. */
  lemma {:induction false} PreparedRight<U>(p: Placed<U>)
    requires Untied(p)
    ensures Stands(p, Prepared(p)) && Orderly(Prepared(p))
    decreases p
  {
    if p.PlacedBank? {
      var kids := seq(|p.children|, i requires 0 <= i < |p.children| => Prepared(p.children[i]));
      forall i | 0 <= i < |kids| ensures Stands(p.children[i], kids[i]) && Orderly(kids[i]) && !kids[i].tied {
        PreparedRight(p.children[i]);
      }
      SortedRearranges(kids);
      MarkedIsReflagged(SortedByWeight(kids), true);
      PreparedStands(p, kids, SortedByWeight(kids), MarkedTies(SortedByWeight(kids), true));
      PreparedOrderly(p, kids, SortedByWeight(kids), MarkedTies(SortedByWeight(kids), true));
    }
  }

  lemma ReflaggedUniform<U>(ps: seq<Placed<U>>, qs: seq<Placed<U>>)
    requires Reflagged(ps, qs) && Uniform(ps)
    ensures Uniform(qs)
  {
    if AllUsers(ps) {
      assert AllUsers(qs);
    } else {
      assert DistinctBanks(qs);
    }
  }

  lemma ReflaggedInside<U>(p: Placed<U>, tied: bool)
    ensures Orderly(p.(tied := tied)) == Orderly(p) && Simple(p.(tied := tied)) == Simple(p)
  {
  }

  /** The children are prepared: they stand in for the children there were. */
  lemma PreparedStands<U>(p: Placed<U>, kids: seq<Placed<U>>, sorted: seq<Placed<U>>, marked: seq<Placed<U>>)
    requires p.PlacedBank? && AllStand(p.children, kids) && Rearranged(kids, sorted) && Reflagged(sorted, marked)
    ensures Stands(p, p.(children := marked))
  {
    AllStandIn(p.children, kids);
    ReflaggedUsers(sorted, marked);
    if Simple(p) {
      StandUniform(p.children, kids);
      ReflaggedUniform(sorted, marked);
      forall i | 0 <= i < |marked| ensures Simple(marked[i]) {
        var j := SameMembers(kids, sorted, i);
        assert Stands(p.children[j], kids[j]);
        ReflaggedInside(sorted[i], marked[i].tied);
      }
    }
  }

  /** They are sorted and marked. */
  lemma PreparedOrderly<U>(p: Placed<U>, kids: seq<Placed<U>>, sorted: seq<Placed<U>>, marked: seq<Placed<U>>)
    requires p.PlacedBank? && multiset(kids) == multiset(sorted) && Reflagged(sorted, marked) && Heaviest(sorted)
    requires forall i | 0 <= i < |kids| :: Orderly(kids[i]) && !kids[i].tied
    requires forall i | 0 <= i < |sorted| :: marked[i].tied == (sorted[i].tied || TiesWithNext(sorted, i, true))
    ensures Orderly(p.(children := marked))
  {
    forall i | 0 <= i < |sorted| ensures Orderly(marked[i]) && !sorted[i].tied {
      var j := SameMembers(kids, sorted, i);
      ReflaggedInside(sorted[i], marked[i].tied);
    }
    assert forall i | 0 <= i < |sorted| :: marked[i].weight == sorted[i].weight && SameKind(marked[i], sorted[i]);
    assert Heaviest(marked);
    forall i | 0 <= i < |marked| ensures marked[i].tied == TiesWithNext(marked, i, true) {
      assert !sorted[i].tied && marked[i].weight == sorted[i].weight && SameKind(marked[i], sorted[i]);
      if i + 1 < |marked| {
        assert marked[i + 1].weight == sorted[i + 1].weight && SameKind(marked[i + 1], sorted[i + 1]);
      }
    }
  }

  // ----- tied banks -----

  /** Child i is a bank that ties with the bank after it. */
  predicate TiedBanks<U>(ps: seq<Placed<U>>, i: nat)
    requires i < |ps|
  {
    ps[i].PlacedBank? && i + 1 < |ps| && ps[i + 1].PlacedBank? && ps[i].weight == ps[i + 1].weight
  }

  lemma RearrangedLower<U>(ps: seq<Placed<U>>, s: seq<Placed<U>>, h: nat)
    requires multiset(ps) == multiset(s) && Lower(ps, h)
    ensures Lower(s, h)
  {
    forall i | 0 <= i < |s| ensures Height(s[i]) < h {
      var j := SameMembers(ps, s, i);
    }
  }

  lemma ReflaggedLower<U>(ps: seq<Placed<U>>, qs: seq<Placed<U>>, h: nat)
    requires Reflagged(ps, qs) && Lower(ps, h)
    ensures Lower(qs, h)
  {
    forall i | 0 <= i < |qs| ensures Height(qs[i]) < h {
      FlagIsNoMatter(ps[i], qs[i].tied);
    }
  }

  /** The children of tied banks, sorted together and marked. */
  function Merged<U>(virtual: seq<Placed<U>>): seq<Placed<U>>
  {
    MarkedTies(SortedByWeight(virtual), false)
  }

  method MergeTied<U>(virtual: seq<Placed<U>>) returns (merged: seq<Placed<U>>)
    ensures merged == Merged(virtual)
  {
    var sorted := SortByWeight(virtual);
    merged := MarkTies(sorted, false);
  }

  lemma MergedRight<U>(virtual: seq<Placed<U>>, h: nat)
    requires Lower(virtual, h)
    ensures UsersIn(Merged(virtual)) == UsersIn(virtual) && Lower(Merged(virtual), h)
  {
    var sorted := SortedByWeight(virtual);
    SortedRearranges(virtual);
    MarkedIsReflagged(sorted, false);
    ReflaggedUsers(sorted, Merged(virtual));
    RearrangedLower(virtual, sorted, h);
    ReflaggedLower(sorted, Merged(virtual), h);
  }

  /** Where the run of tied banks that node i belongs to ends. */
  function RunEnd<U>(ps: seq<Placed<U>>, i: nat): (e: nat)
    requires i < |ps|
    ensures i <= e < |ps|
    decreases |ps| - i
  {
    if TiedBanks(ps, i) then RunEnd(ps, i + 1) else i
  }

  lemma {:induction false} RunIsTied<U>(ps: seq<Placed<U>>, i: nat)
    requires i < |ps|
    ensures forall j | i <= j < RunEnd(ps, i) :: TiedBanks(ps, j)
    decreases |ps| - i
  {
    if TiedBanks(ps, i) {
      RunIsTied(ps, i + 1);
    }
  }

  /** The children of the banks from b up to e. */
  function ChildrenOf<U>(ps: seq<Placed<U>>, b: nat, e: nat): seq<Placed<U>>
    requires b <= e <= |ps|
  {
    if b == e then []
    else ChildrenOf(ps, b, e - 1) + if ps[e - 1].PlacedBank? then ps[e - 1].children else []
  }

  /** What a run from i to e becomes: tied banks are replaced by their children, merged. */
  function Replaced<U>(ps: seq<Placed<U>>, i: nat, e: nat, merge: seq<Placed<U>> -> seq<Placed<U>>): seq<Placed<U>>
    requires i <= e < |ps|
  {
    if i == e then [ps[i]] else merge(ChildrenOf(ps, i, e + 1))
  }

  /** The nodes from i on, with every run of tied banks replaced. */
  function TieAwareFrom<U>(ps: seq<Placed<U>>, i: nat, merge: seq<Placed<U>> -> seq<Placed<U>>): seq<Placed<U>>
    requires i <= |ps|
    decreases |ps| - i
  {
    if i == |ps| then [] else Replaced(ps, i, RunEnd(ps, i), merge) + TieAwareFrom(ps, RunEnd(ps, i) + 1, merge)
  }

  function TieAwareChildren<U>(ps: seq<Placed<U>>): seq<Placed<U>>
  {
    TieAwareFrom(ps, 0, Merged)
  }

  lemma LowerBoth<U>(ps: seq<Placed<U>>, qs: seq<Placed<U>>, h: nat)
    requires Lower(ps, h) && Lower(qs, h)
    ensures Lower(ps + qs, h)
  {
    forall i | 0 <= i < |ps + qs| ensures Height((ps + qs)[i]) < h {
      if i < |ps| {
        assert (ps + qs)[i] == ps[i];
      } else {
        assert (ps + qs)[i] == qs[i - |ps|];
      }
    }
  }

  lemma SliceNext<T>(s: seq<T>, b: nat, e: nat)
    requires b < e <= |s|
    ensures s[b..e] == s[b..e - 1] + [s[e - 1]]
  {
  }

  lemma BankForChildren<U>(kids: seq<Placed<U>>, ps: seq<Placed<U>>, p: Placed<U>)
    requires UsersIn(kids) == UsersIn(ps) && p.PlacedBank?
    ensures UsersIn(kids + p.children) == UsersIn(ps + [p])
  {
    UsersConcat(kids, p.children);
    SnocParts(ps, p);
  }

  lemma {:induction false} ChildrenUsers<U>(ps: seq<Placed<U>>, b: nat, e: nat)
    requires b <= e <= |ps| && forall i | b <= i < e :: ps[i].PlacedBank?
    ensures UsersIn(ChildrenOf(ps, b, e)) == UsersIn(ps[b..e])
  {
    if b < e {
      ChildrenUsers(ps, b, e - 1);
      BankForChildren(ChildrenOf(ps, b, e - 1), ps[b..e - 1], ps[e - 1]);
      SliceNext(ps, b, e);
    }
  }

  lemma {:induction false} ChildrenLower<U>(ps: seq<Placed<U>>, b: nat, e: nat, h: nat)
    requires b <= e <= |ps| && Lower(ps, h)
    ensures Lower(ChildrenOf(ps, b, e), h)
  {
    if b < e {
      ChildrenLower(ps, b, e - 1, h);
      if ps[e - 1].PlacedBank? {
        HeightIsOver(ps[e - 1].children);
        LowerBoth(ChildrenOf(ps, b, e - 1), ps[e - 1].children, h);
      }
    }
  }

  lemma RunIsBanks<U>(ps: seq<Placed<U>>, i: nat, e: nat)
    requires i < e < |ps| && forall j | i <= j < e :: TiedBanks(ps, j)
    ensures forall j | i <= j <= e :: ps[j].PlacedBank?
  {
    forall j | i <= j <= e ensures ps[j].PlacedBank? {
      if j > i {
        assert TiedBanks(ps, j - 1);
      } else {
        assert TiedBanks(ps, j);
      }
    }
  }

  lemma SingleRun<U>(ps: seq<Placed<U>>, i: nat, h: nat)
    requires i < |ps| && Lower(ps, h)
    ensures UsersIn([ps[i]]) == UsersIn(ps[i..i + 1]) && Lower([ps[i]], h)
  {
    assert ps[i..i + 1] == [ps[i]];
  }

  lemma RunUsers<U>(ps: seq<Placed<U>>, i: nat, e: nat)
    requires i < e < |ps| && forall j | i <= j < e :: TiedBanks(ps, j)
    ensures UsersIn(ChildrenOf(ps, i, e + 1)) == UsersIn(ps[i..e + 1])
  {
    RunIsBanks(ps, i, e);
    ChildrenUsers(ps, i, e + 1);
  }

  lemma MergedRun<U>(ps: seq<Placed<U>>, i: nat, e: nat, h: nat) returns (kids: seq<Placed<U>>)
    requires i < e < |ps| && Lower(ps, h) && forall j | i <= j < e :: TiedBanks(ps, j)
    ensures kids == ChildrenOf(ps, i, e + 1) && UsersIn(kids) == UsersIn(ps[i..e + 1]) && Lower(kids, h)
  {
    RunUsers(ps, i, e);
    ChildrenLower(ps, i, e + 1, h);
    kids := ChildrenOf(ps, i, e + 1);
  }

  lemma RunReplacement<U>(ps: seq<Placed<U>>, i: nat, e: nat, h: nat) returns (front: seq<Placed<U>>)
    requires i <= e < |ps| && Lower(ps, h) && forall j | i <= j < e :: TiedBanks(ps, j)
    ensures front == Replaced(ps, i, e, Merged) && UsersIn(front) == UsersIn(ps[i..e + 1]) && Lower(front, h)
  {
    if i == e {
      SingleRun(ps, i, h);
      front := [ps[i]];
    } else {
      var kids := MergedRun(ps, i, e, h);
      MergedRight(kids, h);
      front := Merged(kids);
    }
  }

  /** One more run: what it becomes, and the rest. */
  lemma RunAndRest<U>(ps: seq<Placed<U>>, i: nat, e: nat, front: seq<Placed<U>>, rest: seq<Placed<U>>)
    requires i <= e < |ps| && UsersIn(front) == UsersIn(ps[i..e + 1]) && UsersIn(rest) == UsersIn(ps[e + 1..])
    ensures UsersIn(front + rest) == UsersIn(ps[i..])
  {
    UsersConcat(front, rest);
    UsersConcat(ps[i..e + 1], ps[e + 1..]);
    assert ps[i..] == ps[i..e + 1] + ps[e + 1..];
  }

  lemma NextRun<U>(ps: seq<Placed<U>>, i: nat, h: nat) returns (e: nat, front: seq<Placed<U>>)
    requires i < |ps| && Lower(ps, h)
    ensures i <= e < |ps| && TieAwareFrom(ps, i, Merged) == front + TieAwareFrom(ps, e + 1, Merged)
    ensures UsersIn(front) == UsersIn(ps[i..e + 1]) && Lower(front, h)
  {
    e := RunEnd(ps, i);
    RunIsTied(ps, i);
    front := RunReplacement(ps, i, e, h);
  }

  lemma {:induction false} TieAwareFromRight<U>(ps: seq<Placed<U>>, i: nat, h: nat)
    requires i <= |ps| && Lower(ps, h)
    ensures UsersIn(TieAwareFrom(ps, i, Merged)) == UsersIn(ps[i..]) && Lower(TieAwareFrom(ps, i, Merged), h)
    decreases |ps| - i
  {
    if i < |ps| {
      var e, front := NextRun(ps, i, h);
      TieAwareFromRight(ps, e + 1, h);
      RunAndRest(ps, i, e, front, TieAwareFrom(ps, e + 1, Merged));
      LowerBoth(front, TieAwareFrom(ps, e + 1, Merged), h);
    }
  }

  /** Merging loses no user and adds none, and only goes down. */
  lemma TieAwareRight<U>(ps: seq<Placed<U>>, h: nat)
    requires Lower(ps, h)
    ensures UsersIn(TieAwareChildren(ps)) == UsersIn(ps) && Lower(TieAwareChildren(ps), h)
  {
    TieAwareFromRight(ps, 0, h);
    assert ps[0..] == ps;
  }

  lemma {:induction false} UntiedFrom<U>(ps: seq<Placed<U>>, i: nat, merge: seq<Placed<U>> -> seq<Placed<U>>)
    requires i <= |ps| && forall j | 0 <= j < |ps| :: !TiedBanks(ps, j)
    ensures TieAwareFrom(ps, i, merge) == ps[i..]
    decreases |ps| - i
  {
    if i < |ps| {
      assert !TiedBanks(ps, i) && RunEnd(ps, i) == i;
      UntiedFrom(ps, i + 1, merge);
      assert ps[i..] == [ps[i]] + ps[i + 1..];
    }
  }

  /** Without tied banks the children are as they are. */
  lemma TieAwareIfUntied<U>(ps: seq<Placed<U>>)
    requires forall i | 0 <= i < |ps| :: !TiedBanks(ps, i)
    ensures TieAwareChildren(ps) == ps
  {
    UntiedFrom(ps, 0, Merged);
    assert ps[0..] == ps;
  }

  /** A run of tied banks from b to i. */
  lemma {:induction false} RunFrom<U>(ps: seq<Placed<U>>, b: nat, i: nat)
    requires b <= i < |ps| && (forall j | b <= j < i :: TiedBanks(ps, j)) && !TiedBanks(ps, i)
    ensures RunEnd(ps, b) == i
    decreases i - b
  {
    if b < i {
      RunFrom(ps, b + 1, i);
    }
  }

  /** How far the merging has come: the list so far, and the run that began at b. */
  ghost predicate Merging<U>(children: seq<Placed<U>>, merge: seq<Placed<U>> -> seq<Placed<U>>, b: nat, i: nat,
                             tieAware: seq<Placed<U>>, inStride: bool, virtual: seq<Placed<U>>)
    requires b <= i <= |children|
  {
    && TieAwareFrom(children, 0, merge) == tieAware + TieAwareFrom(children, b, merge)
    && inStride == (b < i) && (forall j | b <= j < i :: TiedBanks(children, j))
    && (inStride ==> virtual == ChildrenOf(children, b, i))
  }

  /** The run goes on after child i. */
  lemma RunGoesOn<U>(children: seq<Placed<U>>, merge: seq<Placed<U>> -> seq<Placed<U>>, b: nat, i: nat,
                     tieAware: seq<Placed<U>>, inStride: bool, virtual: seq<Placed<U>>)
    requires b <= i < |children| && Merging(children, merge, b, i, tieAware, inStride, virtual)
             && TiedBanks(children, i)
    ensures Merging(children, merge, b, i + 1, tieAware, true,
                    (if inStride then virtual else []) + children[i].children)
  {
  }

  lemma RunStep<U>(ps: seq<Placed<U>>, merge: seq<Placed<U>> -> seq<Placed<U>>, b: nat, i: nat)
    requires b <= i < |ps| && (forall j | b <= j < i :: TiedBanks(ps, j)) && !TiedBanks(ps, i)
    ensures TieAwareFrom(ps, b, merge) == Replaced(ps, b, i, merge) + TieAwareFrom(ps, i + 1, merge)
  {
    RunFrom(ps, b, i);
  }

  lemma Chain<T>(all: seq<T>, a: seq<T>, x: seq<T>, more: seq<T>, rest: seq<T>)
    requires all == a + x && x == more + rest
    ensures all == (a + more) + rest
  {
  }

  /** A run that is open at child i takes in that child. */
  lemma OpenRunHasBank<U>(children: seq<Placed<U>>, merge: seq<Placed<U>> -> seq<Placed<U>>, b: nat, i: nat,
                          tieAware: seq<Placed<U>>, inStride: bool, virtual: seq<Placed<U>>)
    requires b <= i < |children| && Merging(children, merge, b, i, tieAware, inStride, virtual)
    ensures inStride ==> children[i].PlacedBank?
  {
    assert inStride ==> TiedBanks(children, i - 1);
  }

  /** The run ends with child i. */
  lemma RunEnds<U>(children: seq<Placed<U>>, merge: seq<Placed<U>> -> seq<Placed<U>>, b: nat, i: nat,
                   tieAware: seq<Placed<U>>, inStride: bool, virtual: seq<Placed<U>>, more: seq<Placed<U>>)
    requires b <= i < |children| && Merging(children, merge, b, i, tieAware, inStride, virtual)
    requires !TiedBanks(children, i) && (inStride ==> children[i].PlacedBank?)
    requires more == if inStride then merge(virtual + children[i].children) else [children[i]]
    ensures Merging(children, merge, i + 1, i + 1, tieAware + more, false, [])
  {
    RunStep(children, merge, b, i);
    assert more == Replaced(children, b, i, merge);
    Chain(TieAwareFrom(children, 0, merge), tieAware, TieAwareFrom(children, b, merge), more,
          TieAwareFrom(children, i + 1, merge));
  }

  lemma NothingMerged<U>(children: seq<Placed<U>>, merge: seq<Placed<U>> -> seq<Placed<U>>)
    ensures Merging(children, merge, 0, 0, [], false, [])
  {
    assert [] + TieAwareFrom(children, 0, merge) == TieAwareFrom(children, 0, merge);
  }

  /** The list so far, and whether the last bank taken ties with the next child;
      if so, `virtual` has the children of the run so far. */
  datatype Progress<U> = Progress(tieAware: seq<Placed<U>>, inStride: bool, virtual: seq<Placed<U>>)
  {
    ghost predicate At(children: seq<Placed<U>>, b: nat, i: nat)
    {
      b <= i <= |children| && Merging(children, Merged, b, i, tieAware, inStride, virtual)
    }
  }

  /** A child that does not tie with the next one ends the run, if there is one. */
  method EndRun<U>(children: seq<Placed<U>>, i: nat, s: Progress<U>, ghost b: nat) returns (s': Progress<U>)
    requires i < |children| && s.At(children, b, i) && !TiedBanks(children, i)
    ensures s'.At(children, i + 1, i + 1)
  {
    var more := [children[i]];
    OpenRunHasBank(children, Merged, b, i, s.tieAware, s.inStride, s.virtual);
    if s.inStride {
      more := MergeTied(s.virtual + children[i].children);
    }
    RunEnds(children, Merged, b, i, s.tieAware, s.inStride, s.virtual, more);
    s' := Progress(s.tieAware + more, false, []);
  }

  /** A bank that ties with the next one hands over its children. */
  method GoOn<U>(children: seq<Placed<U>>, i: nat, s: Progress<U>, ghost b: nat) returns (s': Progress<U>)
    requires i < |children| && s.At(children, b, i) && TiedBanks(children, i)
    ensures s'.At(children, b, i + 1)
  {
    RunGoesOn(children, Merged, b, i, s.tieAware, s.inStride, s.virtual);
    s' := Progress(s.tieAware, true, (if s.inStride then s.virtual else []) + children[i].children);
  }

  /** The children of a bank, with tied banks replaced by their children. */
  method BuildTieAwareChildren<U>(children: seq<Placed<U>>) returns (tieAware: seq<Placed<U>>)
    ensures tieAware == TieAwareChildren(children)
  {
    NothingMerged(children, Merged);
    var s := Progress([], false, []);
    ghost var b := 0;
    for i := 0 to |children|
      invariant s.At(children, b, i)
    {
      if TiedBanks(children, i) {
        s := GoOn(children, i, s, b);
      } else {
        s := EndRun(children, i, s, b);
        b := i + 1;
      }
    }
    NoRunIsOpen(children, Merged, b, s.tieAware, s.inStride, s.virtual);
    tieAware := s.tieAware;
  }

  /** The last child ties with none. */
  lemma NoRunIsOpen<U>(children: seq<Placed<U>>, merge: seq<Placed<U>> -> seq<Placed<U>>, b: nat,
                       tieAware: seq<Placed<U>>, inStride: bool, virtual: seq<Placed<U>>)
    requires b <= |children| && Merging(children, merge, b, |children|, tieAware, inStride, virtual)
    ensures tieAware == TieAwareFrom(children, 0, merge)
  {
    if b < |children| {
      RunStopsAtEnd(children, b);
    } else {
      assert tieAware + [] == tieAware;
    }
  }

  lemma RunStopsAtEnd<U>(ps: seq<Placed<U>>, b: nat)
    requires b < |ps|
    ensures exists j :: b <= j < |ps| && !TiedBanks(ps, j)
  {
    assert !TiedBanks(ps, |ps| - 1);
  }

  // ----- the traversal -----

  /** The visits of a plain depth-first traversal. */
  function Visits<U>(p: Placed<U>): seq<Visit<U>>
    decreases p, 0
  {
    if p.PlacedUser? then [Visit(p.user, p.tied)] else VisitsIn(p.children)
  }

  function VisitsIn<U>(ps: seq<Placed<U>>): seq<Visit<U>>
    decreases ps, 0
  {
    if ps == [] then [] else VisitsIn(ps[..|ps| - 1]) + Visits(ps[|ps| - 1])
  }

  /** The users of a log. */
  function LogUsers<U>(log: seq<Visit<U>>): multiset<U>
  {
    if log == [] then multiset{} else LogUsers(log[..|log| - 1]) + multiset{log[|log| - 1].user}
  }

  lemma {:induction false} LogConcat<U>(log: seq<Visit<U>>, more: seq<Visit<U>>)
    ensures LogUsers(log + more) == LogUsers(log) + LogUsers(more)
  {
    if more == [] {
      assert log + more == log;
    } else {
      assert (log + more)[..|log + more| - 1] == log + more[..|more| - 1];
      LogConcat(log, more[..|more| - 1]);
    }
  }

  lemma {:induction false} LogSize<U>(log: seq<Visit<U>>)
    ensures |LogUsers(log)| == |log|
  {
    if log != [] {
      LogSize(log[..|log| - 1]);
    }
  }

  /** No bank of the tree has two tied banks next to each other. */
  ghost predicate NoTiedBanks<U>(p: Placed<U>)
  {
    p.PlacedBank? ==>
      && (forall i | 0 <= i < |p.children| :: !TiedBanks(p.children, i))
      && forall i | 0 <= i < |p.children| :: NoTiedBanks(p.children[i])
  }

  /** The visits of the emulator's traversal, in which tied banks are merged. */
  function Tour<U>(p: Placed<U>): seq<Visit<U>>
    decreases Height(p), 1, 0
  {
    if p.PlacedUser? then [Visit(p.user, p.tied)]
    else
      HeightIsOver(p.children);
      TieAwareRight(p.children, Height(p));
      TourIn(TieAwareChildren(p.children), Height(p))
  }

  function TourIn<U>(ps: seq<Placed<U>>, h: nat): seq<Visit<U>>
    requires Lower(ps, h)
    decreases h, 0, |ps|
  {
    if ps == [] then [] else TourIn(ps[..|ps| - 1], h) + Tour(ps[|ps| - 1])
  }

  lemma {:induction false} TourUsers<U>(p: Placed<U>)
    ensures LogUsers(Tour(p)) == UsersOf(p)
    decreases Height(p), 1, 0
  {
    if p.PlacedUser? {
      assert [Visit(p.user, p.tied)][..0] == [];
    } else {
      HeightIsOver(p.children);
      TieAwareRight(p.children, Height(p));
      TourInUsers(TieAwareChildren(p.children), Height(p));
    }
  }

  lemma {:induction false} TourInUsers<U>(ps: seq<Placed<U>>, h: nat)
    requires Lower(ps, h)
    ensures LogUsers(TourIn(ps, h)) == UsersIn(ps)
    decreases h, 0, |ps|
  {
    if ps != [] {
      TourInUsers(ps[..|ps| - 1], h);
      TourUsers(ps[|ps| - 1]);
      LogConcat(TourIn(ps[..|ps| - 1], h), Tour(ps[|ps| - 1]));
    }
  }

  /** Each user is visited as often as it is there. */
  lemma TourSize<U>(p: Placed<U>)
    ensures |Tour(p)| == |UsersOf(p)|
  {
    TourUsers(p);
    LogSize(Tour(p));
  }

  /** Without tied banks it is the plain traversal. */
  lemma {:induction false} TourIfUntied<U>(p: Placed<U>)
    requires NoTiedBanks(p)
    ensures Tour(p) == Visits(p)
    decreases Height(p), 1, 0
  {
    if p.PlacedBank? {
      HeightIsOver(p.children);
      TieAwareRight(p.children, Height(p));
      TieAwareIfUntied(p.children);
      TourInIfUntied(p.children, Height(p));
    }
  }

  lemma {:induction false} TourInIfUntied<U>(ps: seq<Placed<U>>, h: nat)
    requires Lower(ps, h) && forall i | 0 <= i < |ps| :: NoTiedBanks(ps[i])
    ensures TourIn(ps, h) == VisitsIn(ps)
    decreases h, 0, |ps|
  {
    if ps != [] {
      TourInIfUntied(ps[..|ps| - 1], h);
      TourIfUntied(ps[|ps| - 1]);
    }
  }

  /** There is room for the users below the next one. */
  lemma {:induction false} RoomForNext<U>(ps: seq<Placed<U>>, i: nat, h: nat)
    requires i < |ps| && Lower(ps, h)
    ensures |TourIn(ps[..i], h)| + |Tour(ps[i])| <= |TourIn(ps, h)|
    ensures TourIn(ps[..i + 1], h) == TourIn(ps[..i], h) + Tour(ps[i])
    decreases |ps|
  {
    assert ps[..i + 1][..i] == ps[..i];
    if i < |ps| - 1 {
      var init := ps[..|ps| - 1];
      RoomForNext(init, i, h);
      assert init[..i] == ps[..i];
    } else {
      assert ps[..i + 1] == ps;
    }
  }

  lemma VisitsSnoc<U>(ps: seq<Placed<U>>, p: Placed<U>)
    ensures VisitsIn(ps + [p]) == VisitsIn(ps) + Visits(p)
  {
    assert (ps + [p])[..|ps|] == ps;
  }

  lemma Regroup<T>(a: seq<T>, b: seq<T>, c: seq<T>)
    ensures (a + b) + c == a + (b + c)
  {
  }

  class Calculator<U(==)> {
    var currentRank: int
    var strideSize: int
    var totalUsers: nat
    var users: seq<U>
    var fairshares: seq<real>
    ghost var log: seq<Visit<U>>

    constructor ()
      ensures totalUsers == 0 && users == [] && log == [] && fairshares == []
    {
      currentRank, strideSize, totalUsers, users, fairshares, log := 0, 0, 0, [], [], [];
    }

    /** Rank and stride are in step with the visits made. */
    ghost predicate Valid()
      reads this
    {
      && InStep(log, totalUsers, currentRank, strideSize, fairshares)
      && |users| == |log| && forall i | 0 <= i < |log| :: users[i] == log[i].user
    }

    /** A user gets its fairshare, and rank and stride move on. */
    method VisitUser(user: U, tied: bool)
      requires Valid() && |log| < totalUsers
      modifies `currentRank, `strideSize, `users, `fairshares, `log
      ensures Valid() && log == old(log) + [Visit(user, tied)]
    {
      StaysInStep(log, totalUsers, currentRank, strideSize, fairshares, Visit(user, tied));
      var fairshare := currentRank as real / totalUsers as real;
      if tied {
        strideSize := strideSize + 1;
      } else {
        currentRank := currentRank - 1 - strideSize;
        strideSize := 0;
      }
      users, fairshares, log := users + [user], fairshares + [fairshare], log + [Visit(user, tied)];
    }

    /** Visit everybody below a node. */
    method Traverse(p: Placed<U>)
      requires Valid() && |log| + |Tour(p)| <= totalUsers
      modifies `currentRank, `strideSize, `users, `fairshares, `log
      ensures Valid() && log == old(log) + Tour(p)
      decreases Height(p), 1
    {
      if p.PlacedUser? {
        VisitUser(p.user, p.tied);
        return;
      }
      var tieAware := BuildTieAwareChildren(p.children);
      HeightIsOver(p.children);
      TieAwareRight(p.children, Height(p));
      TraverseAll(tieAware, Height(p));
    }

    method TraverseAll(ps: seq<Placed<U>>, ghost h: nat)
      requires Lower(ps, h) && Valid() && |log| + |TourIn(ps, h)| <= totalUsers
      modifies `currentRank, `strideSize, `users, `fairshares, `log
      ensures Valid() && log == old(log) + TourIn(ps, h)
      decreases h, 0
    {
      for i := 0 to |ps|
        invariant Valid() && log == old(log) + TourIn(ps[..i], h)
      {
        RoomForNext(ps, i, h);
        Traverse(ps[i]);
        Regroup(old(log), TourIn(ps[..i], h), Tour(ps[i]));
      }
      assert ps[..|ps|] == ps;
    }

    /** Count the users, weigh and prepare the tree, and traverse it: every user is
        visited once, and its fairshare is its place in the traversal, counted in
        groups of tied users; it is above zero and up to one.  In a simple tree it
        is the fairshare of the user's weight path. */
    method Calculate(t: Tree<U>)
      requires users == [] && log == [] && fairshares == []
      modifies this
      ensures |fairshares| == |users| && multiset(users) == UsersOf(Weighed(t, 0.0))
      ensures Emulates(Emulated(t), users, fairshares)
      ensures forall i | 0 <= i < |fairshares| :: 0.0 < fairshares[i] <= 1.0
      ensures var p := Weighed(t, 0.0); Simple(p) && Once(UsersOf(p)) ==>
                forall i | 0 <= i < |users| ::
                  users[i] in PathsOf(p) && fairshares[i] == FairShare(PathsOf(p), users[i])
    {
      var count := CountUsers(t);
      Ready(t);
      if count == 0 {
        return;
      }
      var prepared := PrepareTree(Weighed(t, 0.0));
      TraverseFromTop(prepared, count);
      Results(Weighed(t, 0.0), prepared, log, users, totalUsers, currentRank, strideSize, fairshares);
    }

    /** The rank starts at the number of users. */
    method TraverseFromTop(p: Placed<U>, count: nat)
      requires users == [] && log == [] && fairshares == [] && |Tour(p)| == count
      modifies this
      ensures Valid() && |log| == totalUsers == count && log == Tour(p)
    {
      currentRank, strideSize, totalUsers := count, 0, count;
      Traverse(p);
    }
  }

  /** The visits of the emulator on a tree. */
  function Emulated<U>(t: Tree<U>): seq<Visit<U>>
  {
    Tour(Prepared(Weighed(t, 0.0)))
  }

  /** Users and fairshares are those of the log: the shares of the places where tie
      groups begin. */
  ghost predicate Emulates<U>(log: seq<Visit<U>>, users: seq<U>, shares: seq<real>)
  {
    && |users| == |log| == |shares|
    && forall i | 0 <= i < |log| :: users[i] == log[i].user && shares[i] == Share(|log| - GroupStart(log, i), |log|)
  }

  // ----- the plain traversal of a simple tree is a walk -----

  function EntryOf<U>(p: Placed<U>): (e: Entry<U>)
    ensures e.weight == p.weight && e.Paths() == PathsOf(p)
  {
    if p.PlacedUser? then UserEntry(p.weight, p.user, p.tied) else BankEntry(p.weight, PathsOf(p))
  }

  function EntriesOf<U>(ps: seq<Placed<U>>): (es: seq<Entry<U>>)
    ensures |es| == |ps| && forall i | 0 <= i < |ps| :: es[i] == EntryOf(ps[i])
  {
    seq(|ps|, i requires 0 <= i < |ps| => EntryOf(ps[i]))
  }

  lemma {:induction false} SomeChildHas<U>(ps: seq<Placed<U>>, u: U) returns (i: nat)
    requires u in PathsIn(ps)
    ensures i < |ps| && u in PathsOf(ps[i])
  {
    var init := ps[..|ps| - 1];
    if u in PathsOf(ps[|ps| - 1]) {
      i := |ps| - 1;
    } else {
      i := SomeChildHas(init, u);
    }
  }

  /** Without repetition a child's users are found with the child's weight first. */
  lemma {:induction false} ChildHasPath<U>(ps: seq<Placed<U>>, i: nat, u: U)
    requires i < |ps| && u in PathsOf(ps[i]) && Once(UsersIn(ps))
    ensures u in PathsIn(ps) && PathsIn(ps)[u] == [ps[i].weight] + PathsOf(ps[i])[u]
  {
    var init, p := ps[..|ps| - 1], ps[|ps| - 1];
    if i < |ps| - 1 {
      OncePart(UsersIn(init), UsersOf(p));
      ChildHasPath(init, i, u);
      UserKnownIn(init, u);
      UserKnown(p, u);
      Apart(UsersIn(init), UsersOf(p), u);
    }
  }

  lemma {:induction false} OneChildOnly<U>(ps: seq<Placed<U>>, i: nat, j: nat, u: U)
    requires i < j < |ps| && u in PathsOf(ps[i]) && Once(UsersIn(ps))
    ensures u !in PathsOf(ps[j])
  {
    var init, p := ps[..|ps| - 1], ps[|ps| - 1];
    OncePart(UsersIn(init), UsersOf(p));
    if j < |ps| - 1 {
      OneChildOnly(init, i, j, u);
    } else {
      ChildHasPath(init, i, u);
      UserKnownIn(init, u);
      UserKnown(p, u);
      Apart(UsersIn(init), UsersOf(p), u);
    }
  }

  lemma {:induction false} PathsAreLong<U>(ps: seq<Placed<U>>, u: U)
    requires u in PathsIn(ps)
    ensures PathsIn(ps)[u] != []
  {
    if u !in PathsFrom(ps[|ps| - 1]) {
      PathsAreLong(ps[..|ps| - 1], u);
    }
  }

  lemma ChildrenCover<U>(ps: seq<Placed<U>>)
    requires Once(UsersIn(ps))
    ensures Covers(PathsIn(ps), EntriesOf(ps))
  {
    var es := EntriesOf(ps);
    forall u | u in PathsIn(ps) ensures exists i :: 0 <= i < |es| && u in es[i].Paths() {
      var i := SomeChildHas(ps, u);
      assert u in es[i].Paths();
    }
    forall i, u | 0 <= i < |es| && u in es[i].Paths()
      ensures u in PathsIn(ps) && PathsIn(ps)[u] == [es[i].weight] + es[i].Paths()[u]
    {
      ChildHasPath(ps, i, u);
    }
    forall i, u | 0 <= i < |es| && es[i].BankEntry? && u in es[i].users ensures es[i].users[u] != [] {
      PathsAreLong(ps[i].children, u);
    }
    forall i, j, u | 0 <= i < j < |es| && u in es[i].Paths() ensures u !in es[j].Paths() {
      OneChildOnly(ps, i, j, u);
    }
  }

  lemma ChildrenTieAware<U>(ps: seq<Placed<U>>)
    requires Once(UsersIn(ps)) && Uniform(ps) && Heaviest(ps) && Marked(ps)
    ensures TieAware(PathsIn(ps), EntriesOf(ps))
  {
    ChildrenCover(ps);
    var es := EntriesOf(ps);
    forall i, j | 0 <= i < j < |es|
      ensures es[i].weight > es[j].weight || (es[i].weight == es[j].weight && es[i].UserEntry?)
    {
      assert ps[i].weight >= ps[j].weight;
    }
    forall i | 0 <= i < |es| && es[i].UserEntry?
      ensures es[i].tied <==> exists j :: i < j < |es| && es[j].UserEntry? && es[j].weight == es[i].weight
    {
      assert ps[i].PlacedUser? && AllUsers(ps) && es[i].tied == TiesWithNext(ps, i, true);
      if es[i].tied {
        assert es[i + 1].UserEntry? && es[i + 1].weight == es[i].weight;
      }
    }
  }

  lemma {:induction false} FirstChildrenWalk<U>(ps: seq<Placed<U>>, k: nat)
    requires k <= |ps| && TieAware(PathsIn(ps), EntriesOf(ps))
    requires forall i | 0 <= i < |ps| :: EntryWalk(EntryOf(ps[i]), Visits(ps[i]))
    ensures WalkSoFar(PathsIn(ps), EntriesOf(ps), k, VisitsIn(ps[..k]))
  {
    if k == 0 {
      assert VisitsIn(ps[..0]) == [];
    } else {
      FirstChildrenWalk(ps, k - 1);
      WalkOneMore(PathsIn(ps), EntriesOf(ps), k - 1, VisitsIn(ps[..k - 1]), Visits(ps[k - 1]));
      assert ps[..k] == ps[..k - 1] + [ps[k - 1]];
      VisitsSnoc(ps[..k - 1], ps[k - 1]);
    }
  }

  lemma {:induction false} ChildOnce<U>(ps: seq<Placed<U>>, i: nat)
    requires i < |ps| && Once(UsersIn(ps))
    ensures Once(UsersOf(ps[i]))
  {
    var init, p := ps[..|ps| - 1], ps[|ps| - 1];
    OncePart(UsersIn(init), UsersOf(p));
    if i < |ps| - 1 {
      ChildOnce(init, i);
    }
  }

  /** A prepared simple tree is walked by a plain depth-first traversal. */
  lemma {:induction false} PlainWalk<U>(p: Placed<U>)
    requires p.PlacedBank? && Orderly(p) && Simple(p) && Once(UsersOf(p))
    ensures IsWalk(PathsOf(p), Visits(p))
    decreases p
  {
    var ps := p.children;
    forall i | 0 <= i < |ps| ensures EntryWalk(EntryOf(ps[i]), Visits(ps[i])) {
      if ps[i].PlacedBank? {
        ChildOnce(ps, i);
        PlainWalk(ps[i]);
      }
    }
    ChildrenTieAware(ps);
    FirstChildrenWalk(ps, |ps|);
    assert ps[..|ps|] == ps;
    WalkDone(PathsIn(ps), EntriesOf(ps), VisitsIn(ps));
  }

  /** Nor are there tied banks in it. */
  lemma {:induction false} SimpleHasNoTiedBanks<U>(p: Placed<U>)
    requires Simple(p)
    ensures NoTiedBanks(p)
    decreases p
  {
    if p.PlacedBank? {
      forall i | 0 <= i < |p.children| ensures !TiedBanks(p.children, i) && NoTiedBanks(p.children[i]) {
        SimpleHasNoTiedBanks(p.children[i]);
      }
    }
  }

  // ----- the calculation as a whole -----

  function CountUsers<U>(t: Tree<U>): nat
    decreases t, 0
  {
    if t.User? then 1 else CountIn(t.children)
  }

  function CountIn<U>(ts: seq<Tree<U>>): nat
    decreases ts, 0
  {
    if ts == [] then 0 else CountIn(ts[..|ts| - 1]) + CountUsers(ts[|ts| - 1])
  }

  lemma {:induction false} CountIsSize<U>(t: Tree<U>, weight: real)
    ensures |UsersOf(Weighed(t, weight))| == CountUsers(t)
    decreases t, 1
  {
    if t.Bank? {
      var ps := Weighed(t, weight).children;
      assert forall i | 0 <= i < |ps| :: ps[i] == Weighed(t.children[i], ps[i].weight);
      CountIsSizeIn(t.children, ps);
    }
  }

  lemma {:induction false} CountIsSizeIn<U>(ts: seq<Tree<U>>, ps: seq<Placed<U>>)
    requires |ps| == |ts| && forall i | 0 <= i < |ts| :: ps[i] == Weighed(ts[i], ps[i].weight)
    ensures |UsersIn(ps)| == CountIn(ts)
    decreases ts, 0
  {
    if ts != [] {
      CountIsSizeIn(ts[..|ts| - 1], ps[..|ps| - 1]);
      CountIsSize(ts[|ts| - 1], ps[|ps| - 1].weight);
    }
  }

  lemma {:induction false} WeighedIsUntied<U>(t: Tree<U>, weight: real)
    ensures Untied(Weighed(t, weight)) && !Weighed(t, weight).tied
    decreases t
  {
    if t.Bank? {
      var ps := Weighed(t, weight).children;
      forall i | 0 <= i < |ps| ensures !ps[i].tied && Untied(ps[i]) {
        WeighedIsUntied(t.children[i], ps[i].weight);
      }
    }
  }

  lemma {:induction false} LogIsUsers<U>(log: seq<Visit<U>>, users: seq<U>)
    requires |users| == |log| && forall i | 0 <= i < |log| :: users[i] == log[i].user
    ensures multiset(users) == LogUsers(log)
  {
    if log != [] {
      LogIsUsers(log[..|log| - 1], users[..|users| - 1]);
      assert users == users[..|users| - 1] + [users[|users| - 1]];
    }
  }

  lemma SharesInRange<U>(log: seq<Visit<U>>, n: nat, rank: int, stride: int, shares: seq<real>)
    requires InStep(log, n, rank, stride, shares) && 0 < n
    ensures forall i | 0 <= i < |shares| :: 0.0 < shares[i] <= 1.0
  {
    forall i | 0 <= i < |shares| ensures 0.0 < shares[i] <= 1.0 {
      ShareInRange(n - GroupStart(log, i), n);
    }
  }

  lemma ShareInRange(rank: nat, n: nat)
    requires 0 < rank <= n
    ensures 0.0 < Share(rank, n) <= 1.0
  {
    DivideOrder(0, rank, n);
    if rank < n {
      DivideOrder(rank, n, n);
    }
  }

  /** What a plain traversal of a simple tree leaves. */
  lemma SimpleResults<U>(p: Placed<U>, r: Placed<U>, log: seq<Visit<U>>, n: nat, rank: int, stride: int,
                         shares: seq<real>)
    requires Simple(p) && Once(UsersOf(p)) && Stands(p, r) && Orderly(r) && !p.tied
    requires log == Visits(r) && InStep(log, n, rank, stride, shares) && |log| == n
    ensures forall i | 0 <= i < |log| :: log[i].user in PathsOf(p) && shares[i] == FairShare(PathsOf(p), log[i].user)
  {
    if r.PlacedBank? {
      PlainWalk(r);
    } else {
      SingleWalk(r.user);
    }
    WalkEnds(PathsOf(p), log);
    forall i | 0 <= i < |log| ensures log[i].user in PathsOf(p) && shares[i] == FairShare(PathsOf(p), log[i].user) {
      WalkShares(PathsOf(p), log, rank, stride, shares, i);
    }
  }

  /** What a traversal of the prepared tree leaves. */
  lemma Results<U>(p: Placed<U>, r: Placed<U>, log: seq<Visit<U>>, users: seq<U>, n: nat, rank: int, stride: int,
                   shares: seq<real>)
    requires Stands(p, r) && Orderly(r) && !p.tied && InStep(log, n, rank, stride, shares) && 0 < |log| == n
    requires |users| == |log| && forall i | 0 <= i < |log| :: users[i] == log[i].user
    requires LogUsers(log) == UsersOf(r) && (NoTiedBanks(r) ==> log == Visits(r))
    ensures |shares| == |users| && multiset(users) == UsersOf(p) && Emulates(log, users, shares)
    ensures forall i | 0 <= i < |shares| :: 0.0 < shares[i] <= 1.0
    ensures Simple(p) && Once(UsersOf(p)) ==>
              forall i | 0 <= i < |users| :: users[i] in PathsOf(p) && shares[i] == FairShare(PathsOf(p), users[i])
  {
    LogIsUsers(log, users);
    SharesInRange(log, n, rank, stride, shares);
    if Simple(p) && Once(UsersOf(p)) {
      SimpleHasNoTiedBanks(r);
      SimpleResults(p, r, log, n, rank, stride, shares);
    }
  }

  /** The tree before the traversal. */
  lemma Ready<U>(t: Tree<U>)
    ensures var p, r := Weighed(t, 0.0), Prepared(Weighed(t, 0.0));
            && Stands(p, r) && Orderly(r) && !p.tied
            && LogUsers(Tour(r)) == UsersOf(r) && (NoTiedBanks(r) ==> Tour(r) == Visits(r))
            && |Tour(r)| == CountUsers(t) && (CountUsers(t) == 0 ==> multiset([]) == UsersOf(p))
  {
    CountIsSize(t, 0.0);
    WeighedIsUntied(t, 0.0);
    PreparedRight(Weighed(t, 0.0));
    TourRight(Prepared(Weighed(t, 0.0)));
  }

  lemma TourRight<U>(r: Placed<U>)
    ensures LogUsers(Tour(r)) == UsersOf(r) && |Tour(r)| == |UsersOf(r)| && (NoTiedBanks(r) ==> Tour(r) == Visits(r))
  {
    TourUsers(r);
    TourSize(r);
    if NoTiedBanks(r) {
      TourIfUntied(r);
    }
  }

  // ----- when the emulator is right -----

  lemma {:induction false} LogMember<U>(log: seq<Visit<U>>, u: U)
    ensures u in LogUsers(log) <==> u in Visited(log, |log|)
  {
    if log != [] {
      LogMember(log[..|log| - 1], u);
      assert Visited(log, |log|) == Visited(log[..|log| - 1], |log| - 1) + {log[|log| - 1].user};
    }
  }

  lemma {:induction false} NobodyTwice<U>(log: seq<Visit<U>>, i: nat)
    requires Once(LogUsers(log)) && i < |log|
    ensures log[i].user !in Visited(log, i)
  {
    var init, u := log[..|log| - 1], log[|log| - 1].user;
    OncePart(LogUsers(init), multiset{u});
    if i < |log| - 1 {
      NobodyTwice(init, i);
      assert Visited(log, i) == Visited(init, i);
    } else {
      LogMember(init, u);
      assert Visited(log, i) == Visited(init, i);
      if u in LogUsers(init) {
        Apart(LogUsers(init), multiset{u}, u);
      }
    }
  }

  lemma LogVisitsEach<U>(p: Placed<U>, log: seq<Visit<U>>)
    requires Once(UsersOf(p)) && LogUsers(log) == UsersOf(p)
    ensures VisitsEach(PathsOf(p), log) && |log| == |PathsOf(p)|
  {
    forall i | 0 <= i < |log| ensures log[i].user !in Visited(log, i) {
      NobodyTwice(log, i);
    }
    forall u | u in Visited(log, |log|) ensures u in PathsOf(p) {
      LogMember(log, u);
      UserKnown(p, u);
    }
    forall u | u in PathsOf(p) ensures u in Visited(log, |log|) {
      LogMember(log, u);
      UserKnown(p, u);
    }
    assert Visited(log, |log|) == PathsOf(p).Keys;
    VisitedSize(log, |log|);
  }

  /** Users with their fairshares, as their weight paths say. */
  ghost predicate Fair<U>(paths: map<U, Path>, users: seq<U>, shares: seq<real>)
    requires |shares| == |users|
  {
    forall i | 0 <= i < |users| :: users[i] in paths && shares[i] == FairShare(paths, users[i])
  }

  lemma FairIfRanked<U>(paths: map<U, Path>, log: seq<Visit<U>>, users: seq<U>, shares: seq<real>)
    requires Emulates(log, users, shares) && |log| == |paths|
    ensures Fair(paths, users, shares) <==> RankedRightly(paths, log)
  {
    forall i | 0 <= i < |log| && log[i].user in paths
      ensures shares[i] == FairShare(paths, users[i]) <==> |paths| - GroupStart(log, i) == Rank(paths, log[i].user)
    {
      SameShare(|log| - GroupStart(log, i), Rank(paths, log[i].user), |log|);
    }
  }

  lemma SameShare(a: nat, b: nat, n: nat)
    requires 0 < n
    ensures Share(a, n) == Share(b, n) <==> a == b
  {
    if a < b {
      DivideOrder(a, b, n);
    } else if b < a {
      DivideOrder(b, a, n);
    }
  }

  /** On any tree the emulator gives all users the fairshares of their weight paths
      exactly if its traversal, apart from the last flag, visits best path first
      with exact flags. */
  lemma FairExactly<U>(t: Tree<U>, users: seq<U>, shares: seq<real>)
    requires Once(UsersOf(Weighed(t, 0.0))) && Emulates(Emulated(t), users, shares)
    ensures var paths := PathsOf(Weighed(t, 0.0));
            Fair(paths, users, shares) <==> IsWalk(paths, LastDown(Emulated(t)))
  {
    var p := Weighed(t, 0.0);
    Ready(t);
    LogVisitsEach(p, Emulated(t));
    FairIfRanked(PathsOf(p), Emulated(t), users, shares);
    RankedExactlyIfWalk(PathsOf(p), Emulated(t));
  }
}
