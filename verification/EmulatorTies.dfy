/// Trees on which the emulator and the walk disagree.

module EmulatorTies {
  import opened WeightPath
  import opened WeightedTree
  import opened Emulator

  // ----- small trees -----

  lemma OneSibling()
    ensures WeightOf(1, 1, 1, 1) == 1.0
  {
  }

  lemma TwoSiblings()
    ensures WeightOf(1, 1, 2, 2) == 1.0
  {
  }

  predicate Even(t: Tree<nat>)
  {
    t.shares == 1 && t.usage == 1
  }

  lemma SumsOfOne(c: Tree<nat>)
    requires Even(c)
    ensures SharesOf([c]) == 1 && UsageOf([c]) == 1
  {
    assert [c][..0] == [];
  }

  lemma SumsOfTwo(c: Tree<nat>, d: Tree<nat>)
    requires Even(c) && Even(d)
    ensures SharesOf([c, d]) == 2 && UsageOf([c, d]) == 2
  {
    assert [c, d][..1] == [c];
    SumsOfOne(c);
  }

  lemma WeighedOne(c: Tree<nat>, weight: real)
    requires Even(c)
    ensures Weighed(Bank(1, 1, [c]), weight) == PlacedBank(weight, false, [Weighed(c, 1.0)])
  {
    SumsOfOne(c);
    OneSibling();
    assert Weighed(Bank(1, 1, [c]), weight).children == [Weighed(c, 1.0)];
  }

  lemma WeighedTwo(c: Tree<nat>, d: Tree<nat>, weight: real)
    requires Even(c) && Even(d)
    ensures Weighed(Bank(1, 1, [c, d]), weight) == PlacedBank(weight, false, [Weighed(c, 1.0), Weighed(d, 1.0)])
  {
    SumsOfTwo(c, d);
    TwoSiblings();
    assert Weighed(Bank(1, 1, [c, d]), weight).children == [Weighed(c, 1.0), Weighed(d, 1.0)];
  }

  lemma SortedOne(p: Placed<nat>)
    ensures SortedByWeight([p]) == [p]
  {
    assert [p][..0] == [];
    assert Inserted([], p) == [p];
  }

  lemma SortedTwo(p: Placed<nat>, q: Placed<nat>)
    requires p.weight == q.weight
    ensures SortedByWeight([p, q]) == [p, q]
  {
    SortedOne(p);
    assert [p, q][..1] == [p];
    assert Inserted([p], q) == [p, q];
  }

  lemma MarkedOne(p: Placed<nat>, kinds: bool)
    ensures MarkedTies([p], kinds) == [p]
  {
    assert MarkedTies([p], kinds)[0] == p;
  }

  lemma MarkedTwo(p: Placed<nat>, q: Placed<nat>, kinds: bool)
    requires p.weight == q.weight && (kinds ==> SameKind(p, q))
    ensures MarkedTies([p, q], kinds) == [p.(tied := true), q]
  {
    assert MarkedTies([p, q], kinds)[0] == p.(tied := true) && MarkedTies([p, q], kinds)[1] == q;
  }

  lemma MarkedApart(p: Placed<nat>, q: Placed<nat>)
    requires !SameKind(p, q)
    ensures MarkedTies([p, q], true) == [p, q]
  {
    assert MarkedTies([p, q], true)[0] == p && MarkedTies([p, q], true)[1] == q;
  }

  lemma PreparedOne(c: Placed<nat>, weight: real)
    ensures Prepared(PlacedBank(weight, false, [c])) == PlacedBank(weight, false, [Prepared(c)])
  {
    SortedOne(Prepared(c));
    MarkedOne(Prepared(c), true);
    assert seq(1, i requires 0 <= i < 1 => Prepared([c][i])) == [Prepared(c)];
  }

  /** The children of a prepared bank with two. */
  lemma PreparedTwo(c: Placed<nat>, d: Placed<nat>, weight: real)
    ensures Prepared(PlacedBank(weight, false, [c, d])).children
         == MarkedTies(SortedByWeight([Prepared(c), Prepared(d)]), true)
  {
    assert seq(2, i requires 0 <= i < 2 => Prepared([c, d][i])) == [Prepared(c), Prepared(d)];
  }

  lemma TourOfOne(c: Placed<nat>, weight: real, tied: bool)
    ensures Tour(PlacedBank(weight, tied, [c])) == Tour(c)
  {
    var p := PlacedBank(weight, tied, [c]);
    HeightIsOver([c]);
    TieAwareRight([c], Height(p));
    TieAwareIfUntied([c]);
    TourOfList([], c, Height(p));
    assert [] + [c] == [c];
  }

  lemma TourOfList(ps: seq<Placed<nat>>, c: Placed<nat>, h: nat)
    requires Lower(ps + [c], h) && Lower(ps, h)
    ensures TourIn(ps + [c], h) == TourIn(ps, h) + Tour(c)
  {
    assert (ps + [c])[..|ps|] == ps;
  }

  lemma TourOfOnly(c: Placed<nat>, h: nat)
    requires Lower([c], h)
    ensures TourIn([c], h) == Tour(c)
  {
    assert [] + [c] == [c];
    TourOfList([], c, h);
  }

  lemma TourOfTwo(c: Placed<nat>, d: Placed<nat>, h: nat)
    requires Lower([c, d], h) && Lower([c], h)
    ensures TourIn([c, d], h) == Tour(c) + Tour(d)
  {
    assert [c] + [d] == [c, d];
    TourOfList([c], d, h);
    TourOfOnly(c, h);
  }

  lemma TourOfBank(ps: seq<Placed<nat>>, c: Placed<nat>, d: Placed<nat>)
    requires TieAwareChildren(ps) == [c, d]
    ensures Tour(PlacedBank(0.0, false, ps)) == Tour(c) + Tour(d)
  {
    var h := Height(PlacedBank(0.0, false, ps));
    HeightIsOver(ps);
    TieAwareRight(ps, h);
    assert [c, d][0] == c;
    TourOfTwo(c, d, h);
  }

  // ----- tied banks over tied banks -----

  /** A bank with one bank with one user. */
  function Deep(user: nat): Tree<nat>
  {
    Bank(1, 1, [Bank(1, 1, [User(user, 1, 1)])])
  }

  const TWO_DEEP: Tree<nat> := Bank(1, 1, [Deep(0), Deep(1)])

  function Inner(user: nat, tied: bool): Placed<nat>
  {
    PlacedBank(1.0, tied, [PlacedUser(1.0, false, user)])
  }

  function Outer(user: nat, tied: bool): Placed<nat>
  {
    PlacedBank(1.0, tied, [Inner(user, false)])
  }

  lemma DeepIsOuter(user: nat)
    ensures Weighed(Deep(user), 1.0) == Outer(user, false) && Prepared(Outer(user, false)) == Outer(user, false)
  {
    WeighedOne(Bank(1, 1, [User(user, 1, 1)]), 1.0);
    WeighedOne(User(user, 1, 1), 1.0);
    PreparedOne(Inner(user, false), 1.0);
    PreparedOne(PlacedUser(1.0, false, user), 1.0);
  }

  lemma TwoDeepPrepared()
    ensures Weighed(TWO_DEEP, 0.0) == PlacedBank(0.0, false, [Outer(0, false), Outer(1, false)])
    ensures Prepared(Weighed(TWO_DEEP, 0.0)) == PlacedBank(0.0, false, [Outer(0, true), Outer(1, false)])
  {
    WeighedTwo(Deep(0), Deep(1), 0.0);
    DeepIsOuter(0);
    DeepIsOuter(1);
    PreparedTwo(Outer(0, false), Outer(1, false), 0.0);
    SortedTwo(Outer(0, false), Outer(1, false));
    MarkedTwo(Outer(0, false), Outer(1, false), true);
  }

  /** The two banks are merged; their children tie but are visited one by one. */
  lemma TwoDeepMerged()
    ensures TieAwareChildren([Outer(0, true), Outer(1, false)]) == [Inner(0, true), Inner(1, false)]
  {
    var ps := [Outer(0, true), Outer(1, false)];
    assert TiedBanks(ps, 0) && !TiedBanks(ps, 1);
    RunFrom(ps, 0, 1);
    ChildrenOfTwo(ps);
    SortedTwo(Inner(0, false), Inner(1, false));
    MarkedTwo(Inner(0, false), Inner(1, false), false);
    assert Replaced(ps, 0, 1, Merged) == [Inner(0, true), Inner(1, false)];
    assert TieAwareFrom(ps, 2, Merged) == [];
  }

  lemma ChildrenOfTwo(ps: seq<Placed<nat>>)
    requires ps == [Outer(0, true), Outer(1, false)]
    ensures ChildrenOf(ps, 0, 2) == [Inner(0, false), Inner(1, false)]
  {
    assert ChildrenOf(ps, 0, 0) == [];
    assert ChildrenOf(ps, 0, 1) == [Inner(0, false)];
  }

  lemma InnerTour(user: nat, tied: bool)
    ensures Tour(Inner(user, tied)) == [Visit(user, false)]
  {
    TourOfOne(PlacedUser(1.0, false, user), 1.0, tied);
  }

  lemma TwoDeepTour()
    ensures Tour(PlacedBank(0.0, false, [Outer(0, true), Outer(1, false)])) == [Visit(0, false), Visit(1, false)]
  {
    TwoDeepMerged();
    TourOfBank([Outer(0, true), Outer(1, false)], Inner(0, true), Inner(1, false));
    InnerTour(0, true);
    InnerTour(1, false);
  }

  lemma TwoDeepEmulated()
    ensures Emulated(TWO_DEEP) == [Visit(0, false), Visit(1, false)]
  {
    TwoDeepPrepared();
    TwoDeepTour();
  }

  lemma PathsOfOne(c: Placed<nat>, weight: real, tied: bool)
    ensures PathsOf(PlacedBank(weight, tied, [c])) == PathsFrom(c)
  {
    UsersOfOne(c);
  }

  lemma UserPath(user: nat)
    ensures PathsFrom(PlacedUser(1.0, false, user)) == map[user := [1.0]]
  {
    assert PathsOf(PlacedUser(1.0, false, user)) == map[user := []];
    assert [1.0] + [] == [1.0];
  }

  lemma InnerPaths(user: nat)
    ensures PathsFrom(Inner(user, false)) == map[user := [1.0, 1.0]]
  {
    PathsOfOne(PlacedUser(1.0, false, user), 1.0, false);
    UserPath(user);
    assert [1.0] + [1.0] == [1.0, 1.0];
  }

  lemma OuterPaths(user: nat)
    ensures PathsFrom(Outer(user, false)) == map[user := [1.0, 1.0, 1.0]]
  {
    PathsOfOne(Inner(user, false), 1.0, false);
    InnerPaths(user);
    assert [1.0] + [1.0, 1.0] == [1.0, 1.0, 1.0];
  }

  lemma PathsOfTwo(c: Placed<nat>, d: Placed<nat>)
    ensures PathsIn([c, d]) == PathsFrom(c) + PathsFrom(d)
  {
    assert [c, d][..1] == [c];
    UsersOfOne(c);
  }

  lemma TwoDeepPaths()
    ensures PathsOf(Weighed(TWO_DEEP, 0.0)) == map[0 := [1.0, 1.0, 1.0], 1 := [1.0, 1.0, 1.0]]
  {
    TwoDeepPrepared();
    PathsOfTwo(Outer(0, false), Outer(1, false));
    OuterPaths(0);
    OuterPaths(1);
  }

  lemma TwoUsers(p: Path, q: Path)
    ensures |map[0 := p, 1 := q]| == 2
  {
    assert map[0 := p, 1 := q].Keys == {0, 1};
  }

  /** Two users of the same path both have all of the fairshare. */
  lemma BothFirst(p: Path)
    ensures var paths := map[0 := p, 1 := p]; FairShare(paths, 0) == FairShare(paths, 1) == 1.0
  {
    AheadTrichotomy(p, p);
    assert AheadOf(map[0 := p, 1 := p], p) == {};
    TwoUsers(p, p);
  }

  /** Of two users the one ahead has all, the other half of the fairshare. */
  lemma FirstAndSecond(p: Path, q: Path)
    requires Ahead(p, q)
    ensures var paths := map[0 := q, 1 := p]; FairShare(paths, 1) == 1.0 && FairShare(paths, 0) == 0.5
  {
    AheadTrichotomy(p, q);
    AheadTrichotomy(p, p);
    AheadTrichotomy(q, q);
    assert AheadOf(map[0 := q, 1 := p], p) == {};
    assert AheadOf(map[0 := q, 1 := p], q) == {1};
    TwoUsers(q, p);
  }

  lemma InTurn(users: seq<nat>, shares: seq<real>)
    requires Emulates([Visit(0, false), Visit(1, false)], users, shares)
    ensures users == [0, 1] && shares == [1.0, 0.5]
  {
    var log := [Visit(0, false), Visit(1, false)];
    assert GroupStart(log, 0) == 0 && GroupStart(log, 1) == 1;
  }

  lemma TwoDeepShares()
    ensures var paths := PathsOf(Weighed(TWO_DEEP, 0.0));
            0 in paths && 1 in paths && FairShare(paths, 0) == FairShare(paths, 1) == 1.0
  {
    TwoDeepPaths();
    BothFirst([1.0, 1.0, 1.0]);
  }

  /** Users of the same weight path, and so of the same fairshare in the walk: the
      emulator gives one of them half of what it gives the other. */
  lemma TwoDeepDisagree(users: seq<nat>, shares: seq<real>)
    requires Emulates(Emulated(TWO_DEEP), users, shares)
    ensures users == [0, 1] && shares == [1.0, 0.5]
    ensures var paths := PathsOf(Weighed(TWO_DEEP, 0.0));
            0 in paths && 1 in paths && FairShare(paths, 0) == FairShare(paths, 1) == 1.0
  {
    TwoDeepEmulated();
    InTurn(users, shares);
    TwoDeepShares();
  }

  // ----- a user listed after a bank of the same weight -----

  const BANK_FIRST: Tree<nat> := Bank(1, 1, [Bank(1, 1, [User(0, 1, 1)]), User(1, 1, 1)])

  lemma BankFirstPrepared()
    ensures var p := PlacedBank(0.0, false, [Inner(0, false), PlacedUser(1.0, false, 1)]);
            Weighed(BANK_FIRST, 0.0) == p && Prepared(p) == p
  {
    WeighedTwo(Bank(1, 1, [User(0, 1, 1)]), User(1, 1, 1), 0.0);
    WeighedOne(User(0, 1, 1), 1.0);
    PreparedTwo(Inner(0, false), PlacedUser(1.0, false, 1), 0.0);
    PreparedOne(PlacedUser(1.0, false, 0), 1.0);
    SortedTwo(Inner(0, false), PlacedUser(1.0, false, 1));
    MarkedApart(Inner(0, false), PlacedUser(1.0, false, 1));
  }

  lemma BankFirstEmulated()
    ensures Emulated(BANK_FIRST) == [Visit(0, false), Visit(1, false)]
  {
    BankFirstPrepared();
    var ps := [Inner(0, false), PlacedUser(1.0, false, 1)];
    TieAwareIfUntied(ps);
    TourOfBank(ps, Inner(0, false), PlacedUser(1.0, false, 1));
    InnerTour(0, false);
  }

  lemma BankFirstPaths()
    ensures PathsOf(Weighed(BANK_FIRST, 0.0)) == map[0 := [1.0, 1.0], 1 := [1.0]]
  {
    BankFirstPrepared();
    PathsOfTwo(Inner(0, false), PlacedUser(1.0, false, 1));
    InnerPaths(0);
    UserPath(1);
  }

  lemma BesideIsAhead()
    ensures Ahead([1.0], [1.0, 1.0])
  {
    assert [1.0][1..] == [] && [1.0, 1.0][1..] == [1.0];
  }

  lemma BankFirstShares()
    ensures var paths := PathsOf(Weighed(BANK_FIRST, 0.0));
            0 in paths && 1 in paths && FairShare(paths, 0) == 0.5 && FairShare(paths, 1) == 1.0
  {
    BankFirstPaths();
    BesideIsAhead();
    FirstAndSecond([1.0], [1.0, 1.0]);
  }

  /** The walk has the user beside the bank first, the emulator the one inside it,
      though no two banks tie. */
  lemma BankFirstDisagree(users: seq<nat>, shares: seq<real>)
    requires Emulates(Emulated(BANK_FIRST), users, shares)
    ensures users == [0, 1] && shares == [1.0, 0.5]
    ensures var paths := PathsOf(Weighed(BANK_FIRST, 0.0));
            0 in paths && 1 in paths && FairShare(paths, 0) == 0.5 && FairShare(paths, 1) == 1.0
  {
    BankFirstEmulated();
    InTurn(users, shares);
    BankFirstShares();
  }
}
