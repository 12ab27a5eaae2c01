/// The emulator against the walk: on the same simple tree both give every user
/// the same fairshare.

module EmulatorRefinement {
  import opened WeightPath
  import opened WeightedTree
  import opened WeightedWalk
  import opened Emulator

  /** Tree t, whose users are the nodes themselves, mirrors the tree below n, all
      of which is among `nodes`. */
  ghost predicate Mirrors(t: Tree<Node>, n: Node, nodes: set<Node>)
    reads nodes
    decreases t
  {
    && n in nodes && t.shares == n.shares && t.usage == n.usage && n.isUser == t.User?
    && (t.User? ==> t.user == n)
    && (t.Bank? ==> |n.children| == |t.children|
                    && forall i | 0 <= i < |t.children| :: Mirrors(t.children[i], n.children[i], nodes))
  }

  lemma {:induction false} SameSums(ts: seq<Tree<Node>>, cs: seq<Node>)
    requires |ts| == |cs| && forall i | 0 <= i < |ts| :: ts[i].shares == cs[i].shares && ts[i].usage == cs[i].usage
    ensures SharesOf(ts) == SumShares(cs) && UsageOf(ts) == SumUsage(cs)
  {
    if ts != [] {
      var init, c := cs[..|cs| - 1], cs[|cs| - 1];
      SameSums(ts[..|ts| - 1], init);
      SumsLast(cs);
    }
  }

  lemma {:induction false} SumsLast(cs: seq<Node>)
    requires cs != []
    ensures SumShares(cs) == SumShares(cs[..|cs| - 1]) + cs[|cs| - 1].shares
    ensures SumUsage(cs) == SumUsage(cs[..|cs| - 1]) + cs[|cs| - 1].usage
  {
    if |cs| > 1 {
      SumsLast(cs[1..]);
      assert cs[..|cs| - 1][1..] == cs[1..][..|cs| - 2];
    }
  }

  /** Placed nodes that agree with the children's paths and weights. */
  ghost predicate Agree(ps: seq<Placed<Node>>, cs: seq<Node>)
    reads cs`paths, cs`trueWeight
  {
    |ps| == |cs| && forall i | 0 <= i < |ps| ::
      Once(UsersOf(ps[i])) && PathsOf(ps[i]) == cs[i].paths && ps[i].weight == cs[i].trueWeight
  }

  ghost predicate Disjoint(cs: seq<Node>)
    reads cs`paths
  {
    forall i, j, u | 0 <= i < j < |cs| && u in cs[i].paths :: u !in cs[j].paths
  }

  lemma OnceTogether<U>(a: multiset<U>, b: multiset<U>)
    requires Once(a) && Once(b) && forall u | u in a :: u !in b
    ensures Once(a + b)
  {
  }

  lemma {:induction false} AgreeOnce(ps: seq<Placed<Node>>, cs: seq<Node>)
    requires Agree(ps, cs) && Disjoint(cs)
    ensures Once(UsersIn(ps))
  {
    if ps != [] {
      var init, last := ps[..|ps| - 1], |ps| - 1;
      AgreeOnce(init, cs[..last]);
      forall u | u in UsersIn(init) ensures u !in UsersOf(ps[last]) {
        UserKnownIn(init, u);
        var i := SomeChildHas(init, u);
        UserKnown(ps[last], u);
        assert u in cs[i].paths;
      }
      OnceTogether(UsersIn(init), UsersOf(ps[last]));
    }
  }

  lemma ChildrenDisjoint(n: Node)
    requires n.Tree()
    ensures Disjoint(n.children)
  {
    assert n.Shape();
    forall i, j, u | 0 <= i < j < |n.children| && u in n.children[i].paths ensures u !in n.children[j].paths {
      var c, d := n.children[i], n.children[j];
      assert c in n.children && d in n.children && c in n.repr && d in n.repr;
      assert c.PathsKnown() && d.PathsKnown() && c.Shape() && d.Shape();
      assert u in c.repr;
    }
  }

  lemma PathBelow(n: Node, ps: seq<Placed<Node>>, u: Node)
    requires n.PathsKnown() && !n.isUser && Agree(ps, n.children) && Once(UsersIn(ps)) && u in PathsIn(ps)
    ensures u in n.paths && n.paths[u] == PathsIn(ps)[u]
  {
    var i := SomeChildHas(ps, u);
    ChildHasPath(ps, i, u);
    assert n.children[i] in n.children && u in n.children[i].paths;
  }

  lemma PathAbove(n: Node, ps: seq<Placed<Node>>, u: Node)
    requires n.PathsKnown() && !n.isUser && Agree(ps, n.children) && Once(UsersIn(ps)) && u in n.paths
    ensures u in PathsIn(ps)
  {
    var c :| c in n.children && u in c.paths;
    var i :| 0 <= i < |n.children| && n.children[i] == c;
    ChildHasPath(ps, i, u);
  }

  lemma SamePaths(a: map<Node, Path>, b: map<Node, Path>)
    requires (forall u | u in a :: u in b && b[u] == a[u]) && forall u | u in b :: u in a
    ensures a == b
  {
  }

  lemma AgreePaths(n: Node, ps: seq<Placed<Node>>)
    requires n.Tree() && !n.isUser && Agree(ps, n.children)
    ensures PathsIn(ps) == n.paths && Once(UsersIn(ps))
  {
    ghost var known := n.PathsKnown();
    assert known;
    ChildrenDisjoint(n);
    AgreeOnce(ps, n.children);
    forall u | u in PathsIn(ps) ensures u in n.paths && n.paths[u] == PathsIn(ps)[u] {
      PathBelow(n, ps, u);
    }
    forall u | u in n.paths ensures u in PathsIn(ps) {
      PathAbove(n, ps, u);
    }
    SamePaths(PathsIn(ps), n.paths);
  }

  /** The weight paths are the same, each user once. */
  lemma {:induction false} MirrorsPaths(t: Tree<Node>, n: Node, nodes: set<Node>, weight: real)
    requires n.Sound() && Mirrors(t, n, nodes)
    ensures PathsOf(Weighed(t, weight)) == n.paths && Once(UsersOf(Weighed(t, weight)))
    decreases t
  {
    assert n.PathsKnown() && n.Weighted() && n.Shape();
    if t.Bank? {
      var ts, cs, ps := t.children, n.children, Weighed(t, weight).children;
      forall i | 0 <= i < |ts| ensures ts[i].shares == cs[i].shares && ts[i].usage == cs[i].usage {
        assert Mirrors(ts[i], cs[i], nodes);
      }
      SameSums(ts, cs);
      forall i | 0 <= i < |ps|
        ensures Once(UsersOf(ps[i])) && PathsOf(ps[i]) == cs[i].paths && ps[i].weight == cs[i].trueWeight
      {
        assert cs[i] in n.children && cs[i] in n.repr;
        SoundBelow(n, cs[i]);
        MirrorsPaths(ts[i], cs[i], nodes, ps[i].weight);
      }
      AgreePaths(n, ps);
    }
  }

  lemma SoundBelow(n: Node, c: Node)
    requires n.Sound() && c in n.repr
    ensures c.Sound()
  {
    n.SubTree(c);
  }

  /** The emulator's result agrees with the fairshare the users hold. */
  ghost predicate Agrees(users: seq<Node>, fairshares: seq<real>)
    requires |users| == |fairshares|
    reads users
  {
    forall i | 0 <= i < |users| :: users[i].fshare == fairshares[i]
  }

  /** Run both on the same tree: they agree exactly if the emulator's traversal,
      apart from the last flag, visits best path first with exact flags.  So they do
      if every bank has only users or only sub-banks of different weights. */
  method EmulateAndWalk(t: Tree<Node>, root: Node) returns (calculator: Calculator<Node>, walk: Walk)
    requires root.Sound() && root.subtreeLeafSize == |root.paths| && Mirrors(t, root, root.repr)
    modifies root.repr`weight, root.repr`tieWithNext, root.repr`fshare, root.repr`children
    ensures multiset(calculator.users) == multiset(root.paths.Keys) == multiset(walk.users)
    ensures |calculator.fairshares| == |calculator.users|
    ensures Agrees(calculator.users, calculator.fairshares) <==> IsWalk(root.paths, LastDown(Emulated(t)))
    ensures Simple(Weighed(t, 0.0)) ==> Agrees(calculator.users, calculator.fairshares)
  {
    MirrorsPaths(t, root, root.repr, 0.0);
    UsersAreKeys(Weighed(t, 0.0));
    calculator := new Calculator();
    calculator.Calculate(t);
    FairExactly(t, calculator.users, calculator.fairshares);
    ghost var fair := Fair(root.paths, calculator.users, calculator.fairshares);
    assert Simple(Weighed(t, 0.0)) ==> fair;
    walk := new Walk(root);
    var ok := walk.Run();
    FairIsAgreed(root.paths, calculator.users, calculator.fairshares);
  }

  lemma FairIsAgreed(paths: map<Node, Path>, users: seq<Node>, fairshares: seq<real>)
    requires |users| == |fairshares| && multiset(users) == multiset(paths.Keys)
    requires forall u | u in paths :: u.fshare == FairShare(paths, u)
    ensures Fair(paths, users, fairshares) <==> Agrees(users, fairshares)
  {
    forall i | 0 <= i < |users| ensures users[i] in paths {
      assert users[i] in multiset(users);
    }
  }

  lemma OnceIsSet<U>(users: multiset<U>, keys: set<U>)
    requires Once(users) && (forall u | u in users :: u in keys) && forall u | u in keys :: u in users
    ensures users == multiset(keys)
  {
    forall u | u in keys ensures users[u] == multiset(keys)[u] {
      assert u in users && multiset(keys)[u] == 1;
    }
  }

  lemma UsersAreKeys<U>(p: Placed<U>)
    requires Once(UsersOf(p))
    ensures UsersOf(p) == multiset(PathsOf(p).Keys)
  {
    forall u | u in UsersOf(p) ensures u in PathsOf(p).Keys {
      UserKnown(p, u);
    }
    forall u | u in PathsOf(p).Keys ensures u in UsersOf(p) {
      UserKnown(p, u);
    }
    OnceIsSet(UsersOf(p), PathsOf(p).Keys);
  }
}
