/// Making a bank over finished subtrees a tree of its own: which nodes it owns,
/// what its children weigh and where its users stand.

module Planting {
  import opened WeightPath
  import opened WeightedTree
  import opened VirtualNode

  /** Finished trees that share nothing. */
  ghost predicate Grove(cs: seq<Node>)
    reads cs, Owned(cs)
  {
    && Distinct(cs)
    && (forall i | 0 <= i < |cs| :: cs[i].Sound())
    && (forall i, j | 0 <= i < j < |cs| :: cs[i].repr !! cs[j].repr)
  }

  /** The users of the trees. */
  ghost function UsersOf(cs: seq<Node>): set<Node>
    reads cs`paths
  {
    set c, u | c in cs && u in c.paths :: u
  }

  ghost function AboveAll(cs: seq<Node>): (h: nat)
    reads cs`height
    ensures forall c | c in cs :: c.height < h
  {
    if cs == [] then 0
    else var h := AboveAll(cs[1..]); if cs[0].height < h then h else cs[0].height + 1
  }

  /** A node in a tree is no child of a node in another one, nor of its own
      descendants. */
  lemma RootIsNoChild(c: Node, m: Node)
    requires c.Tree() && m in c.repr
    ensures c !in m.children
  {
    assert m.Shape();
  }

  lemma UserInTree(c: Node, u: Node)
    requires c.Tree() && u in c.paths
    ensures u.isUser && u in c.repr
  {
    assert c.PathsKnown() && c.Shape();
  }

  /** The weights of the children: what their shares and usage give them. */
  ghost method Weigh(cs: seq<Node>)
    requires Grove(cs)
    modifies cs`trueWeight
    ensures Grove(cs)
    ensures forall c | c in cs :: c.trueWeight == WeightOf(c.shares, c.usage, SumShares(cs), SumUsage(cs))
  {
    forall c, m | c in cs && m in c.repr ensures forall d | d in m.children :: d !in cs {
      forall d | d in m.children ensures d !in cs {
        assert d in c.repr;
        RootIsNoChild(c, m);
        if d in cs {
          assert false;
        }
      }
    }
    forall c | c in cs {
      c.trueWeight := WeightOf(c.shares, c.usage, SumShares(cs), SumUsage(cs));
    }
    forall c | c in cs ensures c.Sound() {
      forall m | m in c.repr ensures m.Shape() && m.PathsKnown() && m.Weighted() {
        assert old(m.Shape() && m.PathsKnown() && m.Weighted());
      }
    }
  }

  /** In which tree a user sits. */
  ghost function TreeWith(cs: seq<Node>, u: Node): (c: Node)
    requires u in UsersOf(cs)
    reads cs`paths
    ensures c in cs && u in c.paths
  {
    var c :| c in cs && u in c.paths; c
  }

  lemma OneTreeOnly(cs: seq<Node>, u: Node, c: Node)
    requires Grove(cs) && c in cs && u in c.paths
    ensures u in UsersOf(cs) && TreeWith(cs, u) == c
  {
    UserInTree(c, u);
    UserInTree(TreeWith(cs, u), u);
  }

  /** The users' paths, seen from above the trees. */
  ghost function PathsFrom(cs: seq<Node>): map<Node, Path>
    reads cs`paths, cs`trueWeight
  {
    map u | u in UsersOf(cs) :: [TreeWith(cs, u).trueWeight] + TreeWith(cs, u).paths[u]
  }

  lemma PathsFromRight(cs: seq<Node>)
    requires Grove(cs)
    ensures UsersThrough(cs, PathsFrom(cs)) && PathsFrom(cs).Keys == UsersOf(cs)
  {
    var users := PathsFrom(cs);
    forall c, u | c in cs && u in c.paths ensures u in users && users[u] == [c.trueWeight] + c.paths[u] {
      OneTreeOnly(cs, u, c);
    }
    forall u | u in users ensures u.isUser && exists c :: c in cs && u in c.paths && u in c.repr {
      UserInTree(TreeWith(cs, u), u);
    }
  }

  /** What it takes for n to stand over finished trees. */
  ghost predicate Plantable(n: Node)
    reads n, n.children, Owned(n.children)
  {
    && !n.isUser && !n.tieWithNext && Grove(n.children) && n !in Owned(n.children)
    && SumShares(n.children) <= MAX_UINT64 && SumUsage(n.children) <= MAX_UINT64
  }

  /** n takes over the trees below its children. */
  ghost method Plant(n: Node)
    requires Plantable(n)
    modifies n`repr, n`height, n`paths, n.children`trueWeight
    ensures n.Sound() && n.repr == {n} + old(Owned(n.children)) && n.paths.Keys == old(UsersOf(n.children))
  {
    Weigh(n.children);
    TakeOver(n);
  }

  /** n has taken over the trees below its children. */
  ghost predicate Taken(n: Node)
    reads n, n.children, Owned(n.children)
  {
    && Plantable(n) && n.Weighted() && UsersThrough(n.children, n.paths)
    && n.repr == {n} + Owned(n.children) && forall c | c in n.children :: c.height < n.height
  }

  lemma TakenShape(n: Node)
    requires Taken(n)
    ensures n.Shape() && n.PathsKnown()
  {
    forall c | c in n.children ensures c in c.repr && c.repr <= n.repr && n !in c.repr {
      assert c.Shape();
    }
    forall m | m in n.repr ensures m.repr <= n.repr {
      if m != n {
        InTree(n.children, m);
      }
    }
  }

  lemma InTree(cs: seq<Node>, m: Node)
    requires Grove(cs) && m in Owned(cs)
    ensures m.Shape() && m.PathsKnown() && m.Weighted() && !m.tieWithNext && m.repr <= Owned(cs)
    ensures forall d | d in m.children :: d in Owned(cs)
  {
    var c :| c in cs && m in c.repr;
    assert c.Sound() && m.Shape();
  }

  lemma TakenIsSound(n: Node)
    requires Taken(n)
    ensures n.Sound()
  {
    TakenShape(n);
    forall m | m in n.repr
      ensures m.Shape() && m.PathsKnown() && m.Weighted() && !m.tieWithNext && m.repr <= n.repr
      ensures forall d | d in m.children :: d in n.repr
    {
      if m != n {
        InTree(n.children, m);
      } else {
        assert forall d | d in n.children :: d in d.repr;
      }
    }
  }

  ghost method TakeOver(n: Node)
    requires Plantable(n) && n.Weighted()
    modifies n`repr, n`height, n`paths
    ensures n.Sound() && n.repr == {n} + old(Owned(n.children)) && n.paths.Keys == old(UsersOf(n.children))
  {
    PathsFromRight(n.children);
    SetGhosts(n, Owned(n.children), AboveAll(n.children), PathsFrom(n.children));
    TakenIsSound(n);
  }

  ghost method SetGhosts(n: Node, below: set<Node>, height: nat, paths: map<Node, Path>)
    requires Plantable(n) && n.Weighted() && below == Owned(n.children) && UsersThrough(n.children, paths)
    requires forall c | c in n.children :: c.height < height
    modifies n`repr, n`height, n`paths
    ensures Taken(n) && n.paths == paths && n.repr == {n} + below
  {
    ghost var cs := n.children;
    ghost var grove, weighted, through := Grove(cs), n.Weighted(), UsersThrough(cs, paths);
    ghost var shares, usage := SumShares(cs), SumUsage(cs);
    n.repr, n.height, n.paths := {n} + below, height, paths;
    assert grove == Grove(cs) && below == Owned(cs);
    assert weighted == n.Weighted() && through == UsersThrough(cs, paths) && shares == SumShares(cs);
    assert usage == SumUsage(cs);
  }

  lemma {:induction false} SumsSnoc(cs: seq<Node>, c: Node)
    ensures SumShares(cs + [c]) == SumShares(cs) + c.shares && SumUsage(cs + [c]) == SumUsage(cs) + c.usage
  {
    if cs == [] {
      assert [] + [c] == [c] && [c][1..] == [];
    } else {
      assert (cs + [c])[1..] == cs[1..] + [c];
      SumsSnoc(cs[1..], c);
    }
  }

  lemma UsersAreOwned(cs: seq<Node>)
    requires Grove(cs)
    ensures UsersOf(cs) <= Owned(cs)
  {
    forall u | u in UsersOf(cs) ensures u in Owned(cs) {
      UserInTree(TreeWith(cs, u), u);
    }
  }

  lemma OwnedSnoc(cs: seq<Node>, c: Node)
    ensures Owned(cs + [c]) == Owned(cs) + c.repr
  {
    assert forall d :: d in cs + [c] <==> d in cs || d == c;
  }

  lemma UsersSnoc(cs: seq<Node>, c: Node)
    ensures UsersOf(cs + [c]) == UsersOf(cs) + c.paths.Keys
  {
    assert forall d :: d in cs + [c] <==> d in cs || d == c;
  }

  lemma NewUsers(cs: seq<Node>, c: Node)
    requires Grove(cs) && c.Tree() && c.repr !! Owned(cs)
    ensures UsersOf(cs) !! c.paths.Keys
  {
    UsersAreOwned(cs);
    forall u | u in c.paths ensures u !in UsersOf(cs) {
      UserInTree(c, u);
    }
  }

  lemma CountUsers(some: set<Node>, more: map<Node, Path>)
    requires some !! more.Keys
    ensures |some + more.Keys| == |some| + |more|
  {
  }

  /** One more finished tree. */
  lemma GroveSnoc(cs: seq<Node>, c: Node)
    requires Grove(cs) && c.Sound() && c.repr !! Owned(cs)
    ensures Grove(cs + [c])
  {
    forall d | d in cs ensures d in d.repr && d.repr <= Owned(cs) && d != c {
      assert d.Sound() && c in c.repr;
    }
    DistinctConcat(cs, [c]);
    assert forall d :: d in cs + [c] <==> d in cs || d == c;
  }
}
