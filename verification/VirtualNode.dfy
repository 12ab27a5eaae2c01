/// Virtual nodes: sibling banks of one weight are merged into a temporary bank
/// that owns all their children, so that their users compete directly.

module VirtualNode {
  import opened WeightPath
  import opened WeightedTree

  /** The children of several banks, in order. */
  function Grand(banks: seq<Node>): seq<Node>
    reads banks`children
  {
    if banks == [] then [] else Grand(banks[..|banks| - 1]) + banks[|banks| - 1].children
  }

  ghost predicate BelowOneOf(banks: seq<Node>, c: Node)
    reads banks`children
  {
    exists b :: b in banks && c in b.children
  }

  lemma {:induction false} GrandMember(banks: seq<Node>, c: Node)
    ensures c in Grand(banks) <==> BelowOneOf(banks, c)
  {
    if banks != [] {
      var init, last := banks[..|banks| - 1], banks[|banks| - 1];
      GrandMember(init, c);
      assert banks == init + [last];
    }
  }

  /** Some of n's child banks. */
  ghost predicate SomeBanks(n: Node, banks: seq<Node>)
    reads n, n.repr
    requires n.Tree()
  {
    Distinct(banks) && forall b | b in banks :: b in n.children && !b.isUser
  }

  /** Everything that lies under the banks. */
  ghost function Owned(banks: seq<Node>): set<Node>
    reads banks`repr
  {
    set b, m | b in banks && m in b.repr :: m
  }

  /** A grandchild lies, with all below it, strictly inside its own bank. */
  lemma GrandChild(n: Node, banks: seq<Node>, b: Node, c: Node)
    requires n.Tree() && SomeBanks(n, banks) && b in banks && c in b.children
    ensures c in c.repr && c.repr <= b.repr - {b} && b.repr <= n.repr - {n}
    ensures c.height + 1 < n.height && c.Shape() && c.PathsKnown()
    ensures c in n.repr && c.repr <= Owned(banks)
  {
    assert n.Shape() && b.Shape();
    assert c.Shape() && c.PathsKnown();
  }

  /** Grandchildren of tied banks are distinct and own disjoint subtrees. */
  lemma GrandApart(n: Node, banks: seq<Node>, b: Node, c: Node, a: Node, d: Node)
    requires n.Tree() && SomeBanks(n, banks)
    requires b in banks && c in b.children && a in banks && d in a.children && c != d
    ensures c.repr !! d.repr
    ensures a != b ==> a.repr !! b.repr
  {
    GrandChild(n, banks, b, c);
    GrandChild(n, banks, a, d);
    assert n.Shape() && b.Shape();
  }

  lemma DistinctConcat<T>(s: seq<T>, t: seq<T>)
    requires Distinct(s) && Distinct(t) && forall x | x in s :: x !in t
    ensures Distinct(s + t)
  {
    forall i, j | 0 <= i < j < |s + t| ensures (s + t)[i] != (s + t)[j] {
      if i < |s| <= j {
        assert s[i] in s && t[j - |s|] in t;
      }
    }
  }

  lemma {:induction false} GrandDistinct(n: Node, banks: seq<Node>)
    requires n.Tree() && SomeBanks(n, banks)
    ensures Distinct(Grand(banks))
    decreases |banks|
  {
    if banks != [] {
      var init, last := banks[..|banks| - 1], banks[|banks| - 1];
      GrandDistinct(n, init);
      assert last in banks && n.Shape() && last.Shape();
      assert forall b | b in init :: b in banks && b.repr !! last.repr;
      forall c | c in Grand(init) ensures c !in last.children {
        GrandMember(init, c);
        var b :| b in init && c in b.children;
        if c in last.children {
          GrandChild(n, banks, b, c);
          GrandChild(n, banks, last, c);
          assert false;
        }
      }
      DistinctConcat(Grand(init), last.children);
    }
  }

  /** The users below the banks with their paths, each relative to its bank. */
  ghost function UsersBelow(banks: seq<Node>): map<Node, Path>
    reads banks`paths
  {
    map b, u | b in banks && u in b.paths :: u := PathIn(banks, u)
  }

  ghost function PathIn(banks: seq<Node>, u: Node): Path
    reads banks`paths
    requires exists b :: b in banks && u in b.paths
  {
    var b :| b in banks && u in b.paths; b.paths[u]
  }

  lemma UserBelow(n: Node, banks: seq<Node>, b: Node, u: Node)
    requires n.Tree() && SomeBanks(n, banks) && b in banks && u in b.paths
    ensures UsersBelow(banks)[u] == b.paths[u]
    ensures u in b.repr
  {
    var a :| a in banks && u in a.paths && PathIn(banks, u) == a.paths[u];
    assert n.Shape() && a.PathsKnown() && b.PathsKnown();
    assert u in a.repr && u in b.repr;
  }

  /** kids are exactly the grandchildren, in some order. */
  ghost predicate Kids(n: Node, banks: seq<Node>, kids: seq<Node>)
    reads n, n.repr, banks
    requires n.Tree()
  {
    && SomeBanks(n, banks) && Distinct(kids)
    && (forall c | c in kids :: BelowOneOf(banks, c))
    && forall b, c | b in banks && c in b.children :: c in kids
  }

  lemma MergedKids(n: Node, banks: seq<Node>, kids: seq<Node>)
    requires n.Tree() && SomeBanks(n, banks) && Reordering(Grand(banks), kids)
    ensures Kids(n, banks, kids)
  {
    ReorderingMembers(Grand(banks), kids);
    forall c | c in kids ensures BelowOneOf(banks, c) {
      GrandMember(banks, c);
    }
    forall b, c | b in banks && c in b.children ensures c in kids {
      GrandMember(banks, c);
    }
    GrandDistinct(n, banks);
    ReorderingDistinct(Grand(banks), kids);
  }

  /** Everything that lies under the kids. */
  ghost predicate KidsApart(n: Node, kids: seq<Node>, below: set<Node>)
    reads n, n.repr, kids
    requires n.Tree()
  {
    && Distinct(kids)
    && (forall c | c in kids :: c in c.repr && c.repr <= below && c.height < n.height - 1)
    && (forall c, d | c in kids && d in kids && c != d :: c.repr !! d.repr)
    && below <= n.repr
    && forall m {:trigger m.repr} {:trigger m.children} | m in below ::
         m.repr <= below && forall c | c in m.children :: c in below
  }

  lemma KidsOwnBelow(n: Node, banks: seq<Node>, kids: seq<Node>, below: set<Node>)
    requires n.Tree() && Kids(n, banks, kids)
    requires below == set c, m | c in kids && m in c.repr :: m
    ensures KidsApart(n, kids, below) && below <= Owned(banks)
  {
    forall c | c in kids ensures c in c.repr && c.height < n.height - 1 && c.repr <= Owned(banks) && c.repr <= n.repr {
      var b :| b in banks && c in b.children;
      GrandChild(n, banks, b, c);
    }
    forall c, d | c in kids && d in kids && c != d ensures c.repr !! d.repr {
      var b :| b in banks && c in b.children;
      var a :| a in banks && d in a.children;
      GrandApart(n, banks, b, c, a, d);
    }
    forall m | m in below ensures m.repr <= below && forall c | c in m.children :: c in below {
      var c :| c in kids && m in c.repr;
      assert c in n.repr && c.Shape() && m.Shape();
    }
  }

  /** Where the users below the kids stand, relative to the merged bank. */
  ghost predicate UsersThrough(kids: seq<Node>, users: map<Node, Path>)
    reads kids
  {
    && (forall u | u in users :: u.isUser && exists c :: c in kids && u in c.paths && u in c.repr)
    && (forall c, u | c in kids && u in c.paths :: u in users && users[u] == [c.trueWeight] + c.paths[u])
  }

  /** That is where they stood relative to their own bank. */
  lemma KidsPaths(n: Node, banks: seq<Node>, kids: seq<Node>)
    requires n.Tree() && Kids(n, banks, kids)
    ensures UsersThrough(kids, UsersBelow(banks))
  {
    forall u | u in UsersBelow(banks) ensures u.isUser && exists c :: c in kids && u in c.paths && u in c.repr {
      var b :| b in banks && u in b.paths;
      assert n.Shape() && b.PathsKnown();
      var c :| c in b.children && u in c.paths;
      assert BelowOneOf(banks, c);
      GrandChild(n, banks, b, c);
    }
    forall c, u | c in kids && u in c.paths
      ensures u in UsersBelow(banks) && UsersBelow(banks)[u] == [c.trueWeight] + c.paths[u]
    {
      var b :| b in banks && c in b.children;
      assert n.Shape() && b.PathsKnown();
      UserBelow(n, banks, b, u);
    }
  }

  /** Make vc the owner of everything below its children. */
  ghost method Own(n: Node, below: set<Node>, users: map<Node, Path>, weight: real, vc: Node)
    requires n.Tree() && vc !in n.repr && !vc.isUser && 1 <= n.height
    requires KidsApart(n, vc.children, below) && UsersThrough(vc.children, users)
    modifies vc`repr, vc`height, vc`trueWeight, vc`paths
    ensures vc.Tree()
    ensures vc.height == n.height - 1 && vc.trueWeight == weight && vc.repr == below + {vc} && vc.paths == users
  {
    assert forall c | c in vc.children :: c in below && c != vc;
    assert forall m {:trigger m.Shape()} | m in below :: m.Shape();
    assert forall m {:trigger m.PathsKnown()} | m in below :: m.PathsKnown();
    vc.repr, vc.height, vc.trueWeight, vc.paths := below + {vc}, n.height - 1, weight, users;
    assert vc.Shape();
    assert vc.PathsKnown();
  }

  /** Make vc, which holds the merged children, the owner of their subtrees. */
  ghost method Adopt(n: Node, banks: seq<Node>, weight: real, vc: Node)
    requires n.Tree() && SomeBanks(n, banks) && vc !in n.repr && !vc.isUser
    requires Reordering(Grand(banks), vc.children) && 1 <= n.height
    modifies vc`repr, vc`height, vc`trueWeight, vc`paths
    ensures vc.Tree() && vc.height < n.height && vc.trueWeight == weight
    ensures vc.repr <= old(Owned(banks)) + {vc} && vc.paths == old(UsersBelow(banks))
  {
    MergedKids(n, banks, vc.children);
    ghost var below := set c, m | c in vc.children && m in c.repr :: m;
    KidsOwnBelow(n, banks, vc.children, below);
    KidsPaths(n, banks, vc.children);
    ghost var users := UsersBelow(banks);
    assert UsersThrough(vc.children, users);
    assert KidsApart(n, vc.children, below);
    Own(n, below, users, weight, vc);
  }
}
