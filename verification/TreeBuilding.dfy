/// Building a tree by adding nodes in any order: subtree sizes come out right.

module TreeBuilding {
  import opened WeightedTree
  import opened DataReader

  /** The order adds each node once, to the parent it was made with; `ups` has the
      ancestors of every node, all of which are among `nodes`. */
  ghost predicate Additions(order: seq<Node>, ups: map<Node, set<Node>>, nodes: set<Node>)
  {
    && Distinct(order)
    && forall i | 0 <= i < |order| ::
         order[i] in ups && order[i].parent != null && Chain(order[i], ups[order[i]]) && ups[order[i]] <= nodes
  }

  /** The nodes of the order that lie below a. */
  ghost function Below(order: seq<Node>, ups: map<Node, set<Node>>, a: Node): set<Node>
  {
    set c | c in order && c in ups && a in ups[c]
  }

  ghost function UsersBelow(order: seq<Node>, ups: map<Node, set<Node>>, a: Node): set<Node>
  {
    set c | c in order && c in ups && a in ups[c] && c.isUser
  }

  /** The children of a, in the order in which they were added. */
  function KidsOf(order: seq<Node>, a: Node): seq<Node>
  {
    if order == [] then []
    else KidsOf(order[..|order| - 1], a) + if order[|order| - 1].parent == a then [order[|order| - 1]] else []
  }

  /** Nothing has been added to the node yet. */
  predicate Bare(a: Node)
    reads a`subtreeSize, a`subtreeLeafSize, a`children
  {
    a.subtreeSize == 1 && a.subtreeLeafSize == (if a.isUser then 1 else 0) && a.children == []
  }

  /** Sizes and children say what has been added below a. */
  ghost predicate Counted(order: seq<Node>, ups: map<Node, set<Node>>, a: Node)
    reads a`subtreeSize, a`subtreeLeafSize, a`children
  {
    && a.subtreeSize == 1 + |Below(order, ups, a)|
    && a.subtreeLeafSize == (if a.isUser then 1 else 0) + |UsersBelow(order, ups, a)|
    && a.children == KidsOf(order, a)
  }

  lemma InSnoc<T>(s: seq<T>, x: T)
    ensures forall y :: y in s + [x] <==> y in s || y == x
  {
    assert (s + [x])[|s|] == x;
    forall y | y in s ensures y in s + [x] {
      var i :| 0 <= i < |s| && s[i] == y;
      assert (s + [x])[i] == y;
    }
  }

  lemma OneMoreBelow(order: seq<Node>, ups: map<Node, set<Node>>, c: Node, a: Node)
    requires c in ups && c !in order
    ensures |Below(order + [c], ups, a)| == |Below(order, ups, a)| + if a in ups[c] then 1 else 0
  {
    InSnoc(order, c);
    assert Below(order + [c], ups, a) == Below(order, ups, a) + if a in ups[c] then {c} else {};
  }

  lemma OneMoreUserBelow(order: seq<Node>, ups: map<Node, set<Node>>, c: Node, a: Node)
    requires c in ups && c !in order
    ensures |UsersBelow(order + [c], ups, a)|
         == |UsersBelow(order, ups, a)| + if a in ups[c] && c.isUser then 1 else 0
  {
    InSnoc(order, c);
    assert UsersBelow(order + [c], ups, a) == UsersBelow(order, ups, a) + if a in ups[c] && c.isUser then {c} else {};
  }

  lemma OneMoreKid(order: seq<Node>, c: Node, a: Node)
    ensures KidsOf(order + [c], a) == KidsOf(order, a) + if c.parent == a then [c] else []
  {
    assert (order + [c])[..|order|] == order;
  }

  /** Add one node; every ancestor counts it. */
  method AddOne(c: Node, ghost done: seq<Node>, ghost ups: map<Node, set<Node>>, ghost nodes: set<Node>)
    requires c in ups && c.parent != null && Chain(c, ups[c]) && ups[c] <= nodes && c !in done
    requires forall a | a in nodes :: Counted(done, ups, a)
    modifies nodes`children, nodes`subtreeSize, nodes`subtreeLeafSize
    ensures forall a | a in nodes :: Counted(done + [c], ups, a)
  {
    AddChild(c.parent, c, ups[c] - {c.parent});
    forall a | a in nodes ensures Counted(done + [c], ups, a) {
      OneMoreBelow(done, ups, c, a);
      OneMoreUserBelow(done, ups, c, a);
      OneMoreKid(done, c, a);
      assert old(Counted(done, ups, a));
      assert a in ups[c] - {c.parent} <==> a in ups[c] && a != c.parent;
    }
  }

  lemma NothingBelow(ups: map<Node, set<Node>>, a: Node)
    ensures Below([], ups, a) == {} && UsersBelow([], ups, a) == {} && KidsOf([], a) == []
  {
  }

  lemma OneMoreOf(order: seq<Node>, i: nat)
    requires Distinct(order) && i < |order|
    ensures order[..i + 1] == order[..i] + [order[i]] && order[i] !in order[..i]
  {
  }

  /** Whatever the order in which nodes are added, parents before children or after,
      in the end each node counts itself, the nodes below it and the users among them. */
  method AddAll(order: seq<Node>, ghost ups: map<Node, set<Node>>, ghost nodes: set<Node>)
    requires Additions(order, ups, nodes) && forall a | a in nodes :: Bare(a)
    modifies nodes`children, nodes`subtreeSize, nodes`subtreeLeafSize
    ensures forall a | a in nodes :: Counted(order, ups, a)
  {
    forall a | a in nodes ensures Counted(order[..0], ups, a) {
      NothingBelow(ups, a);
      assert Bare(a) && order[..0] == [];
    }
    for i := 0 to |order|
      invariant forall a | a in nodes :: Counted(order[..i], ups, a)
    {
      OneMoreOf(order, i);
      AddOne(order[i], order[..i], ups, nodes);
    }
    assert order[..|order|] == order;
  }

  // ----- the users counted are those the walk visits -----

  /** All nodes below the root have been added, and nothing else. */
  ghost predicate Complete(root: Node, order: seq<Node>, ups: map<Node, set<Node>>)
    reads root, root.repr, order
  {
    && root.Tree() && !root.isUser
    && (forall i | 0 <= i < |order| ::
          var c := order[i];
          && c in ups && c.parent != null && Chain(c, ups[c])
          && (c.parent == root || c.parent in order))
    && (forall m, c | m in root.repr && c in m.children :: c in order && c.parent == m)
    && (forall m, i | m in root.repr && 0 <= i < |order| && order[i].parent == m :: order[i] in m.children)
  }

  /** The ancestors of an ancestor are ancestors. */
  lemma {:induction false} ChainIsClosed(n: Node, ups: set<Node>, a: Node)
    requires Chain(n, ups) && a in ups && a.parent != null
    ensures a.parent in ups
    decreases ups
  {
    if a != n.parent {
      ChainIsClosed(n.parent, ups - {n.parent}, a);
    } else {
      assert Chain(a, ups - {a});
    }
  }

  /** The users of a node's paths are below it. */
  lemma {:induction false} PathUserIsBelow(root: Node, order: seq<Node>, ups: map<Node, set<Node>>, m: Node, u: Node)
    requires Complete(root, order, ups) && m in root.repr && u in m.paths && u != m
    ensures u in order && u.isUser && u in ups && m in ups[u]
    decreases m.height
  {
    assert m.PathsKnown() && m.Shape();
    var c :| c in m.children && u in c.paths;
    assert c in root.repr && c.PathsKnown() && c in order && c.parent == m;
    if u != c {
      PathUserIsBelow(root, order, ups, c, u);
      ChainIsClosed(u, ups[u], c);
    }
  }

  /** What is below the root is in its tree, with all its users. */
  lemma {:induction false} BelowIsInTree(root: Node, order: seq<Node>, ups: map<Node, set<Node>>, y: Node,
                                         above: set<Node>)
    requires Complete(root, order, ups) && y in order && Chain(y, above) && root in above
    ensures y in root.repr && forall u | u in y.paths :: u in root.paths
    decreases above
  {
    var p := y.parent;
    assert root.Shape() && root.PathsKnown();
    if p != root {
      BelowIsInTree(root, order, ups, p, above - {p});
      assert p.PathsKnown() && p.Shape();
    }
  }

  lemma UsersBelowAreUsers(root: Node, order: seq<Node>, ups: map<Node, set<Node>>)
    requires Complete(root, order, ups)
    ensures UsersBelow(order, ups, root) == root.paths.Keys
  {
    assert root.PathsKnown();
    forall u | u in root.paths ensures u in UsersBelow(order, ups, root) {
      PathUserIsBelow(root, order, ups, root, u);
    }
    forall u | u in UsersBelow(order, ups, root) ensures u in root.paths {
      BelowIsInTree(root, order, ups, u, ups[u]);
      assert u.PathsKnown();
    }
  }

  /** So whatever the order of additions, the root counts exactly the users of the
      tree, as the walk needs. */
  lemma LeavesAreCounted(root: Node, order: seq<Node>, ups: map<Node, set<Node>>)
    requires Complete(root, order, ups) && Counted(order, ups, root)
    ensures root.subtreeLeafSize == |root.paths|
  {
    UsersBelowAreUsers(root, order, ups);
  }
}
