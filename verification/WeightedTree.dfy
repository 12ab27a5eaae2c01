/// Nodes of the weighted tree: banks and users with shares and usage, whose
/// weights are assigned and whose child vectors are sorted in place.

module WeightedTree {
  import opened WeightPath

  const MAX_UINT64: nat := 0xFFFF_FFFF_FFFF_FFFF

  /** A node's weight among its siblings: share fraction over usage fraction.
      No shares weigh nothing; shares without usage weigh one more than the
      largest 64-bit integer. */
  function WeightOf(shares: nat, usage: nat, sharesSum: nat, usageSum: nat): (w: real)
    requires shares <= sharesSum && usage <= usageSum
  {
    if shares == 0 then 0.0
    else if usage == 0 then MAX_UINT64 as real + 1.0
    else (shares as real / sharesSum as real) / (usage as real / usageSum as real)
  }

  function SumShares(nodes: seq<Node>): (total: nat)
    ensures forall c | c in nodes :: c.shares <= total
  {
    if nodes == [] then 0 else nodes[0].shares + SumShares(nodes[1..])
  }

  function SumUsage(nodes: seq<Node>): (total: nat)
    reads nodes`usage
    ensures forall c | c in nodes :: c.usage <= total
  {
    if nodes == [] then 0 else nodes[0].usage + SumUsage(nodes[1..])
  }

  ghost predicate Distinct<T>(s: seq<T>)
  {
    forall i, j | 0 <= i < j < |s| :: s[i] != s[j]
  }

  /** Two orders of one child list. */
  ghost predicate Reordering<T>(s: seq<T>, t: seq<T>)
  {
    multiset(s) == multiset(t)
  }

  lemma {:induction false} RemoveAt<T>(s: seq<T>, i: nat)
    requires i < |s|
    ensures multiset(s[..i] + s[i + 1..]) == multiset(s) - multiset{s[i]}
  {
    assert s == s[..i] + [s[i]] + s[i + 1..];
  }

  lemma ReorderingMembers<T>(s: seq<T>, t: seq<T>)
    requires Reordering(s, t)
    ensures |s| == |t|
    ensures forall x :: x in s <==> x in t
  {
    assert |multiset(s)| == |s| && |multiset(t)| == |t|;
    forall x ensures x in s <==> x in t {
      assert x in s <==> x in multiset(s);
      assert x in t <==> x in multiset(t);
    }
  }

  lemma CountOnce<T>(s: seq<T>, k: nat)
    requires Distinct(s) && k < |s|
    ensures multiset(s)[s[k]] == 1
  {
    assert s == s[..k] + [s[k]] + s[k + 1..];
    assert s[k] !in s[..k] && s[k] !in s[k + 1..];
  }

  lemma CountTwice<T>(s: seq<T>, i: nat, j: nat)
    requires i < j < |s| && s[i] == s[j]
    ensures multiset(s)[s[i]] >= 2
  {
    assert s == s[..i] + [s[i]] + s[i + 1..j] + [s[j]] + s[j + 1..];
  }

  lemma ReorderingDistinct<T>(s: seq<T>, t: seq<T>)
    requires Reordering(s, t) && Distinct(s)
    ensures Distinct(t)
  {
    ReorderingMembers(s, t);
    forall i, j | 0 <= i < j < |t| ensures t[i] != t[j] {
      assert t[i] in s;
      var k :| 0 <= k < |s| && s[k] == t[i];
      CountOnce(s, k);
      if t[i] == t[j] {
        CountTwice(t, i, j);
        assert false;
      }
    }
  }

  lemma {:induction false} SumWithout(s: seq<Node>, i: nat)
    requires i < |s|
    ensures SumShares(s) == s[i].shares + SumShares(s[..i] + s[i + 1..])
    ensures SumUsage(s) == s[i].usage + SumUsage(s[..i] + s[i + 1..])
  {
    if i == 0 {
      assert s[..0] + s[1..] == s[1..];
    } else {
      SumWithout(s[1..], i - 1);
      var r := s[..i] + s[i + 1..];
      assert r[1..] == s[1..][..i - 1] + s[1..][i..];
    }
  }

  lemma PlaceOf<T>(s: seq<T>, x: T) returns (i: nat)
    requires x in s
    ensures i < |s| && s[i] == x
  {
    i :| 0 <= i < |s| && s[i] == x;
  }

  lemma WithoutHead<T>(s: seq<T>, t: seq<T>, i: nat)
    requires Reordering(s, t) && s != [] && i < |t| && t[i] == s[0]
    ensures Reordering(s[1..], t[..i] + t[i + 1..])
  {
    RemoveAt(s, 0);
    RemoveAt(t, i);
    assert s[..0] + s[1..] == s[1..];
  }

  /** The sibling sums do not depend on the order of the siblings. */
  lemma {:induction false} ReorderingSums(s: seq<Node>, t: seq<Node>)
    requires Reordering(s, t)
    ensures SumShares(s) == SumShares(t) && SumUsage(s) == SumUsage(t)
    decreases |s|
  {
    ReorderingMembers(s, t);
    if s != [] {
      var i := PlaceOf(t, s[0]);
      WithoutHead(s, t, i);
      SumWithout(t, i);
      ReorderingSums(s[1..], t[..i] + t[i + 1..]);
    }
  }

  class Node {
    const name: string
    const isUser: bool
    const shares: nat
    var usage: nat
    var fshare: real
    var weight: real
    var tieWithNext: bool
    var subtreeSize: nat
    var subtreeLeafSize: nat
    const parent: Node?
    var children: seq<Node>

    ghost var repr: set<Node>          // this node and everything below it
    ghost var height: nat              // larger than the height of every child
    ghost var trueWeight: real         // the weight the siblings' shares and usage give this node
    ghost var paths: map<Node, Path>   // weight path, relative to this node, of every user below

    constructor (parent: Node?, name: string, isUser: bool, shares: nat, usage: nat)
      ensures this.parent == parent && this.name == name && this.isUser == isUser
      ensures this.shares == shares && this.usage == usage && children == []
      ensures subtreeSize == 1 && subtreeLeafSize == if isUser then 1 else 0
      ensures weight == 0.0 && !tieWithNext
      ensures repr == {this} && height == 0 && paths == if isUser then map[this := []] else map[]
    {
      this.parent := parent;
      this.name, this.isUser, this.shares, this.usage := name, isUser, shares, usage;
      fshare, weight, tieWithNext := 0.0, 0.0, false;
      subtreeSize, subtreeLeafSize := 1, if isUser then 1 else 0;
      children := [];
      repr, height, trueWeight := {this}, 0, 0.0;
      new;
      paths := if isUser then map[this := []] else map[];
    }

    predicate IsLeaf()
      reads `children
    {
      children == []
    }

    /** The children own disjoint parts of the node's subtree. */
    ghost predicate Shape()
      reads `children, `repr, `height, repr`repr, children`repr, children`height
    {
      && this in repr
      && (forall m {:trigger m.repr} | m in repr :: m.repr <= repr)
      && (forall c | c in children :: c in c.repr && c.repr <= repr && this !in c.repr && c.height < height)
      && Distinct(children)
      && (forall c, d | c in children && d in children && c != d :: c.repr !! d.repr)
      && (isUser ==> repr == {this})
    }

    /** A user's path is the weight of the child above it, then its path there. */
    ghost predicate PathsKnown()
      reads `children, `repr, `paths, children`paths, children`trueWeight
    {
      if isUser then children == [] && paths == map[this := []]
      else
        && (forall u | u in paths :: u.isUser && u in repr && exists c :: c in children && u in c.paths)
        && (forall c, u | c in children && u in c.paths :: u in paths && paths[u] == [c.trueWeight] + c.paths[u])
    }

    /** The children's true weights are what shares and usage give, and the
        sibling sums fit a 64-bit integer. */
    ghost predicate Weighted()
      reads `children, children`usage, children`trueWeight
    {
      && SumShares(children) <= MAX_UINT64 && SumUsage(children) <= MAX_UINT64
      && forall c | c in children ::
           c.trueWeight == WeightOf(c.shares, c.usage, SumShares(children), SumUsage(children))
    }

    /** Sort order: heavier first; on equal weight a user before a bank. */
    static predicate Before(a: Node, b: Node)
      reads a`weight, b`weight
    {
      a.weight > b.weight || (a.weight == b.weight && a.isUser && !b.isUser)
    }

    static ghost predicate Sorted(s: seq<Node>)
      reads s`weight
    {
      forall i, j | 0 <= i < j < |s| :: !Before(s[j], s[i])
    }

    /** The children carry their true weights and are sorted by them. */
    ghost predicate ChildrenReady()
      reads `children, children`weight, children`trueWeight
    {
      (forall c | c in children :: c.weight == c.trueWeight) && Sorted(children)
    }

    /** Every node of the subtree is in shape and knows its users' paths. */
    ghost predicate Tree()
      reads `repr, repr`repr, repr`height, repr`children, repr`paths, repr`trueWeight
    {
      && this in repr
      && (forall m {:trigger m.repr} | m in repr :: m.repr <= repr)
      && (forall m {:trigger m.children} | m in repr :: forall c | c in m.children :: c in repr)
      && (forall m {:trigger m.Shape()} | m in repr :: m.Shape())
      && (forall m {:trigger m.PathsKnown()} | m in repr :: m.PathsKnown())
    }

    lemma SubTree(c: Node)
      requires Tree() && c in repr
      ensures c.Tree()
    {
      assert c.Shape();
      forall m | m in c.repr ensures forall d | d in m.children :: d in c.repr {
        assert m.Shape();
      }
    }

    /** Below this node all weights are in place and no tie flag is stale. */
    ghost predicate Settled()
      reads this, repr
      requires Tree()
    {
      && (forall m {:trigger m.Weighted()} | m in repr && m != this :: m.Weighted())
      && (forall m {:trigger m.tieWithNext} | m in repr && m != this :: !m.tieWithNext)
    }

    /** Sound for a run: in shape, weights defined everywhere, no tie flag up. */
    ghost predicate Sound()
      reads this, repr
    {
      && Tree()
      && (forall m {:trigger m.Weighted()} | m in repr :: m.Weighted())
      && (forall m {:trigger m.tieWithNext} | m in repr :: !m.tieWithNext)
    }

    /** Ready to be visited: the children are weighed and sorted already. */
    ghost predicate Ready()
      reads this, repr
    {
      Tree() && Settled() && ChildrenReady()
    }

    /** Reordering the children keeps the shape of the subtree. */
    twostate lemma StaysInShape()
      requires old(Shape()) && Reordering(old(children), children)
      requires unchanged(`repr, `height, old(repr)`repr, old(children)`repr, old(children)`height)
      ensures Shape()
    {
      ReorderingMembers(old(children), children);
      ReorderingDistinct(old(children), children);
    }

    twostate lemma StaysPathsKnown()
      requires old(PathsKnown()) && Reordering(old(children), children)
      requires unchanged(`repr, `paths, old(children)`paths, old(children)`trueWeight)
      ensures PathsKnown()
    {
      ReorderingMembers(old(children), children);
    }

    /** Reordering the children keeps the sibling sums, hence the true weights. */
    twostate lemma StaysWeighted()
      requires old(Weighted()) && Reordering(old(children), children)
      requires unchanged(old(children)`trueWeight, old(children)`usage)
      ensures Weighted()
    {
      ReorderingMembers(old(children), children);
      ReorderingSums(old(children), children);
      assert SumUsage(old(children)) == old(SumUsage(children));
    }

    /** True if child i and the next one are of one kind and weigh the same. */
    predicate IsChildWeightEqualToNext(i: nat)
      reads `children, children`weight
    {
      && i + 1 < |children|
      && children[i].isUser == children[i + 1].isUser
      && children[i].weight == children[i + 1].weight
    }

    /** Between two siblings of one weight there are only siblings of that
        weight, users first, so the earlier one equals its successor if they are
        of one kind. */
    lemma EqualWeightsAdjoin(i: nat, j: nat)
      requires Sorted(children) && i < j < |children| && children[i].weight == children[j].weight
      ensures !children[i].isUser ==> !children[j].isUser
      ensures children[i].isUser == children[j].isUser ==> IsChildWeightEqualToNext(i)
    {
      assert !Before(children[j], children[i]);
      assert !Before(children[i + 1], children[i]);
      if i + 1 < j {
        assert !Before(children[j], children[i + 1]);
      }
    }

    /** Append to the child vector, leaving the tree metadata alone. */
    method AddChildOnly(c: Node)
      modifies `children
      ensures children == old(children) + [c]
    {
      children := children + [c];
    }

    method CalcSetChildrenWeight()
      requires Weighted() && Distinct(children)
      modifies children`weight
      ensures forall c | c in children :: c.weight == c.trueWeight
    {
      var sharesSum, usageSum := 0, 0;
      for i := 0 to |children|
        invariant sharesSum + SumShares(children[i..]) == SumShares(children)
        invariant usageSum + SumUsage(children[i..]) == SumUsage(children)
      {
        sharesSum := sharesSum + children[i].shares;
        usageSum := usageSum + children[i].usage;
      }
      for i := 0 to |children|
        invariant forall j | 0 <= j < i :: children[j].weight == children[j].trueWeight
      {
        var c := children[i];
        assert c in children;
        c.weight := WeightOf(c.shares, c.usage, sharesSum, usageSum);
      }
    }

    /** Put c into its place in a sorted list. */
    static method InsertSorted(sorted: seq<Node>, c: Node) returns (r: seq<Node>)
      requires Sorted(sorted)
      ensures Sorted(r) && multiset(r) == multiset(sorted) + multiset{c}
    {
      var k := |sorted|;
      while 0 < k && Before(c, sorted[k - 1])
        invariant 0 <= k <= |sorted|
        invariant forall j | k <= j < |sorted| :: Before(c, sorted[j])
      {
        k := k - 1;
      }
      r := sorted[..k] + [c] + sorted[k..];
      assert sorted == sorted[..k] + sorted[k..];
      SortedAfterInsert(sorted, k, c);
    }

    static lemma SortedAfterInsert(sorted: seq<Node>, k: nat, c: Node)
      requires k <= |sorted| && Sorted(sorted)
      requires forall j | k <= j < |sorted| :: Before(c, sorted[j])
      requires 0 < k ==> !Before(c, sorted[k - 1])
      ensures Sorted(sorted[..k] + [c] + sorted[k..])
    {
      var r := sorted[..k] + [c] + sorted[k..];
      forall i, j | 0 <= i < j < |r| ensures !Before(r[j], r[i]) {
        assert i < k - 1 ==> !Before(sorted[k - 1], sorted[i]);
      }
    }

    /** Sort the child vector; only the order is promised, as for any sort. */
    method SortWeightedChildren()
      modifies `children
      ensures Sorted(children) && Reordering(old(children), children)
    {
      var sorted: seq<Node> := [];
      for i := 0 to |children|
        invariant children == old(children)
        invariant Sorted(sorted) && multiset(sorted) == multiset(children[..i])
      {
        assert children[..i + 1] == children[..i] + [children[i]];
        sorted := InsertSorted(sorted, children[i]);
      }
      assert children[..|children|] == children;
      children := sorted;
    }

    method CalcAndSortWeightedChildren()
      requires Weighted() && Distinct(children)
      modifies `children, children`weight
      ensures ChildrenReady() && Reordering(old(children), children)
    {
      CalcSetChildrenWeight();
      SortWeightedChildren();
      ReorderingMembers(old(children), children);
    }
  }
}
