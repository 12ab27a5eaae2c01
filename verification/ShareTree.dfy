/// The share tree: every node's part of the whole, by shares and by usage.

module ShareTree {

  /** A node of the tree; the root comes first and has no parent. */
  datatype ShareNode = ShareNode(shortname: string, parent: int, isUser: bool, shares: nat, usage: real, depth: nat)

  /** Every node but the root hangs below a bank, one level further down. */
  ghost predicate WellFormed(nodes: seq<ShareNode>)
  {
    && nodes != [] && nodes[0].parent == -1 && nodes[0].depth == 0 && !nodes[0].isUser
    && forall i | 0 < i < |nodes| ::
         && 0 <= nodes[i].parent < |nodes| && !nodes[nodes[i].parent].isUser
         && nodes[i].depth == nodes[nodes[i].parent].depth + 1
  }

  /** Shares of the children of p of one kind, among the first n nodes. */
  function KindShares(nodes: seq<ShareNode>, p: nat, isUser: bool, n: nat): nat
    requires n <= |nodes|
  {
    if n == 0 then 0
    else KindShares(nodes, p, isUser, n - 1)
         + if nodes[n - 1].parent == p && nodes[n - 1].isUser == isUser then nodes[n - 1].shares else 0
  }

  /** A node's part of the whole: its share among its siblings of the same kind, of
      its parent's part.  A node named like the root gets nothing. */
  ghost function Part(nodes: seq<ShareNode>, i: nat): real
    requires WellFormed(nodes) && i < |nodes|
    decreases nodes[i].depth
  {
    if i == 0 then 1.0
    else if nodes[i].shortname == nodes[0].shortname then 0.0
    else
      var total := KindShares(nodes, nodes[i].parent, nodes[i].isUser, |nodes|);
      if total == 0 then 0.0 else Fraction(nodes[i].shares, total, Part(nodes, nodes[i].parent))
  }

  function Fraction(shares: nat, total: nat, whole: real): real
    requires 0 < total
  {
    shares as real / total as real * whole
  }

  /** The first n numbers, in some order. */
  ghost predicate Listed(order: seq<nat>, n: nat)
  {
    && |order| == n && (forall j | 0 <= j < |order| :: order[j] < n) && forall i | 0 <= i < n :: i in order
  }

  ghost predicate HigherFirst(nodes: seq<ShareNode>, order: seq<nat>)
  {
    && (forall j | 0 <= j < |order| :: order[j] < |nodes|)
    && forall j, k | 0 <= j < k < |order| :: nodes[order[j]].depth <= nodes[order[k]].depth
  }

  lemma ListedNext(order: seq<nat>, n: nat, k: nat)
    requires Listed(order, n) && k <= |order|
    ensures Listed(order[..k] + [n] + order[k..], n + 1)
  {
    var now := order[..k] + [n] + order[k..];
    assert order == order[..k] + order[k..];
    forall i | 0 <= i <= n ensures i in now {
      assert i < n ==> i in order;
    }
  }

  lemma HigherFirstNext(nodes: seq<ShareNode>, order: seq<nat>, i: nat, k: nat)
    requires HigherFirst(nodes, order) && i < |nodes| && k <= |order|
    requires forall j | k <= j < |order| :: nodes[order[j]].depth > nodes[i].depth
    requires 0 < k ==> nodes[order[k - 1]].depth <= nodes[i].depth
    ensures HigherFirst(nodes, order[..k] + [i] + order[k..])
  {
    var now := order[..k] + [i] + order[k..];
    assert forall j | 0 <= j < |now| :: now[j] == (if j < k then order[j] else if j == k then i else order[j - 1]);
    assert forall j | 0 <= j < k :: nodes[order[j]].depth <= nodes[order[k - 1]].depth;
  }

  class Tree {
    const nodes: seq<ShareNode>
    var nshares: seq<real>
    var nusage: seq<real>

    constructor (nodes: seq<ShareNode>)
      requires WellFormed(nodes)
      ensures this.nodes == nodes && |nshares| == |nusage| == |nodes|
      ensures nshares[0] == nusage[0] == 1.0 && forall i | 0 < i < |nodes| :: nshares[i] == nusage[i] == 0.0
    {
      this.nodes := nodes;
      nshares := seq(|nodes|, i => if i == 0 then 1.0 else 0.0);
      nusage := seq(|nodes|, i => if i == 0 then 1.0 else 0.0);
    }

    /** All nodes, the higher ones first. */
    method ByDepth() returns (order: seq<nat>)
      ensures Listed(order, |nodes|) && HigherFirst(nodes, order)
    {
      order := [];
      for i := 0 to |nodes|
        invariant Listed(order, i) && HigherFirst(nodes, order)
      {
        var k := |order|;
        while 0 < k && nodes[order[k - 1]].depth > nodes[i].depth
          invariant 0 <= k <= |order| && forall j | k <= j < |order| :: nodes[order[j]].depth > nodes[i].depth
        {
          k := k - 1;
        }
        ListedNext(order, i, k);
        HigherFirstNext(nodes, order, i, k);
        order := order[..k] + [i] + order[k..];
      }
    }

    /** Shares of a node and its siblings of the same kind. */
    method SiblingShares(i: nat) returns (total: nat)
      requires WellFormed(nodes) && 0 < i < |nodes|
      ensures total == KindShares(nodes, nodes[i].parent, nodes[i].isUser, |nodes|)
    {
      total := 0;
      for j := 0 to |nodes|
        invariant total == KindShares(nodes, nodes[i].parent, nodes[i].isUser, j)
      {
        if nodes[j].parent == nodes[i].parent && nodes[j].isUser == nodes[i].isUser {
          total := total + nodes[j].shares;
        }
      }
    }

    /** The nodes of the order's first k places have their part, the others nothing. */
    ghost predicate Normalized(order: seq<nat>, k: nat)
      requires WellFormed(nodes) && Listed(order, |nodes|) && k <= |order|
      reads this
    {
      && |nshares| == |nodes| && nshares[0] == 1.0
      && (forall j | 0 <= j < k :: nshares[order[j]] == Part(nodes, order[j]))
      && forall i | 0 < i < |nodes| && i !in order[..k] :: nshares[i] == 0.0
    }

    /** A node's share among its siblings of its parent's part; without shares, or
        named like the root, it keeps what it has. */
    method OwnPart(order: seq<nat>, k: nat) returns (part: real)
      requires WellFormed(nodes) && Listed(order, |nodes|) && HigherFirst(nodes, order) && k < |order|
               && Normalized(order, k)
      ensures part == Part(nodes, order[k])
    {
      var i := order[k];
      part := nshares[i];
      if i != 0 && nodes[i].shortname != nodes[0].shortname {
        var total := SiblingShares(i);
        if total > 0 {
          ParentEarlier(nodes, order, k);
          var fraction := nodes[i].shares as real / total as real;
          part := fraction * nshares[nodes[i].parent];
        }
      }
    }

    method NormalizeNode(order: seq<nat>, k: nat)
      requires WellFormed(nodes) && Listed(order, |nodes|) && HigherFirst(nodes, order) && k < |order|
               && Normalized(order, k)
      modifies `nshares
      ensures Normalized(order, k + 1)
    {
      var part := OwnPart(order, k);
      assert order[..k + 1] == order[..k] + [order[k]];
      nshares := nshares[order[k] := part];
    }

    /** One pass, from the root down, gives every node its part. */
    method NormalizeShares()
      requires WellFormed(nodes) && |nshares| == |nodes|
      requires nshares[0] == 1.0 && forall i | 0 < i < |nodes| :: nshares[i] == 0.0
      modifies `nshares
      ensures |nshares| == |nodes| && forall i | 0 <= i < |nodes| :: nshares[i] == Part(nodes, i)
    {
      var order := ByDepth();
      for k := 0 to |order|
        invariant Normalized(order, k)
      {
        NormalizeNode(order, k);
      }
      forall i | 0 <= i < |nodes| ensures nshares[i] == Part(nodes, i) {
        assert i in order;
      }
    }

    /** Usage is normalized by the root's. */
    method NormalizeUsage()
      requires WellFormed(nodes) && |nusage| == |nodes| && nusage[0] == 1.0
      modifies `nusage
      ensures |nusage| == |nodes|
      ensures nodes[0].usage > 0.0 ==> forall i | 0 <= i < |nodes| :: nusage[i] == nodes[i].usage / nodes[0].usage
      ensures nodes[0].usage <= 0.0 ==> nusage == old(nusage)
    {
      if nodes[0].usage > 0.0 {
        for i := 0 to |nodes|
          invariant |nusage| == |nodes| && forall j | 0 <= j < i :: nusage[j] == nodes[j].usage / nodes[0].usage
        {
          nusage := nusage[i := nodes[i].usage / nodes[0].usage];
        }
      }
    }
  }

  /** In an order by depth, parents come before their children. */
  lemma ParentEarlier(nodes: seq<ShareNode>, order: seq<nat>, k: nat)
    requires WellFormed(nodes) && k < |order| && 0 < order[k]
    requires Listed(order, |nodes|) && HigherFirst(nodes, order)
    ensures exists m :: 0 <= m < k && order[m] == nodes[order[k]].parent
  {
    var p := nodes[order[k]].parent;
    assert p in order;
    var m :| 0 <= m < |order| && order[m] == p;
    assert nodes[order[m]].depth < nodes[order[k]].depth;
  }

  // ----- partition of unity -----

  /** The parts of the children of p among the first n nodes. */
  ghost function ChildrenSum(nodes: seq<ShareNode>, p: nat, n: nat): real
    requires WellFormed(nodes) && n <= |nodes|
  {
    if n == 0 then 0.0
    else ChildrenSum(nodes, p, n - 1) + if nodes[n - 1].parent == p then Part(nodes, n - 1) else 0.0
  }

  /** Only the root is named like the root. */
  ghost predicate RootNameOnce(nodes: seq<ShareNode>)
    requires nodes != []
  {
    forall i | 0 < i < |nodes| :: nodes[i].shortname != nodes[0].shortname
  }

  /** How many kinds of children of p, users and banks, have shares. */
  function KindsWithShares(nodes: seq<ShareNode>, p: nat): nat
  {
    (if KindShares(nodes, p, true, |nodes|) > 0 then 1 else 0)
    + if KindShares(nodes, p, false, |nodes|) > 0 then 1 else 0
  }

  function KindPart(shares: nat, total: nat, whole: real): real
  {
    if total == 0 then 0.0 else Fraction(shares, total, whole)
  }

  lemma KindPartAdds(a: nat, b: nat, total: nat, whole: real)
    ensures KindPart(a + b, total, whole) == KindPart(a, total, whole) + KindPart(b, total, whole)
  {
    if total != 0 {
      DivideSum(a as real, b as real, total as real);
      var x, y := a as real / total as real, b as real / total as real;
      assert (x + y) * whole == x * whole + y * whole;
    }
  }

  lemma DivideSum(a: real, b: real, c: real)
    requires c != 0.0
    ensures (a + b) / c == a / c + b / c
  {
  }

  lemma {:induction false} ChildrenSumByKind(nodes: seq<ShareNode>, p: nat, n: nat)
    requires WellFormed(nodes) && RootNameOnce(nodes) && p < |nodes| && n <= |nodes|
    ensures ChildrenSum(nodes, p, n)
         == KindPart(KindShares(nodes, p, true, n), KindShares(nodes, p, true, |nodes|), Part(nodes, p))
            + KindPart(KindShares(nodes, p, false, n), KindShares(nodes, p, false, |nodes|), Part(nodes, p))
  {
    if n == 0 {
      NoPart(KindShares(nodes, p, true, |nodes|), Part(nodes, p));
      NoPart(KindShares(nodes, p, false, |nodes|), Part(nodes, p));
    } else {
      ChildrenSumByKind(nodes, p, n - 1);
      var c := nodes[n - 1];
      if c.parent == p {
        KindPartAdds(KindShares(nodes, p, c.isUser, n - 1), c.shares, KindShares(nodes, p, c.isUser, |nodes|),
                     Part(nodes, p));
        PartOfChild(nodes, n - 1);
      }
    }
  }

  lemma NoPart(total: nat, whole: real)
    ensures KindPart(0, total, whole) == 0.0
  {
  }

  lemma WholePart(total: nat, whole: real)
    ensures KindPart(total, total, whole) == if total > 0 then whole else 0.0
  {
  }

  lemma PartOfChild(nodes: seq<ShareNode>, i: nat)
    requires WellFormed(nodes) && RootNameOnce(nodes) && 0 < i < |nodes|
    ensures var p := nodes[i].parent;
            Part(nodes, i) == KindPart(nodes[i].shares, KindShares(nodes, p, nodes[i].isUser, |nodes|), Part(nodes, p))
  {
  }

  lemma Times(n: nat, whole: real)
    requires n <= 2
    ensures n as real * whole == if n == 0 then 0.0 else if n == 1 then whole else whole + whole
  {
  }

  lemma BothKinds(users: nat, banks: nat, kinds: nat, whole: real)
    requires kinds == (if users > 0 then 1 else 0) + if banks > 0 then 1 else 0
    ensures KindPart(users, users, whole) + KindPart(banks, banks, whole) == kinds as real * whole
  {
    WholePart(users, whole);
    WholePart(banks, whole);
    Times(kinds, whole);
  }

  /** The children of a node together get its part once for each kind of children
      that has shares. */
  lemma ChildrenGet(nodes: seq<ShareNode>, p: nat)
    requires WellFormed(nodes) && RootNameOnce(nodes) && p < |nodes|
    ensures ChildrenSum(nodes, p, |nodes|) == KindsWithShares(nodes, p) as real * Part(nodes, p)
  {
    var users, banks := KindShares(nodes, p, true, |nodes|), KindShares(nodes, p, false, |nodes|);
    ChildrenSumByKind(nodes, p, |nodes|);
    BothKinds(users, banks, KindsWithShares(nodes, p), Part(nodes, p));
  }

  /** So they partition its part exactly if one kind has shares, or it has no part. */
  lemma ChildrenPartition(nodes: seq<ShareNode>, p: nat)
    requires WellFormed(nodes) && RootNameOnce(nodes) && p < |nodes|
    ensures ChildrenSum(nodes, p, |nodes|) == Part(nodes, p)
            <==> KindsWithShares(nodes, p) == 1 || Part(nodes, p) == 0.0
  {
    ChildrenGet(nodes, p);
  }

  /** The leaves below p together, among the children up to n. */
  ghost function LeavesSum(nodes: seq<ShareNode>, value: nat -> real, p: nat, n: nat): real
    requires WellFormed(nodes) && p < |nodes| && n <= |nodes|
    decreases MaxDepth(nodes, |nodes|) + 1 - nodes[p].depth, n
  {
    if n == 0 then 0.0
    else
      LeavesSum(nodes, value, p, n - 1)
      + if nodes[n - 1].parent == p then
          DepthBound(nodes, n - 1);
          Leaves(nodes, value, n - 1)
        else 0.0
  }

  /** The value of a leaf, or of all leaves below. */
  ghost function Leaves(nodes: seq<ShareNode>, value: nat -> real, p: nat): real
    requires WellFormed(nodes) && p < |nodes|
    decreases MaxDepth(nodes, |nodes|) + 1 - nodes[p].depth, |nodes| + 1
  {
    if HasChildren(nodes, p) then LeavesSum(nodes, value, p, |nodes|) else value(p)
  }

  ghost predicate HasChildren(nodes: seq<ShareNode>, p: nat)
  {
    exists i :: 0 <= i < |nodes| && nodes[i].parent == p
  }

  function MaxDepth(nodes: seq<ShareNode>, n: nat): nat
    requires n <= |nodes|
  {
    if n == 0 then 0 else var m := MaxDepth(nodes, n - 1); if nodes[n - 1].depth > m then nodes[n - 1].depth else m
  }

  lemma {:induction false} DepthUpTo(nodes: seq<ShareNode>, i: nat, n: nat)
    requires i < n <= |nodes|
    ensures nodes[i].depth <= MaxDepth(nodes, n)
  {
    if i < n - 1 {
      DepthUpTo(nodes, i, n - 1);
    }
  }

  lemma DepthBound(nodes: seq<ShareNode>, i: nat)
    requires i < |nodes|
    ensures nodes[i].depth <= MaxDepth(nodes, |nodes|)
  {
    DepthUpTo(nodes, i, |nodes|);
  }

  /** The values of the children of p among the first n nodes. */
  ghost function ValueSum(nodes: seq<ShareNode>, value: nat -> real, p: nat, n: nat): real
    requires n <= |nodes|
  {
    if n == 0 then 0.0
    else ValueSum(nodes, value, p, n - 1) + if nodes[n - 1].parent == p then value(n - 1) else 0.0
  }

  /** Every node that has children is worth what they are worth together. */
  ghost predicate AddsUp(nodes: seq<ShareNode>, value: nat -> real)
  {
    forall p | 0 <= p < |nodes| && HasChildren(nodes, p) :: ValueSum(nodes, value, p, |nodes|) == value(p)
  }

  /** Then the leaves below a node are, too. */
  lemma {:induction false} LeavesAddUp(nodes: seq<ShareNode>, value: nat -> real, p: nat)
    requires WellFormed(nodes) && p < |nodes| && AddsUp(nodes, value)
    ensures Leaves(nodes, value, p) == value(p)
    decreases MaxDepth(nodes, |nodes|) + 1 - nodes[p].depth, |nodes| + 1
  {
    if HasChildren(nodes, p) {
      LeavesSumAddsUp(nodes, value, p, |nodes|);
    }
  }

  lemma {:induction false} LeavesSumAddsUp(nodes: seq<ShareNode>, value: nat -> real, p: nat, n: nat)
    requires WellFormed(nodes) && p < |nodes| && n <= |nodes| && AddsUp(nodes, value)
    ensures LeavesSum(nodes, value, p, n) == ValueSum(nodes, value, p, n)
    decreases MaxDepth(nodes, |nodes|) + 1 - nodes[p].depth, n
  {
    if n != 0 {
      LeavesSumAddsUp(nodes, value, p, n - 1);
      if nodes[n - 1].parent == p {
        DepthBound(nodes, n - 1);
        LeavesAddUp(nodes, value, n - 1);
      }
    }
  }

  ghost function PartAt(nodes: seq<ShareNode>): nat -> real
    requires WellFormed(nodes)
  {
    (i: nat) => if i < |nodes| then Part(nodes, i) else 0.0
  }

  lemma {:induction false} PartsSum(nodes: seq<ShareNode>, p: nat, n: nat)
    requires WellFormed(nodes) && n <= |nodes|
    ensures ValueSum(nodes, PartAt(nodes), p, n) == ChildrenSum(nodes, p, n)
  {
    if n != 0 {
      PartsSum(nodes, p, n - 1);
    }
  }

  /** Partition of unity: where every bank that has children has shares in exactly
      one kind of them, the parts of all leaves of the tree add up to one. */
  lemma LeavesAreOne(nodes: seq<ShareNode>)
    requires WellFormed(nodes) && RootNameOnce(nodes)
    requires forall p | 0 <= p < |nodes| && HasChildren(nodes, p) :: KindsWithShares(nodes, p) == 1
    ensures Leaves(nodes, PartAt(nodes), 0) == 1.0
  {
    forall p | 0 <= p < |nodes| && HasChildren(nodes, p)
      ensures ValueSum(nodes, PartAt(nodes), p, |nodes|) == PartAt(nodes)(p)
    {
      ChildrenPartition(nodes, p);
      PartsSum(nodes, p, |nodes|);
    }
    LeavesAddUp(nodes, PartAt(nodes), 0);
  }

  /** With positive shares, and only users or only banks below each bank, it has. */
  lemma OneKindHasShares(nodes: seq<ShareNode>, p: nat, isUser: bool)
    requires WellFormed(nodes) && p < |nodes| && HasChildren(nodes, p)
    requires forall i | 0 <= i < |nodes| && nodes[i].parent == p :: nodes[i].shares > 0 && nodes[i].isUser == isUser
    ensures KindsWithShares(nodes, p) == 1
  {
    var i :| 0 <= i < |nodes| && nodes[i].parent == p;
    SharesOfKind(nodes, p, isUser, |nodes|, i);
    NoneOfKind(nodes, p, !isUser, |nodes|);
  }

  lemma {:induction false} SharesOfKind(nodes: seq<ShareNode>, p: nat, isUser: bool, n: nat, i: nat)
    requires i < n <= |nodes| && nodes[i].parent == p && nodes[i].isUser == isUser
    ensures KindShares(nodes, p, isUser, n) >= nodes[i].shares
  {
    if i < n - 1 {
      SharesOfKind(nodes, p, isUser, n - 1, i);
    }
  }

  lemma {:induction false} NoneOfKind(nodes: seq<ShareNode>, p: nat, isUser: bool, n: nat)
    requires n <= |nodes| && forall i | 0 <= i < |nodes| && nodes[i].parent == p :: nodes[i].isUser != isUser
    ensures KindShares(nodes, p, isUser, n) == 0
  {
    if n != 0 {
      NoneOfKind(nodes, p, isUser, n - 1);
    }
  }

  // ----- usage -----

  function UsageAt(nodes: seq<ShareNode>): nat -> real
  {
    (i: nat) => if i < |nodes| then nodes[i].usage else 0.0
  }

  function NormalUsageAt(nodes: seq<ShareNode>): nat -> real
    requires nodes != [] && nodes[0].usage > 0.0
  {
    (i: nat) => if i < |nodes| then nodes[i].usage / nodes[0].usage else 0.0
  }

  lemma {:induction false} UsageScales(nodes: seq<ShareNode>, p: nat, n: nat)
    requires nodes != [] && nodes[0].usage > 0.0 && n <= |nodes|
    ensures ValueSum(nodes, NormalUsageAt(nodes), p, n) == ValueSum(nodes, UsageAt(nodes), p, n) / nodes[0].usage
  {
    if n != 0 {
      UsageScales(nodes, p, n - 1);
      if nodes[n - 1].parent == p {
        DivideSum(ValueSum(nodes, UsageAt(nodes), p, n - 1), nodes[n - 1].usage, nodes[0].usage);
      }
    }
  }

  /** If the stored usages add up in the tree, the normalized ones do, and those of
      all leaves add up to one. */
  lemma UsageIsOne(nodes: seq<ShareNode>)
    requires WellFormed(nodes) && nodes[0].usage > 0.0 && AddsUp(nodes, UsageAt(nodes))
    ensures AddsUp(nodes, NormalUsageAt(nodes)) && Leaves(nodes, NormalUsageAt(nodes), 0) == 1.0
  {
    forall p | 0 <= p < |nodes| && HasChildren(nodes, p)
      ensures ValueSum(nodes, NormalUsageAt(nodes), p, |nodes|) == NormalUsageAt(nodes)(p)
    {
      NormalUsageAddsUp(nodes, p);
    }
    LeavesAddUp(nodes, NormalUsageAt(nodes), 0);
    OneOfItself(nodes[0].usage);
  }

  lemma NormalUsageAddsUp(nodes: seq<ShareNode>, p: nat)
    requires WellFormed(nodes) && nodes[0].usage > 0.0 && p < |nodes|
    requires ValueSum(nodes, UsageAt(nodes), p, |nodes|) == nodes[p].usage
    ensures ValueSum(nodes, NormalUsageAt(nodes), p, |nodes|) == nodes[p].usage / nodes[0].usage
  {
    UsageScales(nodes, p, |nodes|);
  }

  lemma OneOfItself(x: real)
    requires x > 0.0
    ensures x / x == 1.0
  {
  }
}
