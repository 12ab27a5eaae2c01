/// Building the share tree from the bank and association tables.

module ShareTreeBuilding {
  import opened BankUsage
  import opened ShareTree

  /** The tables with their usage columns. */
  datatype Tables = Tables(s: Schema, stored: seq<real>, used: seq<real>)
  {
    ghost predicate Valid() {
      s.Tree() && |stored| == |s.banks| && |used| == |s.assocs|
    }

    function BankNode(i: nat, parent: int, depth: nat): ShareNode
      requires i < |s.banks| == |stored|
    {
      ShareNode(s.banks[i].name, parent, false, s.banks[i].shares, stored[i], depth)
    }

    function UserNode(i: nat, parent: int, depth: nat): ShareNode
      requires i < |s.assocs| == |used|
    {
      ShareNode(s.assocs[i].username, parent, true, s.assocs[i].shares, used[i], depth)
    }

    /** What the tables say the children of a bank have used. */
    function KidsTotal(b: string): real
      requires |stored| == |s.banks| && |used| == |s.assocs|
    {
      StoredSum(s.banks, stored, b, |s.banks|) + Charged(s.assocs, used, b)
    }

    /** No bank has both sub-banks and associations. */
    predicate Pure() {
      forall i | 0 <= i < |s.assocs| :: !s.HasSubBanks(s.assocs[i].bank)
    }

    predicate PositiveShares() {
      && (forall i | 0 <= i < |s.banks| :: s.banks[i].shares > 0)
      && forall i | 0 <= i < |s.assocs| :: s.assocs[i].shares > 0
    }
  }

  // ----- what a node is -----

  /** Node i stands for a row of the table, one level below its parent. */
  ghost predicate Stands(t: Tables, nodes: seq<ShareNode>, i: nat)
    requires t.Valid() && i < |nodes|
  {
    var n := nodes[i];
    && 0 <= n.parent < i && !nodes[n.parent].isUser && n.depth == nodes[n.parent].depth + 1
    && if n.isUser then
         exists j :: 0 <= j < |t.s.assocs| && t.s.assocs[j].bank == nodes[n.parent].shortname
                     && n == t.UserNode(j, n.parent, n.depth)
       else
         exists j :: 0 <= j < |t.s.banks| && t.s.banks[j].parent == nodes[n.parent].shortname
                     && n == t.BankNode(j, n.parent, n.depth)
  }

  /** The nodes so far: the root, then nodes that stand for rows. */
  ghost predicate Standing(t: Tables, root: nat, nodes: seq<ShareNode>)
    requires t.Valid() && root < |t.s.banks|
  {
    nodes != [] && nodes[0] == t.BankNode(root, -1, 0) && forall i | 0 < i < |nodes| :: Stands(t, nodes, i)
  }

  /** What the children of p among the first n nodes have used. */
  function KidsUsage(nodes: seq<ShareNode>, p: nat, n: nat): real
    requires n <= |nodes|
  {
    if n == 0 then 0.0 else KidsUsage(nodes, p, n - 1) + if nodes[n - 1].parent == p then nodes[n - 1].usage else 0.0
  }

  /** All children of p are there. */
  ghost predicate Complete(t: Tables, nodes: seq<ShareNode>, p: nat)
    requires t.Valid() && p < |nodes|
  {
    KidsUsage(nodes, p, |nodes|) == t.KidsTotal(nodes[p].shortname)
  }

  lemma {:induction false} KidsUsagePrefix(nodes: seq<ShareNode>, more: seq<ShareNode>, p: nat, n: nat)
    requires n <= |nodes| && nodes <= more
    ensures KidsUsage(more, p, n) == KidsUsage(nodes, p, n)
  {
    if n != 0 {
      KidsUsagePrefix(nodes, more, p, n - 1);
    }
  }

  /** Nodes that are no children of p do not matter to it. */
  lemma {:induction false} KidsUsageSame(nodes: seq<ShareNode>, p: nat, m: nat, n: nat)
    requires m <= n <= |nodes| && forall i | m <= i < n :: nodes[i].parent != p
    ensures KidsUsage(nodes, p, n) == KidsUsage(nodes, p, m)
  {
    if m < n {
      KidsUsageSame(nodes, p, m, n - 1);
    }
  }

  lemma KidsUsageSnoc(nodes: seq<ShareNode>, c: ShareNode, p: nat)
    ensures KidsUsage(nodes + [c], p, |nodes| + 1) == KidsUsage(nodes, p, |nodes|)
            + if c.parent == p then c.usage else 0.0
  {
    KidsUsagePrefix(nodes, nodes + [c], p, |nodes|);
  }

  /** From nodes to more nodes: what is new stands for rows, is complete if it is a
      bank, and hangs below p or below something new. */
  ghost predicate Grown(t: Tables, root: nat, p: nat, nodes: seq<ShareNode>, more: seq<ShareNode>)
    requires t.Valid() && root < |t.s.banks|
  {
    && nodes <= more && Standing(t, root, more)
    && (forall i | |nodes| <= i < |more| :: more[i].parent == p || |nodes| <= more[i].parent)
    && forall i | |nodes| <= i < |more| && !more[i].isUser :: Complete(t, more, i)
  }

  lemma StandingSnoc(t: Tables, root: nat, nodes: seq<ShareNode>, c: ShareNode)
    requires t.Valid() && root < |t.s.banks| && Standing(t, root, nodes) && Stands(t, nodes + [c], |nodes|)
    ensures Standing(t, root, nodes + [c])
  {
    var more := nodes + [c];
    forall i | 0 < i < |more| ensures Stands(t, more, i) {
      if i < |nodes| {
        assert Stands(t, nodes, i);
        assert more[i] == nodes[i] && more[nodes[i].parent] == nodes[nodes[i].parent];
      }
    }
  }

  /** What is complete stays so when nodes are added elsewhere. */
  lemma CompleteStays(t: Tables, nodes: seq<ShareNode>, more: seq<ShareNode>, q: nat)
    requires t.Valid() && nodes <= more && q < |nodes| && Complete(t, nodes, q)
    requires forall i | |nodes| <= i < |more| :: more[i].parent != q
    ensures Complete(t, more, q)
  {
    KidsUsagePrefix(nodes, more, q, |nodes|);
    KidsUsageSame(more, q, |nodes|, |more|);
  }

  /** A user is added below p. */
  lemma UserGrown(t: Tables, root: nat, p: nat, start: seq<ShareNode>, nodes: seq<ShareNode>, j: nat)
    requires t.Valid() && root < |t.s.banks| && Grown(t, root, p, start, nodes)
    requires p < |start| && !start[p].isUser && j < |t.s.assocs| && t.s.assocs[j].bank == start[p].shortname
    ensures Grown(t, root, p, start, nodes + [t.UserNode(j, p, nodes[p].depth + 1)])
  {
    var c := t.UserNode(j, p, nodes[p].depth + 1);
    var more := nodes + [c];
    assert more[|nodes|] == c && more[p] == nodes[p] == start[p];
    StandingSnoc(t, root, nodes, c);
    forall i | |start| <= i < |more| && !more[i].isUser ensures Complete(t, more, i) {
      CompleteStays(t, nodes, more, i);
    }
  }

  lemma BankStands(t: Tables, root: nat, p: nat, nodes: seq<ShareNode>, j: nat)
    requires t.Valid() && root < |t.s.banks| && Standing(t, root, nodes)
    requires p < |nodes| && !nodes[p].isUser && j < |t.s.banks| && t.s.banks[j].parent == nodes[p].shortname
    ensures Standing(t, root, nodes + [t.BankNode(j, p, nodes[p].depth + 1)])
  {
    var c := t.BankNode(j, p, nodes[p].depth + 1);
    assert (nodes + [c])[|nodes|] == c && (nodes + [c])[p] == nodes[p];
    StandingSnoc(t, root, nodes, c);
  }

  /** Where nodes hang after a bank and what lies below it have been added. */
  lemma BankParents(t: Tables, root: nat, p: nat, nodes: seq<ShareNode>, c: ShareNode, more: seq<ShareNode>)
    requires t.Valid() && root < |t.s.banks| && c.parent == p && Grown(t, root, |nodes|, nodes + [c], more)
    ensures nodes <= more && |nodes| < |more| && more[|nodes|] == c
    ensures forall i | |nodes| < i < |more| :: |nodes| <= more[i].parent
  {
    assert (nodes + [c])[|nodes|] == c && |nodes + [c]| == |nodes| + 1;
    assert forall i | 0 <= i < |nodes| :: (nodes + [c])[i] == nodes[i];
  }

  /** A bank with everything below it is added below p. */
  lemma BankGrown(t: Tables, root: nat, p: nat, start: seq<ShareNode>, nodes: seq<ShareNode>, c: ShareNode,
                  more: seq<ShareNode>)
    requires t.Valid() && root < |t.s.banks| && Grown(t, root, p, start, nodes) && p < |start|
    requires c.parent == p && Grown(t, root, |nodes|, nodes + [c], more) && Complete(t, more, |nodes|)
    ensures Grown(t, root, p, start, more)
  {
    BankParents(t, root, p, nodes, c, more);
    forall i | |start| <= i < |more| && !more[i].isUser ensures Complete(t, more, i) {
      if i < |nodes| {
        CompleteStays(t, nodes, more, i);
      }
    }
    assert forall i | |start| <= i < |nodes| :: more[i] == nodes[i];
  }

  /** One more child, and more nodes that are none. */
  lemma ChildCharged(nodes: seq<ShareNode>, c: ShareNode, more: seq<ShareNode>, p: nat)
    requires nodes + [c] <= more && c.parent == p && forall i | |nodes| < i < |more| :: more[i].parent != p
    ensures KidsUsage(more, p, |more|) == KidsUsage(nodes, p, |nodes|) + c.usage
  {
    KidsUsageSnoc(nodes, c, p);
    KidsUsagePrefix(nodes + [c], more, p, |nodes| + 1);
    KidsUsageSame(more, p, |nodes| + 1, |more|);
  }

  lemma BankCharged(t: Tables, root: nat, p: nat, nodes: seq<ShareNode>, c: ShareNode, more: seq<ShareNode>)
    requires t.Valid() && root < |t.s.banks| && p < |nodes| && c.parent == p
    requires Grown(t, root, |nodes|, nodes + [c], more)
    ensures KidsUsage(more, p, |more|) == KidsUsage(nodes, p, |nodes|) + c.usage
  {
    BankParents(t, root, p, nodes, c, more);
    ChildCharged(nodes, c, more, p);
  }

  class Builder {
    const t: Tables
    const root: nat
    var nodes: seq<ShareNode>

    constructor (t: Tables, root: nat)
      requires t.Valid() && root < |t.s.banks|
      ensures this.t == t && this.root == root && nodes == [t.BankNode(root, -1, 0)]
    {
      this.t, this.root := t, root;
      nodes := [ShareNode(t.s.banks[root].name, -1, false, t.s.banks[root].shares, t.stored[root], 0)];
    }

    /** The sub-banks of a bank with everything below them, then its users. */
    method BuildTree(b: string, p: nat)
      requires t.Valid() && root < |t.s.banks| && Standing(t, root, nodes) && b != ""
      requires p < |nodes| && !nodes[p].isUser && nodes[p].shortname == b
      requires forall i | 0 <= i < |nodes| :: nodes[i].parent != p
      modifies this
      ensures Grown(t, root, p, old(nodes), nodes) && Complete(t, nodes, p)
      decreases t.s.maxDepth + 1 - t.s.Depth(b), 1
    {
      ghost var start := nodes;
      KidsUsageSame(nodes, p, 0, |nodes|);
      for i := 0 to |t.s.banks|
        invariant Grown(t, root, p, start, nodes)
        invariant KidsUsage(nodes, p, |nodes|) == StoredSum(t.s.banks, t.stored, b, i)
      {
        if t.s.banks[i].parent == b {
          AddBank(b, p, i, start);
        }
      }
      AddUsers(b, p, start);
    }

    /** One sub-bank. */
    method AddBank(b: string, p: nat, i: nat, ghost start: seq<ShareNode>)
      requires t.Valid() && root < |t.s.banks| && b != "" && i < |t.s.banks| && t.s.banks[i].parent == b
      requires p < |start| && !start[p].isUser && start[p].shortname == b && Grown(t, root, p, start, nodes)
      modifies this
      ensures Grown(t, root, p, start, nodes)
      ensures KidsUsage(nodes, p, |nodes|) == KidsUsage(old(nodes), p, |old(nodes)|) + t.stored[i]
      decreases t.s.maxDepth + 1 - t.s.Depth(b), 0
    {
      ghost var before := nodes;
      var c := ShareNode(t.s.banks[i].name, p, false, t.s.banks[i].shares, t.stored[i], nodes[p].depth + 1);
      BankStands(t, root, p, nodes, i);
      nodes := nodes + [c];
      NothingAt(t, root, nodes, |before|);
      BuildTree(t.s.banks[i].name, |nodes| - 1);
      BankGrown(t, root, p, start, before, c, nodes);
      BankCharged(t, root, p, before, c, nodes);
    }

    /** The users of a bank. */
    method AddUsers(b: string, p: nat, ghost start: seq<ShareNode>)
      requires t.Valid() && root < |t.s.banks| && p < |start| && !start[p].isUser && start[p].shortname == b
      requires Grown(t, root, p, start, nodes)
      requires KidsUsage(nodes, p, |nodes|) == StoredSum(t.s.banks, t.stored, b, |t.s.banks|)
      modifies this
      ensures Grown(t, root, p, start, nodes) && Complete(t, nodes, p)
    {
      ghost var sum := KidsUsage(nodes, p, |nodes|);
      for i := 0 to |t.s.assocs|
        invariant Grown(t, root, p, start, nodes)
        invariant KidsUsage(nodes, p, |nodes|) == sum + Charged(t.s.assocs[..i], t.used[..i], b)
      {
        ChargedNext(t.s.assocs, t.used, b, i);
        if t.s.assocs[i].bank == b {
          var c := ShareNode(t.s.assocs[i].username, p, true, t.s.assocs[i].shares, t.used[i], nodes[p].depth + 1);
          UserGrown(t, root, p, start, nodes, i);
          KidsUsageSnoc(nodes, c, p);
          nodes := nodes + [c];
        }
      }
      assert t.s.assocs[..|t.s.assocs|] == t.s.assocs && t.used[..|t.used|] == t.used;
    }
  }

  lemma ChargedNext(assocs: seq<Assoc>, used: seq<real>, b: string, i: nat)
    requires i < |assocs| == |used|
    ensures Charged(assocs[..i + 1], used[..i + 1], b)
         == Charged(assocs[..i], used[..i], b) + if assocs[i].bank == b then used[i] else 0.0
  {
    assert assocs[..i + 1][..i] == assocs[..i] && used[..i + 1][..i] == used[..i];
  }

  /** A node just added has no children. */
  lemma NothingAt(t: Tables, root: nat, nodes: seq<ShareNode>, k: nat)
    requires t.Valid() && root < |t.s.banks| && Standing(t, root, nodes) && k == |nodes| - 1
    ensures forall i | 0 <= i < |nodes| :: nodes[i].parent != k
  {
    forall i | 0 < i < |nodes| ensures nodes[i].parent != k {
      assert Stands(t, nodes, i);
    }
  }

  // ----- the tree as a whole -----

  /** All that the tables hold below the root is there. */
  ghost predicate Built(t: Tables, root: nat, nodes: seq<ShareNode>)
    requires t.Valid() && root < |t.s.banks|
  {
    Standing(t, root, nodes) && forall i | 0 <= i < |nodes| && !nodes[i].isUser :: Complete(t, nodes, i)
  }

  lemma BuiltIsWellFormed(t: Tables, root: nat, nodes: seq<ShareNode>)
    requires t.Valid() && root < |t.s.banks| && Standing(t, root, nodes)
    ensures WellFormed(nodes)
  {
    forall i | 0 < i < |nodes|
      ensures 0 <= nodes[i].parent < |nodes| && !nodes[nodes[i].parent].isUser
      ensures nodes[i].depth == nodes[nodes[i].parent].depth + 1
    {
      assert Stands(t, nodes, i);
    }
  }

  lemma {:induction false} ValueIsUsage(nodes: seq<ShareNode>, p: nat, n: nat)
    requires n <= |nodes|
    ensures ValueSum(nodes, UsageAt(nodes), p, n) == KidsUsage(nodes, p, n)
  {
    if n != 0 {
      ValueIsUsage(nodes, p, n - 1);
    }
  }

  /** The row of a bank's node. */
  lemma RowOf(t: Tables, root: nat, nodes: seq<ShareNode>, p: nat) returns (j: nat)
    requires t.Valid() && root < |t.s.banks| && Standing(t, root, nodes) && p < |nodes| && !nodes[p].isUser
    ensures j < |t.s.banks| && nodes[p] == t.BankNode(j, nodes[p].parent, nodes[p].depth)
  {
    if p == 0 {
      j := root;
    } else {
      assert Stands(t, nodes, p);
      j :| 0 <= j < |t.s.banks| && nodes[p] == t.BankNode(j, nodes[p].parent, nodes[p].depth);
    }
  }

  lemma {:induction false} NothingStored(banks: seq<Bank>, stored: seq<real>, b: string, n: nat)
    requires n <= |banks| == |stored| && forall i | 0 <= i < |banks| :: banks[i].parent != b
    ensures StoredSum(banks, stored, b, n) == 0.0
  {
    if n != 0 {
      NothingStored(banks, stored, b, n - 1);
    }
  }

  lemma {:induction false} NobodyCharged(assocs: seq<Assoc>, used: seq<real>, b: string)
    requires |used| == |assocs| && forall i | 0 <= i < |assocs| :: assocs[i].bank != b
    ensures Charged(assocs, used, b) == 0.0
  {
    if assocs != [] {
      NobodyCharged(assocs[..|assocs| - 1], used[..|assocs| - 1], b);
    }
  }

  /** With banks that have only sub-banks or only associations, and a consistent
      bank table, what a bank stores is what its children have used. */
  lemma KidsTotalIsStored(t: Tables, j: nat)
    requires t.Valid() && t.Pure() && Consistent(t.s, t.stored, t.used) && j < |t.s.banks|
    ensures t.KidsTotal(t.s.banks[j].name) == t.stored[j]
  {
    var b := t.s.banks[j].name;
    assert Right(t.s, t.stored, t.used, j);
    if t.s.HasSubBanks(b) {
      forall i | 0 <= i < |t.s.assocs| ensures t.s.assocs[i].bank != b {
        assert !t.s.HasSubBanks(t.s.assocs[i].bank);
      }
      NobodyCharged(t.s.assocs, t.used, b);
      StoredIsSubTotal(t.s, t.stored, t.used, b, |t.s.banks|);
    } else {
      NothingStored(t.s.banks, t.stored, b, |t.s.banks|);
    }
  }

  /** Then the usages stored in the tables add up in the tree. */
  lemma StoredAddsUp(t: Tables, root: nat, nodes: seq<ShareNode>)
    requires t.Valid() && root < |t.s.banks| && Built(t, root, nodes)
    requires t.Pure() && Consistent(t.s, t.stored, t.used)
    ensures WellFormed(nodes) && AddsUp(nodes, UsageAt(nodes))
  {
    BuiltIsWellFormed(t, root, nodes);
    forall p | 0 <= p < |nodes| && HasChildren(nodes, p)
      ensures ValueSum(nodes, UsageAt(nodes), p, |nodes|) == UsageAt(nodes)(p)
    {
      var i :| 0 <= i < |nodes| && nodes[i].parent == p;
      var j := RowOf(t, root, nodes, p);
      assert Complete(t, nodes, p);
      KidsTotalIsStored(t, j);
      ValueIsUsage(nodes, p, |nodes|);
    }
  }

  /** And with positive shares each bank with children has shares in one kind of them. */
  lemma OneKind(t: Tables, root: nat, nodes: seq<ShareNode>, p: nat)
    requires t.Valid() && root < |t.s.banks| && Built(t, root, nodes) && t.Pure() && t.PositiveShares()
    requires WellFormed(nodes) && p < |nodes| && HasChildren(nodes, p)
    ensures KindsWithShares(nodes, p) == 1
  {
    var b := nodes[p].shortname;
    forall i | 0 <= i < |nodes| && nodes[i].parent == p
      ensures nodes[i].shares > 0 && nodes[i].isUser == !t.s.HasSubBanks(b)
    {
      assert Stands(t, nodes, i);
      if nodes[i].isUser {
        var j :| 0 <= j < |t.s.assocs| && t.s.assocs[j].bank == b && nodes[i] == t.UserNode(j, p, nodes[i].depth);
        assert !t.s.HasSubBanks(t.s.assocs[j].bank);
      } else {
        var j :| 0 <= j < |t.s.banks| && t.s.banks[j].parent == b && nodes[i] == t.BankNode(j, p, nodes[i].depth);
      }
    }
    OneKindHasShares(nodes, p, !t.s.HasSubBanks(b));
  }

  /** The share tree of the tables, with normalized shares and usage.  Where every
      bank has only sub-banks or only associations, the leaves' shares add up to one
      if shares are positive, and their usages if the bank table is consistent. */
  method BuildShareTree(t: Tables, root: nat) returns (tree: Tree)
    requires t.Valid() && root < |t.s.banks|
    ensures Built(t, root, tree.nodes) && WellFormed(tree.nodes) && |tree.nshares| == |tree.nusage| == |tree.nodes|
    ensures forall i | 0 <= i < |tree.nodes| :: tree.nshares[i] == Part(tree.nodes, i)
    ensures t.stored[root] > 0.0 ==>
              forall i | 0 <= i < |tree.nodes| :: tree.nusage[i] == NormalUsageAt(tree.nodes)(i)
    ensures t.Pure() && t.PositiveShares() && RootNameOnce(tree.nodes)
            ==> Leaves(tree.nodes, PartAt(tree.nodes), 0) == 1.0
    ensures t.Pure() && Consistent(t.s, t.stored, t.used) && t.stored[root] > 0.0 ==>
              Leaves(tree.nodes, NormalUsageAt(tree.nodes), 0) == 1.0
  {
    var builder := new Builder(t, root);
    builder.BuildTree(t.s.banks[root].name, 0);
    var nodes := builder.nodes;
    BuiltIsWellFormed(t, root, nodes);
    LeavesAddToOne(t, root, nodes);
    tree := new Tree(nodes);
    tree.NormalizeShares();
    tree.NormalizeUsage();
  }

  lemma LeavesAddToOne(t: Tables, root: nat, nodes: seq<ShareNode>)
    requires t.Valid() && root < |t.s.banks| && Built(t, root, nodes) && WellFormed(nodes)
    ensures t.Pure() && t.PositiveShares() && RootNameOnce(nodes) ==> Leaves(nodes, PartAt(nodes), 0) == 1.0
    ensures t.Pure() && Consistent(t.s, t.stored, t.used) && t.stored[root] > 0.0 ==>
              nodes[0].usage > 0.0 && Leaves(nodes, NormalUsageAt(nodes), 0) == 1.0
  {
    if t.Pure() && t.PositiveShares() && RootNameOnce(nodes) {
      forall p | 0 <= p < |nodes| && HasChildren(nodes, p) ensures KindsWithShares(nodes, p) == 1 {
        OneKind(t, root, nodes, p);
      }
      LeavesAreOne(nodes);
    }
    if t.Pure() && Consistent(t.s, t.stored, t.used) && t.stored[root] > 0.0 {
      StoredAddsUp(t, root, nodes);
      UsageIsOne(nodes);
    }
  }
}
