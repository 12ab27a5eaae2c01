/// Giving the virtual nodes of a finished tie-aware list their place in the
/// tree: which subtrees they own and on which paths their users stand.

module Adoption {
  import opened WeightedTree
  import opened VirtualNode
  import opened TieAwareList
  import opened StandIn

  /** A virtual node over a tied run is ready once its children are sorted. */
  lemma VirtualReady(n: Node, vc: Node, banks: seq<Node>)
    requires Underway(n) && SomeBanks(n, banks) && vc.Tree()
    requires Reordering(Grand(banks), vc.children) && Node.Sorted(vc.children)
    requires vc.repr <= Owned(banks) + {vc}
    ensures vc.Ready()
  {
    forall c | c in vc.children ensures c.weight == c.trueWeight {
      ReorderingMembers(Grand(banks), vc.children);
      GrandMember(banks, c);
      var b :| b in banks && c in b.children;
      assert b.ChildrenReady();
    }
    forall m | m in vc.repr && m != vc ensures m.Weighted() && !m.tieWithNext {
      var b :| b in banks && m in b.repr;
      assert n.Shape() && b in n.repr && m != n && m in n.repr;
      if m.tieWithNext {
        assert false;
      }
    }
  }

  /** A virtual node that owns a run of tied banks stands for it. */
  lemma RunStandsFor(n: Node, vc: Node, lo: nat, hi: nat, banks: seq<Node>)
    requires Underway(n) && TiedRun(n, lo, hi)
    requires banks == n.children[lo..hi]
    requires vc.Ready() && vc.height < n.height && vc !in n.repr && !vc.isUser
    requires vc.trueWeight == n.children[lo].trueWeight
    requires vc.repr <= Owned(banks) + {vc} && vc.paths == UsersBelow(banks)
    ensures StandsFor(n, vc, lo, hi)
  {
    RunBanks(n, lo, hi);
    forall j | lo <= j < hi ensures n.children[j].trueWeight == vc.trueWeight && n.children[j] in banks {
      RunWeights(n, lo, hi, lo, j);
      assert n.children[j] == banks[j - lo];
    }
    forall u | u in vc.paths ensures exists j :: lo <= j < hi && u in n.children[j].paths {
      var b :| b in banks && u in b.paths;
      var k :| 0 <= k < |banks| && banks[k] == b;
      assert n.children[lo + k] == b;
    }
    forall j, u | lo <= j < hi && u in n.children[j].paths
      ensures u in vc.paths && vc.paths[u] == n.children[j].paths[u]
    {
      UserBelow(n, banks, n.children[j], u);
    }
  }

  /** A virtual node that holds the children of some banks takes over what is below
      them; the banks stay as they are. */
  ghost method AdoptBanks(n: Node, vc: Node, banks: seq<Node>, weight: real)
    requires Underway(n) && SomeBanks(n, banks) && vc !in n.repr && !vc.isUser && 1 <= n.height
    requires Reordering(Grand(banks), vc.children)
    modifies vc`repr, vc`height, vc`trueWeight, vc`paths
    ensures Underway(n) && vc.Tree() && vc.height < n.height && vc.trueWeight == weight
    ensures Grand(banks) == old(Grand(banks)) && Reordering(Grand(banks), vc.children)
    ensures vc.repr <= Owned(banks) + {vc} && vc.paths == UsersBelow(banks)
  {
    assert n.Shape();
    assert forall b | b in banks :: b in n.repr && b != vc;
    ghost var grand, owned, users := Grand(banks), Owned(banks), UsersBelow(banks);
    Adopt(n, banks, weight, vc);
    assert grand == Grand(banks) && owned == Owned(banks) && users == UsersBelow(banks);
    UnderwayStays(n);
  }

  /** A virtual node that holds the sorted children of a run takes over the run. */
  ghost method AdoptRun(n: Node, vc: Node, lo: nat, hi: nat)
    requires Underway(n) && TiedRun(n, lo, hi)
    requires vc !in n.repr && !vc.isUser
    requires Reordering(Grand(n.children[lo..hi]), vc.children) && Node.Sorted(vc.children)
    modifies vc`repr, vc`height, vc`trueWeight, vc`paths
    ensures StandsFor(n, vc, lo, hi)
  {
    var banks := n.children[lo..hi];
    RunBanks(n, lo, hi);
    assert n.Shape();
    AdoptBanks(n, vc, banks, n.children[lo].trueWeight);
    AdoptedStandsFor(n, vc, lo, hi, banks);
  }

  lemma AdoptedStandsFor(n: Node, vc: Node, lo: nat, hi: nat, banks: seq<Node>)
    requires Underway(n) && TiedRun(n, lo, hi) && banks == n.children[lo..hi]
    requires vc.Tree() && vc.height < n.height && vc !in n.repr && !vc.isUser
    requires Reordering(Grand(banks), vc.children) && Node.Sorted(vc.children)
    requires vc.trueWeight == n.children[lo].trueWeight
    requires vc.repr <= Owned(banks) + {vc} && vc.paths == UsersBelow(banks)
    ensures StandsFor(n, vc, lo, hi)
  {
    RunBanks(n, lo, hi);
    VirtualReady(n, vc, banks);
    RunStandsFor(n, vc, lo, hi, banks);
  }

  lemma {:induction false} MergedIsGrand(nodes: seq<Node>, cs: seq<Child>)
    requires |cs| == |nodes| && forall i | 0 <= i < |cs| :: cs[i].kids == nodes[i].children
    ensures Merged(cs) == Grand(nodes)
  {
    if cs != [] {
      MergedIsGrand(nodes[..|nodes| - 1], cs[..|cs| - 1]);
    }
  }

  /** The part of the list up to entry k. */
  ghost function Upto(p: Progress, k: nat): Progress
    requires k <= |p.tac| && |p.cut| == |p.tac| + 1
  {
    Progress(p.cut[k], p.tac[..k], p.cut[..k + 1], p.kids)
  }

  /** What the snapshot says about ties is what the children say. */
  lemma RunIsTied(n: Node, cs: seq<Child>, lo: nat, hi: nat)
    requires Pictured(cs, n.children) && Run(cs, lo, hi)
    ensures TiedRun(n, lo, hi)
  {
    forall j | lo <= j < hi ensures n.IsChildWeightEqualToNext(j) == EqualToNext(cs, j) {
    }
  }

  /** A listed child stands for itself. */
  lemma ChildStandsFor(n: Node, cs: seq<Child>, p: Progress, k: nat)
    requires Underway(n) && Pictured(cs, n.children) && Listed(cs, p)
    requires k < |p.tac| && p.tac[k] !in p.kids
    ensures StandsFor(n, p.tac[k], p.cut[k], p.cut[k + 1])
  {
    assert ListedEntry(cs, p, k);
    var lo := p.cut[k];
    assert n.IsChildWeightEqualToNext(lo) == EqualToNext(cs, lo);
    if n.children[lo].isUser {
      UserStandsFor(n, lo);
    } else {
      BankStandsFor(n, lo);
    }
  }

  /** A listed virtual node is given its place: from then on it stands for its run. */
  ghost method AdoptListed(n: Node, cs: seq<Child>, p: Progress, k: nat)
    requires Underway(n) && Pictured(cs, n.children) && Listed(cs, p) && VirtualsHold(p)
    requires k < |p.tac| && p.tac[k] in p.kids && p.tac[k] !in n.repr
    modifies {p.tac[k]}`repr, {p.tac[k]}`height, {p.tac[k]}`trueWeight, {p.tac[k]}`paths
    ensures StandsFor(n, p.tac[k], p.cut[k], p.cut[k + 1])
  {
    var vc, lo, hi := p.tac[k], p.cut[k], p.cut[k + 1];
    assert ListedEntry(cs, p, k);
    RunIsTied(n, cs, lo, hi);
    MergedIsGrand(n.children[lo..hi], cs[lo..hi]);
    AdoptRun(n, vc, lo, hi);
  }

  /** Give every virtual node of the list its place. */
  ghost method AdoptAll(n: Node, cs: seq<Child>, p: Progress)
    requires Underway(n) && Pictured(cs, n.children) && Listed(cs, p) && VirtualsHold(p)
    requires p.kids.Keys !! n.repr
    modifies p.kids.Keys`repr, p.kids.Keys`height, p.kids.Keys`trueWeight, p.kids.Keys`paths
    ensures Underway(n) && Built(n, p)
  {
    for k := 0 to |p.tac|
      invariant Underway(n) && Built(n, Upto(p, k))
    {
      AdoptNext(n, cs, p, k);
    }
    assert Upto(p, |p.tac|) == p;
  }

  lemma UptoPush(p: Progress, k: nat)
    requires k < |p.tac| && |p.cut| == |p.tac| + 1
    ensures Upto(p, k).Push(p.tac[k], p.cut[k + 1]) == Upto(p, k + 1)
    ensures Upto(p, k).lo == p.cut[k] && Upto(p, k).tac == p.tac[..k]
  {
  }

  /** A listed child is the next entry as it is. */
  lemma AdoptChild(n: Node, cs: seq<Child>, p: Progress, k: nat)
    requires Underway(n) && Pictured(cs, n.children) && Listed(cs, p)
    requires k < |p.tac| && p.tac[k] !in p.kids && Built(n, Upto(p, k))
    ensures Built(n, Upto(p, k + 1))
  {
    assert ListedEntry(cs, p, k);
    UptoPush(p, k);
    ChildStandsFor(n, cs, p, k);
    ChildOutside(n, Upto(p, k));
    BuiltPush(n, Upto(p, k), p.tac[k], p.cut[k + 1]);
  }

  ghost method AdoptVirtual(n: Node, cs: seq<Child>, p: Progress, k: nat)
    requires Underway(n) && Pictured(cs, n.children) && Listed(cs, p) && VirtualsHold(p)
    requires k < |p.tac| && p.tac[k] in p.kids && p.tac[k] !in n.repr && Built(n, Upto(p, k))
    modifies {p.tac[k]}`repr, {p.tac[k]}`height, {p.tac[k]}`trueWeight, {p.tac[k]}`paths
    ensures Built(n, Upto(p, k + 1))
  {
    UptoPush(p, k);
    OutsideEntries(n, Upto(p, k), p.tac[k]);
    AdoptListed(n, cs, p, k);
    BuiltStays(Listing(n, Upto(p, k)));
    BuiltPush(n, Upto(p, k), p.tac[k], p.cut[k + 1]);
  }

  ghost method AdoptNext(n: Node, cs: seq<Child>, p: Progress, k: nat)
    requires Underway(n) && Pictured(cs, n.children) && Listed(cs, p) && VirtualsHold(p)
    requires p.kids.Keys !! n.repr && k < |p.tac| && Built(n, Upto(p, k))
    modifies p.kids.Keys`repr, p.kids.Keys`height, p.kids.Keys`trueWeight, p.kids.Keys`paths
    ensures Underway(n) && Built(n, Upto(p, k + 1))
  {
    if p.tac[k] in p.kids {
      AdoptVirtual(n, cs, p, k);
      UnderwayStays(n);
    } else {
      AdoptChild(n, cs, p, k);
    }
  }
}
