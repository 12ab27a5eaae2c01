/// The tie-aware child list of a bank: users keep their place and carry tie
/// flags, a run of tied banks is replaced by one virtual node.

module TieAwareList {
  import opened WeightedTree

  /** What the list is made from: the children as they are when it is built. */
  datatype Child = Child(node: Node, isUser: bool, weight: real, kids: seq<Node>)

  /** The picture cs of the nodes is still true. */
  ghost predicate Pictured(cs: seq<Child>, nodes: seq<Node>)
    reads nodes`weight, nodes`children
  {
    && |cs| == |nodes|
    && forall i {:trigger cs[i]} {:trigger nodes[i]} | 0 <= i < |nodes| ::
         cs[i] == Child(nodes[i], nodes[i].isUser, nodes[i].weight, nodes[i].children)
  }

  ghost function Snapshot(nodes: seq<Node>): (cs: seq<Child>)
    reads nodes`weight, nodes`children
    ensures Pictured(cs, nodes)
  {
    if nodes == [] then []
    else Snapshot(nodes[..|nodes| - 1]) + [Child(nodes[|nodes| - 1], nodes[|nodes| - 1].isUser,
                                                 nodes[|nodes| - 1].weight, nodes[|nodes| - 1].children)]
  }

  ghost predicate EqualToNext(cs: seq<Child>, i: nat)
  {
    i + 1 < |cs| && cs[i].isUser == cs[i + 1].isUser && cs[i].weight == cs[i + 1].weight
  }

  /** The children of several banks, in order. */
  ghost function Merged(cs: seq<Child>): seq<Node>
  {
    if cs == [] then [] else Merged(cs[..|cs| - 1]) + cs[|cs| - 1].kids
  }

  /** The children lo..hi are a whole run of tied banks: each ties with its
      successor, except the last. */
  ghost predicate Run(cs: seq<Child>, lo: nat, hi: nat)
  {
    && lo + 1 < hi <= |cs|
    && (forall j | lo <= j < hi :: !cs[j].isUser)
    && (forall j | lo <= j < hi :: EqualToNext(cs, j) <==> j + 1 < hi)
  }

  /** Child i and all from lo on are banks, and all before i tie with their successor. */
  ghost predicate OpenRun(cs: seq<Child>, lo: nat, i: nat)
  {
    && lo <= i < |cs|
    && (forall j | lo <= j <= i :: !cs[j].isUser)
    && (forall j | lo <= j < i :: EqualToNext(cs, j))
  }

  ghost function Nodes(cs: seq<Child>): set<Node>
  {
    set c | c in cs :: c.node
  }

  /** Of the children before i, users that tie with their successor are flagged,
      and nobody else is. */
  ghost predicate TiesUpTo(cs: seq<Child>, i: nat)
    reads Nodes(cs)`tieWithNext
  {
    forall j | 0 <= j < |cs| :: cs[j].node.tieWithNext == (j < i && cs[j].isUser && EqualToNext(cs, j))
  }

  /** How far the tie-aware child list has been built: entry k stands for the
      children from cut[k] up to cut[k + 1], lo children are covered, and kids
      gives the children of the virtual nodes among the entries. */
  datatype Progress = Progress(lo: nat, tac: seq<Node>, cut: seq<nat>, kids: map<Node, seq<Node>>)
  {
    /** With a child as the next entry. */
    function Push(e: Node, hi: nat): Progress {
      Progress(hi, tac + [e], cut + [hi], kids)
    }

    /** With a virtual node as the next entry. */
    function PushVirtual(vc: Node, children: seq<Node>, hi: nat): Progress {
      Progress(hi, tac + [vc], cut + [hi], kids[vc := children])
    }
  }

  ghost function KidsOf(p: Progress): set<Node>
  {
    set e, c | e in p.kids && c in p.kids[e] :: c
  }

  /** Entry k is a child that is in no run of tied banks, or a virtual node with
      all children of such a run. */
  ghost predicate ListedEntry(cs: seq<Child>, p: Progress, k: nat)
    requires |p.cut| == |p.tac| + 1 && k < |p.tac|
  {
    var e, lo, hi := p.tac[k], p.cut[k], p.cut[k + 1];
    && lo < hi <= |cs|
    && if e in p.kids then Run(cs, lo, hi) && Reordering(Merged(cs[lo..hi]), p.kids[e])
       else hi == lo + 1 && e == cs[lo].node && (!cs[lo].isUser ==> !EqualToNext(cs, lo))
  }

  /** The list as the code builds it. */
  ghost predicate Listed(cs: seq<Child>, p: Progress)
  {
    && |p.cut| == |p.tac| + 1 && p.cut[0] == 0 && p.cut[|p.tac|] == p.lo
    && (forall k | 0 <= k < |p.tac| :: ListedEntry(cs, p, k))
    && (forall k, l | 0 <= k < l < |p.tac| && p.tac[l] in p.kids :: p.tac[k] != p.tac[l])
  }

  /** The virtual nodes listed so far hold the children recorded for them. */
  ghost predicate VirtualsHold(p: Progress)
    reads p.kids.Keys`children, KidsOf(p)`weight
  {
    && (forall e | e in p.kids :: e.children == p.kids[e] && !e.isUser)
    && (forall e, c | e in p.kids && c in p.kids[e] :: c in KidsOf(p))
    && (forall e | e in p.kids :: Node.Sorted(p.kids[e]))
  }

  lemma MergedSnoc(cs: seq<Child>, lo: nat, i: nat)
    requires lo <= i < |cs|
    ensures Merged(cs[lo..i + 1]) == Merged(cs[lo..i]) + cs[i].kids
  {
    assert cs[lo..i + 1][..i - lo] == cs[lo..i];
  }

  lemma ListPush(cs: seq<Child>, p: Progress)
    requires Listed(cs, p) && p.lo < |cs| && cs[p.lo].node !in p.kids
    requires cs[p.lo].isUser || !EqualToNext(cs, p.lo)
    ensures Listed(cs, p.Push(cs[p.lo].node, p.lo + 1))
  {
    var q := p.Push(cs[p.lo].node, p.lo + 1);
    forall k | 0 <= k < |q.tac| ensures ListedEntry(cs, q, k) {
      if k < |p.tac| {
        assert ListedEntry(cs, p, k);
      }
    }
  }

  lemma ListPushVirtual(cs: seq<Child>, p: Progress, vc: Node, kids: seq<Node>, i: nat)
    requires Listed(cs, p) && vc !in p.kids && vc !in p.tac
    requires p.lo < i && OpenRun(cs, p.lo, i) && !EqualToNext(cs, i)
    requires Reordering(Merged(cs[p.lo..i + 1]), kids)
    ensures Listed(cs, p.PushVirtual(vc, kids, i + 1))
  {
    var q := p.PushVirtual(vc, kids, i + 1);
    assert Run(cs, p.lo, i + 1);
    forall k | 0 <= k < |q.tac| ensures ListedEntry(cs, q, k) {
      if k < |p.tac| {
        EarlierEntry(cs, p, vc, kids, i, k);
      }
    }
  }

  lemma EarlierEntry(cs: seq<Child>, p: Progress, vc: Node, kids: seq<Node>, i: nat, k: nat)
    requires Listed(cs, p) && vc !in p.tac && k < |p.tac|
    ensures ListedEntry(cs, p.PushVirtual(vc, kids, i + 1), k)
  {
    assert ListedEntry(cs, p, k) && p.tac[k] != vc;
  }

  /** The state of the list before child i: while a run of tied banks is open,
      the virtual node holds the children of its banks so far. */
  ghost predicate Building(cs: seq<Child>, i: nat, tac: seq<Node>, stride: bool, vc: Node?, p: Progress)
    reads Nodes(cs)`tieWithNext, p.kids.Keys`children, KidsOf(p)`weight, (if vc == null then {} else {vc})`children
  {
    && TiesUpTo(cs, i) && p.tac == tac && Listed(cs, p) && VirtualsHold(p)
    && if stride then
         && p.lo < i && OpenRun(cs, p.lo, i)
         && vc != null && vc !in p.kids && vc !in tac && !vc.isUser
         && vc.children == Merged(cs[p.lo..i])
       else p.lo == i
  }
}
