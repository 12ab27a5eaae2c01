/// What an entry of the tie-aware list stands for.

module StandIn {
  import opened VisitOrder
  import opened WeightedTree
  import opened VirtualNode
  import opened TieAwareList

  /** What a node contributes to its parent's tie-aware child list. */
  ghost function EntryOf(n: Node): Entry<Node>
    reads n`trueWeight, n`tieWithNext, n`paths
  {
    if n.isUser then UserEntry(n.trueWeight, n, n.tieWithNext) else BankEntry(n.trueWeight, n.paths)
  }

  ghost function Entries(s: seq<Node>): (es: seq<Entry<Node>>)
    reads s`trueWeight, s`tieWithNext, s`paths
    ensures |es| == |s| && forall i | 0 <= i < |s| :: es[i] == EntryOf(s[i])
  {
    if s == [] then [] else [EntryOf(s[0])] + Entries(s[1..])
  }

  /** Entry e stands for the children lo..hi of n: one child itself, or a
      virtual node in the place of a run of tied banks. */
  ghost predicate StandsFor(n: Node, e: Node, lo: nat, hi: nat)
    reads n`children, n`height, n`repr, e, e.repr
    reads n.children`weight, n.children`trueWeight, n.children`paths, n.children`repr
  {
    && lo < hi <= |n.children|
    && e.Ready() && e.height < n.height
    && (forall j | lo <= j < hi :: n.children[j].isUser == e.isUser && n.children[j].trueWeight == e.trueWeight)
    && (e.isUser ==> hi == lo + 1 && e == n.children[lo])
    && (!e.isUser ==> !n.IsChildWeightEqualToNext(hi - 1))
    && (e in n.children[lo..hi] || e !in n.repr)
    && e.repr <= Owned(n.children[lo..hi]) + {e}
    && (forall u | u in e.paths :: exists j :: lo <= j < hi && u in n.children[j].paths)
    && (forall j, u | lo <= j < hi && u in n.children[j].paths :: u in e.paths && e.paths[u] == n.children[j].paths[u])
  }

  /** The children lo..hi of n are a whole run of tied banks: each ties with its
      successor, except the last. */
  ghost predicate TiedRun(n: Node, lo: nat, hi: nat)
    reads n`children, n.children`weight
  {
    && lo + 1 < hi <= |n.children|
    && (forall j | lo <= j < hi :: !n.children[j].isUser)
    && (forall j | lo <= j < hi :: n.IsChildWeightEqualToNext(j) <==> j + 1 < hi)
  }

  /** What the children of n look like while its child list is being built:
      only tie flags of users among them have been raised. */
  ghost predicate Underway(n: Node)
    reads n, n.repr
  {
    && n.Tree() && n.ChildrenReady() && !n.isUser
    && (forall m {:trigger m.Weighted()} | m in n.repr && m != n :: m.Weighted())
    && (forall m {:trigger m.tieWithNext} | m in n.repr && m != n && m.tieWithNext :: m.isUser && m in n.children)
    && (forall c {:trigger c.ChildrenReady()} | c in n.children :: c.ChildrenReady())
  }

  lemma {:induction false} RunWeights(n: Node, lo: nat, hi: nat, i: nat, j: nat)
    requires n.ChildrenReady() && TiedRun(n, lo, hi) && lo <= i <= j < hi
    ensures n.children[i].trueWeight == n.children[j].trueWeight
    decreases j - i
  {
    assert n.children[i] in n.children;
    if i < j {
      assert n.IsChildWeightEqualToNext(i) && n.children[i + 1] in n.children;
      RunWeights(n, lo, hi, i + 1, j);
    }
  }

  lemma RunBanks(n: Node, lo: nat, hi: nat)
    requires n.Tree() && TiedRun(n, lo, hi)
    ensures SomeBanks(n, n.children[lo..hi]) && 1 <= n.height
  {
    assert n.Shape();
    var banks := n.children[lo..hi];
    forall b | b in banks ensures b in n.children && !b.isUser {
      var j :| 0 <= j < |banks| && banks[j] == b;
      assert b == n.children[lo + j];
    }
    assert n.children[lo] in n.children;
  }

  /** What stands for some children shares nothing with the others. */
  lemma EntriesApart(n: Node, e: Node, lo: nat, hi: nat, j: nat)
    requires n.Tree() && StandsFor(n, e, lo, hi) && j < |n.children| && (j < lo || hi <= j)
    ensures n.children[j] in n.repr && n.children[j] in n.children[j].repr
    ensures e.repr !! n.children[j].repr
  {
    assert n.Shape() && n.children[j] in n.children;
    ghost var span := n.children[lo..hi];
    assert forall b | b in span :: b in n.children && b != n.children[j] && b in b.repr;
    forall m | m in e.repr ensures m !in n.children[j].repr {
      if m in Owned(span) {
        var b :| b in span && m in b.repr;
      }
    }
  }

  /** The entries of the tie-aware list so far stand for consecutive stretches
      of the first lo children and share nothing. */
  ghost predicate Built(n: Node, p: Progress)
    reads n`children, n`height, n`repr
    reads n.children`weight, n.children`trueWeight, n.children`paths, n.children`repr
    reads p.tac, Owned(p.tac)
  {
    match p
    case Progress(lo, tac, cut, _) =>
      && |cut| == |tac| + 1 && cut[0] == 0 && cut[|tac|] == lo
      && (forall k {:trigger StandsFor(n, tac[k], cut[k], cut[k + 1])} | 0 <= k < |tac| ::
            StandsFor(n, tac[k], cut[k], cut[k + 1]))
      && (forall k, l | 0 <= k < l < |tac| :: tac[k].repr !! tac[l].repr)
  }

  /** An entry lies strictly below n, but for a virtual node itself. */
  lemma EntryWithin(n: Node, e: Node, lo: nat, hi: nat)
    requires n.Tree() && StandsFor(n, e, lo, hi)
    ensures e in e.repr && e.repr <= n.repr - {n} + {e}
    ensures e in n.repr ==> e != n && exists k :: lo <= k < hi && n.children[k] == e
  {
    assert n.Shape();
    assert forall b | b in n.children[lo..hi] :: b in n.children && b.repr <= n.repr - {n};
    if e in n.repr {
      var span := n.children[lo..hi];
      var k :| 0 <= k < |span| && span[k] == e;
      assert n.children[lo + k] == e;
    }
  }

  lemma EntriesDisjoint(n: Node, a: Node, lo: nat, hi: nat, e: Node, lo': nat, hi': nat)
    requires n.Tree() && StandsFor(n, a, lo, hi) && StandsFor(n, e, lo', hi') && hi <= lo' && a != e
    ensures a.repr !! e.repr
  {
    EntryWithin(n, a, lo, hi);
    EntryWithin(n, e, lo', hi');
    forall m | m in e.repr ensures m !in a.repr {
      if m != e || e in n.repr {
        var k := HolderOf(n, e, lo', hi', m);
        EntriesApart(n, a, lo, hi, k);
      }
    }
  }

  /** Which child holds a node of an entry. */
  lemma HolderOf(n: Node, e: Node, lo: nat, hi: nat, m: Node) returns (k: nat)
    requires n.Tree() && StandsFor(n, e, lo, hi) && m in e.repr && (m != e || e in n.repr)
    ensures lo <= k < hi && m in n.children[k].repr
  {
    EntryWithin(n, e, lo, hi);
    if m == e {
      k :| lo <= k < hi && n.children[k] == e;
      assert n.Shape();
    } else {
      var span := n.children[lo..hi];
      var b :| b in span && m in b.repr;
      var i :| 0 <= i < |span| && span[i] == b;
      k := lo + i;
    }
  }

  /** Appending an entry for the next stretch. */
  lemma BuiltPush(n: Node, p: Progress, e: Node, hi: nat)
    requires n.Tree() && Built(n, p) && StandsFor(n, e, p.lo, hi) && e !in p.tac
    ensures Built(n, p.Push(e, hi))
  {
    forall k | 0 <= k < |p.tac| ensures p.tac[k].repr !! e.repr {
      CutsGrow(n, p, k + 1, |p.tac|);
      EntriesDisjoint(n, p.tac[k], p.cut[k], p.cut[k + 1], e, p.lo, hi);
    }
  }

  lemma {:induction false} CutsGrow(n: Node, p: Progress, k: nat, l: nat)
    requires Built(n, p) && k <= l <= |p.tac|
    ensures p.cut[k] <= p.cut[l] && (k < l ==> p.cut[k] < p.cut[l])
    decreases l
  {
    if k < l {
      var m := l - 1;
      CutsGrow(n, p, k, m);
      assert StandsFor(n, p.tac[m], p.cut[m], p.cut[m + 1]);
    }
  }

  /** The next child is no entry of the list so far. */
  lemma ChildOutside(n: Node, p: Progress)
    requires n.Tree() && Built(n, p) && p.lo < |n.children|
    ensures n.children[p.lo] !in p.tac
  {
    forall k | 0 <= k < |p.tac| ensures p.tac[k] != n.children[p.lo] {
      CutsGrow(n, p, k + 1, |p.tac|);
      assert StandsFor(n, p.tac[k], p.cut[k], p.cut[k + 1]);
      EntriesApart(n, p.tac[k], p.cut[k], p.cut[k + 1], p.lo);
    }
  }

  /** A user child, once its tie flag is set, is an entry of its own. */
  lemma UserStandsFor(n: Node, i: nat)
    requires Underway(n) && i < |n.children| && n.children[i].isUser
    ensures StandsFor(n, n.children[i], i, i + 1)
  {
    var c := n.children[i];
    assert c in n.children && n.Shape() && c.Shape() && c.PathsKnown();
  }

  /** A bank that ties with neither neighbour is an entry of its own. */
  lemma BankStandsFor(n: Node, i: nat)
    requires Underway(n) && i < |n.children| && !n.children[i].isUser && !n.IsChildWeightEqualToNext(i)
    ensures StandsFor(n, n.children[i], i, i + 1)
  {
    var c := n.children[i];
    assert c in n.children && n.Shape() && c.Shape() && c.ChildrenReady();
    n.SubTree(c);
    forall m | m in c.repr ensures !m.tieWithNext {
      assert m.Shape();
    }
    assert forall m {:trigger m.Weighted()} | m in c.repr && m != c :: m.Weighted();
  }

  /** A node from outside the tree lies under no entry. */
  lemma OutsideEntries(n: Node, p: Progress, vc: Node)
    requires n.Tree() && Built(n, p) && vc !in n.repr && vc !in p.tac
    ensures vc !in Owned(p.tac)
  {
    assert n.Shape();
    forall k | 0 <= k < |p.tac| ensures vc !in p.tac[k].repr {
      assert StandsFor(n, p.tac[k], p.cut[k], p.cut[k + 1]);
      assert forall b | b in n.children[p.cut[k]..p.cut[k + 1]] :: b in n.children && b.repr <= n.repr;
    }
  }

  /** A list under construction, with the node it belongs to. */
  datatype Listing = Listing(n: Node, p: Progress)

  /** Changing only a node outside the tree disturbs no entry. */
  twostate lemma BuiltStays(l: Listing)
    requires old(Built(l.n, l.p)) && unchanged(l.n, old(l.n.children), old(Owned(l.p.tac)))
    ensures Built(l.n, l.p)
  {
    var n, p := l.n, l.p;
    forall k | 0 <= k < |p.tac|
      ensures StandsFor(n, p.tac[k], p.cut[k], p.cut[k + 1]) && p.tac[k].repr == old(p.tac[k].repr)
    {
      assert p.tac[k] in p.tac && old(StandsFor(n, p.tac[k], p.cut[k], p.cut[k + 1]));
      assert forall m | m in old(p.tac[k].repr) :: m in old(Owned(p.tac));
    }
  }

  twostate lemma UnderwayStays(n: Node)
    requires old(Underway(n)) && unchanged(n, old(n.repr))
    ensures Underway(n)
  {
  }
}
