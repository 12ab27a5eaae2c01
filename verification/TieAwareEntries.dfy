/// A finished tie-aware list is what the theory of visit orders asks for.

module TieAwareEntries {
  import opened VisitOrder
  import opened WeightedTree
  import opened VirtualNode
  import opened TieAwareList
  import opened StandIn

  /** A finished list of all children of n. */
  ghost predicate Finished(n: Node, cs: seq<Child>, p: Progress)
    reads n, n.repr, p.tac, Owned(p.tac)
  {
    && Underway(n) && Built(n, p) && p.lo == |n.children|
    && Pictured(cs, n.children) && TiesUpTo(cs, |cs|)
  }

  /** Which entry stands for child j. */
  lemma {:induction false} FindEntry(n: Node, p: Progress, j: nat, m: nat) returns (k: nat)
    requires Built(n, p) && m <= |p.tac| && j < p.cut[m]
    ensures k < m && p.cut[k] <= j < p.cut[k + 1]
  {
    if p.cut[m - 1] <= j {
      k := m - 1;
    } else {
      k := FindEntry(n, p, j, m - 1);
    }
  }

  lemma EntryPaths(n: Node, p: Progress, k: nat)
    requires n.Tree() && Built(n, p) && k < |p.tac|
    ensures StandsFor(n, p.tac[k], p.cut[k], p.cut[k + 1])
    ensures EntryOf(p.tac[k]).Paths() == p.tac[k].paths
    ensures forall u | u in p.tac[k].paths :: u in p.tac[k].repr && (!p.tac[k].isUser ==> p.tac[k].paths[u] != [])
  {
    var e := p.tac[k];
    assert StandsFor(n, e, p.cut[k], p.cut[k + 1]);
    assert e.PathsKnown() && e.Shape();
  }

  lemma EntryHolds(n: Node, p: Progress, k: nat, j: nat, u: Node)
    requires Built(n, p) && k < |p.tac| && p.cut[k] <= j < p.cut[k + 1] && j < |n.children|
    requires u in n.children[j].paths
    ensures u in p.tac[k].paths
  {
    assert StandsFor(n, p.tac[k], p.cut[k], p.cut[k + 1]);
  }

  lemma UserHasChild(n: Node, u: Node) returns (j: nat)
    requires n.PathsKnown() && !n.isUser && u in n.paths
    ensures j < |n.children| && u in n.children[j].paths
  {
    var c :| c in n.children && u in c.paths;
    j :| 0 <= j < |n.children| && n.children[j] == c;
  }

  lemma UserHasEntry(n: Node, p: Progress, u: Node) returns (k: nat)
    requires n.PathsKnown() && !n.isUser && Built(n, p) && p.lo == |n.children| && u in n.paths
    ensures k < |p.tac| && u in p.tac[k].paths
  {
    var j := UserHasChild(n, u);
    k := FindEntry(n, p, j, |p.tac|);
    EntryHolds(n, p, k, j, u);
  }

  lemma EntryUserPath(n: Node, p: Progress, k: nat, u: Node)
    requires n.Tree() && !n.isUser && Built(n, p) && k < |p.tac| && u in p.tac[k].paths
    ensures u in n.paths && n.paths[u] == [p.tac[k].trueWeight] + p.tac[k].paths[u]
  {
    assert n.PathsKnown() && StandsFor(n, p.tac[k], p.cut[k], p.cut[k + 1]);
    var j :| p.cut[k] <= j < p.cut[k + 1] && u in n.children[j].paths;
    assert n.children[j] in n.children;
  }

  /** What an entry says about its users is what the node knows of them. */
  lemma EntryIsTrue(n: Node, p: Progress, k: nat)
    requires n.Tree() && !n.isUser && Built(n, p) && k < |p.tac|
    ensures EntryOf(p.tac[k]).Paths() == p.tac[k].paths && EntryOf(p.tac[k]).weight == p.tac[k].trueWeight
    ensures forall u | u in p.tac[k].paths :: u in n.paths && n.paths[u] == [p.tac[k].trueWeight] + p.tac[k].paths[u]
    ensures !p.tac[k].isUser ==> forall u | u in p.tac[k].paths :: p.tac[k].paths[u] != []
  {
    EntryPaths(n, p, k);
    forall u | u in p.tac[k].paths
      ensures u in n.paths && n.paths[u] == [p.tac[k].trueWeight] + p.tac[k].paths[u]
    {
      EntryUserPath(n, p, k, u);
    }
  }

  lemma ListComplete(n: Node, p: Progress)
    requires Underway(n) && Built(n, p) && p.lo == |n.children|
    ensures Complete(n.paths, Entries(p.tac))
  {
    var es := Entries(p.tac);
    forall u | u in n.paths ensures exists k :: 0 <= k < |es| && u in es[k].Paths() {
      var k := UserHasEntry(n, p, u);
      EntryPaths(n, p, k);
      assert u in es[k].Paths();
    }
  }

  lemma ListFaithful(n: Node, p: Progress)
    requires n.Tree() && !n.isUser && Built(n, p)
    ensures Faithful(n.paths, Entries(p.tac))
  {
    var es := Entries(p.tac);
    forall k | 0 <= k < |es|
      ensures forall u | u in es[k].Paths() :: u in n.paths && n.paths[u] == [es[k].weight] + es[k].Paths()[u]
      ensures es[k].BankEntry? ==> forall u | u in es[k].users :: es[k].users[u] != []
    {
      EntryIsTrue(n, p, k);
    }
  }

  lemma ListSeparate(n: Node, p: Progress)
    requires n.Tree() && Built(n, p)
    ensures Separate(Entries(p.tac))
  {
    var es := Entries(p.tac);
    forall k, l, u | 0 <= k < l < |es| && u in es[k].Paths() ensures u !in es[l].Paths() {
      EntryPaths(n, p, k);
      EntryPaths(n, p, l);
    }
  }

  lemma LaterWeighsNoMore(n: Node, a: nat, b: nat)
    requires n.ChildrenReady() && a < b < |n.children|
    ensures n.children[a].trueWeight >= n.children[b].trueWeight
    ensures n.children[a].trueWeight == n.children[b].trueWeight ==>
              (!n.children[a].isUser ==> !n.children[b].isUser) &&
              (n.children[a].isUser == n.children[b].isUser ==> n.IsChildWeightEqualToNext(a))
  {
    assert n.children[a] in n.children && n.children[b] in n.children;
    assert !Node.Before(n.children[b], n.children[a]);
    if n.children[a].weight == n.children[b].weight {
      n.EqualWeightsAdjoin(a, b);
    }
  }

  /** Entry k stands for children of its own kind and weight. */
  lemma EntryKind(n: Node, p: Progress, k: nat)
    requires Built(n, p) && k < |p.tac|
    ensures p.cut[k] < p.cut[k + 1] <= |n.children|
    ensures forall j | p.cut[k] <= j < p.cut[k + 1] ::
              n.children[j].isUser == p.tac[k].isUser && n.children[j].trueWeight == p.tac[k].trueWeight
    ensures p.tac[k].isUser ==> p.cut[k + 1] == p.cut[k] + 1 && p.tac[k] == n.children[p.cut[k]]
    ensures !p.tac[k].isUser ==> !n.IsChildWeightEqualToNext(p.cut[k + 1] - 1)
  {
    assert StandsFor(n, p.tac[k], p.cut[k], p.cut[k + 1]);
  }

  /** The last child of one entry and the first of a later one. */
  lemma EntryWeights(n: Node, p: Progress, k: nat, l: nat)
    requires n.ChildrenReady() && Built(n, p) && k < l < |p.tac|
    ensures p.tac[k].trueWeight >= p.tac[l].trueWeight
    ensures p.tac[k].trueWeight == p.tac[l].trueWeight ==> p.tac[k].isUser
    ensures p.tac[k].trueWeight == p.tac[l].trueWeight && p.tac[l].isUser ==> n.IsChildWeightEqualToNext(p.cut[k])
  {
    EntryKind(n, p, k);
    EntryKind(n, p, l);
    CutsGrow(n, p, k + 1, l);
    LaterWeighsNoMore(n, p.cut[k + 1] - 1, p.cut[l]);
  }

  /** The tie flag of a user entry says whether the next child ties with it. */
  lemma FlagSays(n: Node, cs: seq<Child>, p: Progress, k: nat)
    requires Finished(n, cs, p) && k < |p.tac| && p.tac[k].isUser
    ensures p.tac[k].tieWithNext == n.IsChildWeightEqualToNext(p.cut[k])
  {
    EntryKind(n, p, k);
    var c := p.cut[k];
    assert cs[c].node == p.tac[k];
    assert n.IsChildWeightEqualToNext(c) == EqualToNext(cs, c);
  }

  /** A user that ties with the next child is followed by that user's entry. */
  lemma TiedIsFollowed(n: Node, p: Progress, k: nat)
    requires n.ChildrenReady() && Built(n, p) && p.lo == |n.children|
    requires k < |p.tac| && p.tac[k].isUser && n.IsChildWeightEqualToNext(p.cut[k])
    ensures k + 1 < |p.tac| && p.tac[k + 1].isUser && p.tac[k + 1].trueWeight == p.tac[k].trueWeight
  {
    EntryKind(n, p, k);
    CutsGrow(n, p, k + 1, |p.tac|);
    EntryKind(n, p, k + 1);
    var c := p.cut[k];
    assert n.children[c] in n.children && n.children[c + 1] in n.children;
  }

  lemma ListTiesMarked(n: Node, cs: seq<Child>, p: Progress)
    requires Finished(n, cs, p)
    ensures TiesMarked(Entries(p.tac))
  {
    var es := Entries(p.tac);
    forall k | 0 <= k < |es| && es[k].UserEntry?
      ensures es[k].tied <==> exists l :: k < l < |es| && es[l].UserEntry? && es[l].weight == es[k].weight
    {
      FlagSays(n, cs, p, k);
      if es[k].tied {
        TiedIsFollowed(n, p, k);
        assert es[k + 1].UserEntry? && es[k + 1].weight == es[k].weight;
      }
      if l :| k < l < |es| && es[l].UserEntry? && es[l].weight == es[k].weight {
        EntryWeights(n, p, k, l);
      }
    }
  }

  /** A finished list is tie-aware. */
  lemma ListIsTieAware(n: Node, cs: seq<Child>, p: Progress)
    requires Finished(n, cs, p)
    ensures TieAware(n.paths, Entries(p.tac))
  {
    ListComplete(n, p);
    ListFaithful(n, p);
    ListSeparate(n, p);
    ListTiesMarked(n, cs, p);
    forall k, l | 0 <= k < l < |p.tac|
      ensures p.tac[k].trueWeight > p.tac[l].trueWeight
              || (p.tac[k].trueWeight == p.tac[l].trueWeight && p.tac[k].isUser)
    {
      EntryWeights(n, p, k, l);
    }
  }

  /** The entries own disjoint parts of n's subtree, except that virtual nodes
      themselves are new. */
  ghost predicate Apart(n: Node, tac: seq<Node>, virtuals: set<Node>)
    reads n`repr, n`height, tac`repr, tac`height
  {
    && virtuals !! n.repr
    && (forall k | 0 <= k < |tac| :: tac[k] in tac[k].repr && tac[k].height < n.height)
    && (forall k | 0 <= k < |tac| :: tac[k].repr <= n.repr - {n} + virtuals)
    && (forall k, l | 0 <= k < l < |tac| :: tac[k].repr !! tac[l].repr)
  }

  lemma OwnedWithin(n: Node, tac: seq<Node>, virtuals: set<Node>)
    requires Apart(n, tac, virtuals)
    ensures Owned(tac) <= n.repr - {n} + virtuals
  {
  }

  /** The subtree of n is intact, and only the given users carry a tie flag. */
  ghost predicate Intact(n: Node, flagged: seq<Node>)
    reads n, n.repr
  {
    && n.Tree()
    && (forall m {:trigger m.Weighted()} | m in n.repr && m != n :: m.Weighted())
    && (forall m {:trigger m.tieWithNext} | m in n.repr && m != n && m.tieWithNext :: m in flagged && m.isUser)
  }

  /** The entries from k on are ready to be visited. */
  ghost predicate Waiting(tac: seq<Node>, es: seq<Entry<Node>>, k: nat)
    reads tac, Owned(tac)
  {
    |es| == |tac| && forall j {:trigger tac[j]} | k <= j < |tac| :: tac[j].Ready() && EntryOf(tac[j]) == es[j]
  }

  lemma EntryWaits(n: Node, cs: seq<Child>, p: Progress, k: nat)
    requires Finished(n, cs, p) && p.kids.Keys !! n.repr && Listed(cs, p) && k < |p.tac|
    ensures p.tac[k] in p.tac[k].repr && p.tac[k].height < n.height && p.tac[k].Ready()
    ensures p.tac[k].repr <= n.repr - {n} + p.kids.Keys
  {
    assert n.Shape() && ListedEntry(cs, p, k);
    EntryWithin(n, p.tac[k], p.cut[k], p.cut[k + 1]);
  }

  lemma UserIsListed(n: Node, p: Progress, j: nat)
    requires Built(n, p) && p.lo == |n.children| && j < |n.children| && n.children[j].isUser
    ensures n.children[j] in p.tac
  {
    var k := FindEntry(n, p, j, |p.tac|);
    EntryKind(n, p, k);
  }

  lemma FlaggedAreListed(n: Node, cs: seq<Child>, p: Progress, m: Node)
    requires Finished(n, cs, p) && m in n.repr && m != n && m.tieWithNext
    ensures m in p.tac && m.isUser
  {
    var j :| 0 <= j < |n.children| && n.children[j] == m;
    assert cs[j].node == m;
    UserIsListed(n, p, j);
  }

  /** A finished list is ready to be visited. */
  lemma ReadyToVisit(n: Node, cs: seq<Child>, p: Progress)
    requires Finished(n, cs, p) && p.kids.Keys !! n.repr && Listed(cs, p)
    ensures Apart(n, p.tac, p.kids.Keys)
    ensures Intact(n, p.tac) && Waiting(p.tac, Entries(p.tac), 0)
  {
    forall k | 0 <= k < |p.tac|
      ensures p.tac[k] in p.tac[k].repr && p.tac[k].height < n.height && p.tac[k].Ready()
      ensures p.tac[k].repr <= n.repr - {n} + p.kids.Keys
    {
      EntryWaits(n, cs, p, k);
    }
    forall m | m in n.repr && m != n && m.tieWithNext ensures m in p.tac && m.isUser {
      FlaggedAreListed(n, cs, p, m);
    }
  }

  /** A visit under way: entry e of n's list, with the other entries. */
  datatype Visiting = Visiting(n: Node, e: Node, flagged: seq<Node>, left: seq<Node>)

  /** The nodes outside the visited entry are as they were, and the entry is a
      settled tree again. */
  twostate predicate EntryVisited(v: Visiting)
    reads v.n, v.n.repr, v.e, v.e.repr
  {
    && v.e.Tree() && v.e.Settled() && v.e.tieWithNext == (!v.e.isUser && old(v.e.tieWithNext))
    && v.e.children == old(v.e.children) && v.n.repr == old(v.n.repr)
    && (forall m {:trigger m.repr} | m in v.n.repr :: m.repr == old(m.repr) && m.height == old(m.height))
    && (forall m {:trigger m.paths} | m in v.n.repr :: m.paths == old(m.paths))
    && (forall m {:trigger m.trueWeight} | m in v.n.repr :: m.trueWeight == old(m.trueWeight))
    && (forall m {:trigger m.usage} | m in v.n.repr :: m.usage == old(m.usage))
    && (forall m {:trigger m.children} {:trigger m.tieWithNext} | m in v.n.repr && m !in v.e.repr ::
          m.children == old(m.children) && m.tieWithNext == old(m.tieWithNext))
  }

  /** A node outside the visited entry. */
  datatype Bystander = Bystander(v: Visiting, m: Node)

  twostate lemma BystanderStays(b: Bystander)
    requires old(b.v.n.Tree()) && EntryVisited(b.v) && b.m in b.v.n.repr
    requires b.m.children == old(b.m.children)
    ensures old(b.m.Shape()) ==> b.m.Shape()
    ensures old(b.m.PathsKnown()) ==> b.m.PathsKnown()
    ensures old(b.m.Weighted()) ==> b.m.Weighted()
    ensures forall c | c in b.m.children :: c in b.v.n.repr
  {
    assert old(b.m.Shape());
    assert forall c | c in b.m.children :: c in b.v.n.repr;
    SameUsage(b.m);
  }

  twostate lemma SameUsage(m: Node)
    requires m.children == old(m.children) && forall c | c in m.children :: c.usage == old(c.usage)
    ensures SumUsage(m.children) == old(SumUsage(m.children))
  {
    SameSum(m.children);
  }

  twostate lemma {:induction false} SameSum(s: seq<Node>)
    requires forall c | c in s :: c.usage == old(c.usage)
    ensures SumUsage(s) == old(SumUsage(s))
  {
    if s != [] {
      SameSum(s[1..]);
    }
  }

  /** Visiting one entry leaves the rest of n's subtree intact. */
  twostate lemma IntactAfter(v: Visiting)
    requires old(Intact(v.n, [v.e] + v.flagged)) && EntryVisited(v)
    ensures Intact(v.n, v.flagged)
  {
    var n, e := v.n, v.e;
    forall m | m in n.repr
      ensures m.Shape() && m.PathsKnown() && m.repr <= n.repr && forall c | c in m.children :: c in n.repr
      ensures m != n ==> m.Weighted() && (m.tieWithNext ==> m in v.flagged && m.isUser)
    {
      assert old(m.Shape()) && old(m.PathsKnown());
      if m in e.repr && m != e {
        assert m.Shape();
      } else {
        BystanderStays(Bystander(v, m));
      }
    }
  }

  /** A list under visit. */
  datatype Tour = Tour(tac: seq<Node>, es: seq<Entry<Node>>, k: nat)

  /** The entries that are left still wait when nothing below them has changed. */
  twostate lemma WaitingAfter(t: Tour)
    requires old(Waiting(t.tac, t.es, t.k))
    requires forall j | t.k < j < |t.tac| :: t.tac[j] in old(t.tac[j].repr) && unchanged(old(t.tac[j].repr))
    ensures Waiting(t.tac, t.es, t.k + 1)
  {
    forall j | t.k < j < |t.tac| ensures t.tac[j].Ready() && EntryOf(t.tac[j]) == t.es[j] {
      assert old(t.tac[j].Ready()) && old(EntryOf(t.tac[j])) == t.es[j];
    }
  }
}
