/// The weighted depth-first walk that turns a weighted tree into fairshare values.

module WeightedWalk {
  import opened WeightPath
  import opened VisitOrder
  import opened WeightedTree
  import opened VirtualNode
  import opened TieAwareList
  import opened StandIn
  import opened Adoption
  import opened TieAwareEntries
  import opened UserOrder

  /** A node and the children it had when its list was built. */
  datatype Marked = Marked(n: Node, cs: seq<Child>)

  class Walk {
    var currentRank: nat
    var strideSize: nat
    const root: Node
    var users: seq<Node>
    ghost var log: seq<Visit<Node>>   // the users visited, with their tie flags
    ghost var shares: seq<real>       // the values written, in visit order

    constructor (root: Node)
      ensures this.root == root && strideSize == 0 && users == [] && log == [] && shares == []
    {
      this.root := root;
      currentRank, strideSize, users, log, shares := 0, 0, [], [], [];
    }

    function TreeLeafSize(): nat
      reads root`subtreeLeafSize
    {
      root.subtreeLeafSize
    }

    /** Rank and stride are in step with the log, and the visited users hold
        the shares written. */
    ghost predicate Bookkeeping()
      reads this, root`subtreeLeafSize, users`fshare
    {
      && InStep(log, TreeLeafSize(), currentRank, strideSize, shares)
      && |users| == |log|
      && forall i | 0 <= i < |users| :: users[i] == log[i].user && users[i].fshare == shares[i]
    }

    /** Nobody in s has been visited. */
    ghost predicate NotVisited(s: set<Node>)
      reads this
    {
      Avoids(users, s)
    }

    static ghost predicate Avoids(visited: seq<Node>, s: set<Node>)
    {
      forall i | 0 <= i < |visited| :: visited[i] !in s
    }

    static lemma AvoidsPart(visited: seq<Node>, s: set<Node>, part: set<Node>)
      requires Avoids(visited, s) && part <= s
      ensures Avoids(visited, part)
    {
    }

    static lemma AvoidsMore(before: seq<Node>, now: seq<Node>, visited: set<Node>, s: set<Node>)
      requires before <= now && Avoids(before, s) && visited !! s
      requires forall i | |before| <= i < |now| :: now[i] in visited
      ensures Avoids(now, s)
    {
      assert forall i | 0 <= i < |before| :: now[i] == before[i];
    }

    /** Record a user's fairshare and move rank and stride on.  The second
        result is false on the out-of-range exit, which is never taken. */
    method HandleLeaf(n: Node) returns (ok: bool)
      requires Bookkeeping()
      requires n.isUser ==> |log| < TreeLeafSize() && NotVisited({n})
      modifies this`currentRank, this`strideSize, this`users, this`log, this`shares, n`fshare, n`tieWithNext
      ensures ok && Bookkeeping()
      ensures log == old(log) + if n.isUser then [Visit(n, old(n.tieWithNext))] else []
      ensures n.tieWithNext == (!n.isUser && old(n.tieWithNext))
    {
      if n.isUser {
        ghost var visit := Visit(n, n.tieWithNext);
        StaysInStep(log, TreeLeafSize(), currentRank, strideSize, shares, visit);
        n.fshare := Share(currentRank, TreeLeafSize());
        if currentRank == 0 {
          return false;
        }
        MoveOn(n);
        users, log, shares := users + [n], log + [visit], shares + [n.fshare];
      }
      ok := true;
    }

    /** A tied user keeps the rank for the next one; otherwise the rank drops
        past the tie group. */
    method MoveOn(n: Node)
      requires n.tieWithNext || strideSize < currentRank
      modifies this`currentRank, this`strideSize, n`tieWithNext
      ensures !n.tieWithNext
      ensures currentRank == if old(n.tieWithNext) then old(currentRank) else old(currentRank - 1 - strideSize)
      ensures strideSize == if old(n.tieWithNext) then old(strideSize + 1) else 0
    {
      if n.tieWithNext {
        strideSize := strideSize + 1;
        n.tieWithNext := false;
      } else {
        currentRank := currentRank - 1 - strideSize;
        strideSize := 0;
      }
    }

    /** Weigh and sort the children of every child of n. */
    method PrepareGrandChildren(n: Node)
      requires n.Ready() && !n.isUser
      modifies n.repr`weight, n.repr`children
      ensures n.Ready() && n.children == old(n.children)
      ensures forall c | c in n.children :: c.ChildrenReady()
    {
      for i := 0 to |n.children|
        invariant n.Ready() && n.children == old(n.children)
        invariant forall j | 0 <= j < i :: n.children[j].ChildrenReady()
      {
        assert n.children[i] in n.children;
        PrepareChild(n, n.children[i]);
      }
    }

    /** Weigh and sort the children of a node, which stays in shape. */
    method SortUnder(n: Node)
      requires n.Shape() && n.PathsKnown() && n.Weighted()
      modifies n`children, n.children`weight
      ensures n.Shape() && n.PathsKnown() && n.Weighted() && n.ChildrenReady()
      ensures Reordering(old(n.children), n.children) && forall c :: c in n.children <==> c in old(n.children)
    {
      n.CalcAndSortWeightedChildren();
      ReorderingMembers(old(n.children), n.children);
      n.StaysInShape();
      n.StaysPathsKnown();
      n.StaysWeighted();
    }

    /** Weighing and sorting below one child disturbs nothing else under n. */
    method PrepareChild(n: Node, child: Node)
      requires n.Ready() && !n.isUser && child in n.children
      modifies child`children, child.children`weight
      ensures n.Ready() && n.children == old(n.children) && child.ChildrenReady()
      ensures forall c | c in n.children :: old(c.ChildrenReady()) ==> c.ChildrenReady()
    {
      assert n.Shape() && child.Shape();
      assert child.PathsKnown() && child.Weighted();
      ghost var below := child.children;
      assert forall d | d in below :: d in child.repr;
      forall c, d | c in n.children && c != child && d in c.children ensures d !in below {
        assert c.Shape() && c.repr !! child.repr;
      }
      SortUnder(child);
    }

    /** Append the children of a tied bank to a virtual node. */
    method MergeGrandChildren(vc: Node, child: Node)
      requires vc != child
      modifies vc`children
      ensures vc.children == old(vc.children) + child.children
    {
      for i := 0 to |child.children|
        invariant vc.children == old(vc.children) + child.children[..i]
      {
        vc.AddChildOnly(child.children[i]);
      }
    }

    /** Raise the tie flag of a user that weighs as much as the user after it. */
    method MarkTie(n: Node, i: nat, ghost cs: seq<Child>)
      requires Distinct(n.children) && Pictured(cs, n.children) && TiesUpTo(cs, i)
      requires i < |n.children| && n.children[i].isUser
      modifies n.children`tieWithNext
      ensures TiesUpTo(cs, i + 1)
    {
      if n.IsChildWeightEqualToNext(i) {
        n.children[i].tieWithNext := true;
      }
    }

    /** Bank i joins the open run. */
    method ExtendStride(vc: Node, child: Node, i: nat, ghost cs: seq<Child>, ghost p: Progress)
      requires VirtualsHold(p) && vc !in p.kids && vc != child
      requires p.lo <= i < |cs| && !cs[i].isUser && TiesUpTo(cs, i)
      requires cs[i].kids == child.children && vc.children == Merged(cs[p.lo..i])
      modifies vc`children
      ensures VirtualsHold(p) && TiesUpTo(cs, i + 1) && vc.children == Merged(cs[p.lo..i + 1])
    {
      MergedSnoc(cs, p.lo, i);
      MergeGrandChildren(vc, child);
    }

    /** The last bank of a run joins it; the virtual node is sorted and listed. */
    method CloseStride(vc: Node, child: Node, i: nat, ghost cs: seq<Child>, ghost p: Progress)
        returns (ghost p': Progress)
      requires VirtualsHold(p) && vc !in p.kids && vc !in p.tac && vc != child && !vc.isUser
      requires p.lo < i < |cs| && OpenRun(cs, p.lo, i) && !EqualToNext(cs, i)
      requires Listed(cs, p) && TiesUpTo(cs, i)
      requires cs[i].kids == child.children && vc.children == Merged(cs[p.lo..i])
      modifies vc`children
      ensures p' == p.PushVirtual(vc, vc.children, i + 1)
      ensures Building(cs, i + 1, p'.tac, false, null, p')
    {
      ExtendStride(vc, child, i, cs, p);
      vc.SortWeightedChildren();
      ListPushVirtual(cs, p, vc, vc.children, i);
      p' := p.PushVirtual(vc, vc.children, i + 1);
    }

    /** A user goes into the list, with its tie flag set. */
    method TakeUser(n: Node, i: nat, ghost tac: seq<Node>, ghost cs: seq<Child>, ghost p: Progress)
      requires Distinct(n.children) && Pictured(cs, n.children) && i < |n.children| && n.children[i].isUser
      requires Building(cs, i, tac, false, null, p) && n.children[i] !in p.kids
      modifies n.children`tieWithNext
      ensures Building(cs, i + 1, tac + [n.children[i]], false, null, p.Push(n.children[i], i + 1))
    {
      ListPush(cs, p);
      MarkTie(n, i, cs);
    }

    /** A bank that ties with neither neighbour goes into the list as it is. */
    lemma TakeBank(i: nat, tac: seq<Node>, cs: seq<Child>, p: Progress)
      requires i < |cs| && !cs[i].isUser && !EqualToNext(cs, i) && cs[i].node !in p.kids
      requires Building(cs, i, tac, false, null, p)
      ensures Building(cs, i + 1, tac + [cs[i].node], false, null, p.Push(cs[i].node, i + 1))
    {
      ListPush(cs, p);
    }

    /** A tied bank joins the open run; the first of a run opens it with a new
        virtual node. */
    method JoinStride(child: Node, i: nat, ghost tac: seq<Node>, stride: bool, vc: Node?, ghost cs: seq<Child>,
                      ghost p: Progress)
        returns (vc': Node)
      requires Building(cs, i, tac, stride, vc, p) && i < |cs| && !cs[i].isUser && EqualToNext(cs, i)
      requires cs[i].kids == child.children && child != vc
      modifies (if stride then {vc} else {})`children
      ensures Building(cs, i + 1, tac, true, vc', p)
      ensures (stride && vc' == vc) || fresh(vc')
    {
      if stride {
        vc' := vc;
      } else {
        vc' := new Node(null, "v", false, 0, 0);
      }
      ExtendStride(vc', child, i, cs, p);
    }

    /** One child goes into the list. */
    method TakeChild(n: Node, i: nat, tac: seq<Node>, stride: bool, vc: Node?, ghost cs: seq<Child>, ghost p: Progress)
        returns (tac': seq<Node>, stride': bool, vc': Node?, ghost p': Progress)
      requires Distinct(n.children) && Pictured(cs, n.children) && i < |n.children|
      requires Building(cs, i, tac, stride, vc, p) && (!stride ==> vc == null)
      requires n != vc && forall c | c in n.children :: c !in p.kids && c != vc
      modifies n.children`tieWithNext
      modifies (if stride then {vc} else {})`children
      ensures n.children == old(n.children) && Pictured(cs, n.children)
      ensures Building(cs, i + 1, tac', stride', vc', p') && (!stride' ==> vc' == null)
      ensures stride' ==> (stride && vc' == vc) || fresh(vc')
      ensures p'.kids.Keys <= p.kids.Keys + if stride then {vc} else {}
    {
      tac', stride', vc', p' := tac, stride, vc, p;
      var child := n.children[i];
      assert cs[i] == Child(child, child.isUser, child.weight, child.children);
      assert n.IsChildWeightEqualToNext(i) == EqualToNext(cs, i);
      if child.isUser {
        TakeUser(n, i, tac, cs, p);
        tac', p' := tac + [child], p.Push(child, i + 1);
      } else if n.IsChildWeightEqualToNext(i) {
        vc' := JoinStride(child, i, tac, stride, vc, cs, p);
        stride' := true;
      } else if stride {
        p' := CloseStride(vc, child, i, cs, p);
        tac', stride', vc' := tac + [vc], false, null;
      } else {
        TakeBank(i, tac, cs, p);
        tac', p' := tac + [child], p.Push(child, i + 1);
      }
    }

    /** Build the tie-aware child list: users keep their place and get their tie
        flag, a run of tied banks becomes one virtual node, other banks stay. */
    method BuildTieAwareChildren(n: Node, ghost cs: seq<Child>) returns (tac: seq<Node>, ghost p: Progress)
      requires Distinct(n.children) && Pictured(cs, n.children) && TiesUpTo(cs, 0)
      modifies n.children`tieWithNext
      ensures TiesUpTo(cs, |cs|) && Listed(cs, p) && p.tac == tac && p.lo == |cs|
      ensures VirtualsHold(p) && fresh(p.kids.Keys)
    {
      tac, p := [], Progress(0, [], [0], map[]);
      var vc: Node?, stride := null, false;
      for i := 0 to |n.children|
        invariant n.children == old(n.children) && Pictured(cs, n.children)
        invariant Building(cs, i, tac, stride, vc, p) && (!stride ==> vc == null)
        invariant fresh(p.kids.Keys) && (stride ==> fresh(vc))
      {
        tac, stride, vc, p := TakeChild(n, i, tac, stride, vc, cs, p);
      }
    }

    /** Visit a node: its users are visited in a walk of the node, and everything
        below it is left in shape, with no tie flag up. */
    method WeightedDepthFirstVisit(n: Node) returns (ok: bool)
      requires n.Ready() && Bookkeeping() && NotVisited(n.repr)
      requires |log| + |n.paths| <= TreeLeafSize()
      modifies this`currentRank, this`strideSize, this`users, this`log, this`shares
      modifies n.repr`weight, n.repr`tieWithNext, n.repr`fshare, n.repr`children
      ensures ok && Bookkeeping()
      ensures old(log) <= log && EntryWalk(old(EntryOf(n)), log[|old(log)|..])
      ensures n.Tree() && n.Settled() && n.children == old(n.children)
      ensures n.tieWithNext == (!n.isUser && old(n.tieWithNext))
      decreases n.height, 2
    {
      if n.IsLeaf() {
        assert n.PathsKnown() && n.Shape();
        AvoidsPart(users, n.repr, {n});
        ok := HandleLeaf(n);
      } else {
        ok := HandleInternal(n);
      }
    }

    /** An entry's users lie below it. */
    static lemma EntryUsers(e: Node)
      requires e.Ready()
      ensures EntryOf(e).Paths() == e.paths && forall u | u in e.paths :: u in e.repr
    {
      assert e.PathsKnown() && e.Shape();
    }

    /** Whoever is visited within an entry is one of its users. */
    static lemma VisitedBelow(e: Entry<Node>, log: seq<Visit<Node>>, from: nat)
      requires from <= |log| && EntryWalk(e, log[from..])
      ensures forall i | from <= i < |log| :: log[i].user in e.Paths()
    {
      EntryVisits(e, log[from..]);
      forall i | from <= i < |log| ensures log[i].user in e.Paths() {
        assert log[from..][i - from] == log[i];
        assert log[i].user in Visited(log[from..], |log| - from);
      }
    }

    /** Build the list under n, whose grandchildren are sorted. */
    method BuildUnder(n: Node, ghost cs: seq<Child>) returns (tac: seq<Node>, ghost p: Progress)
      requires n.Ready() && !n.isUser && Pictured(cs, n.children)
      requires forall c | c in n.children :: c.ChildrenReady()
      modifies n.children`tieWithNext
      ensures Underway(n) && n.tieWithNext == old(n.tieWithNext)
      ensures TiesUpTo(cs, |cs|) && Listed(cs, p) && p.tac == tac && p.lo == |cs|
      ensures VirtualsHold(p) && fresh(p.kids.Keys)
    {
      assert n.Shape();
      tac, p := BuildTieAwareChildren(n, cs);
      UnderwayNow(Marked(n, cs));
    }

    /** Raising tie flags of users among the children is all that has happened. */
    static twostate lemma UnderwayNow(l: Marked)
      requires old(l.n.Ready() && !l.n.isUser && forall c | c in l.n.children :: c.ChildrenReady())
      requires Pictured(l.cs, l.n.children) && TiesUpTo(l.cs, |l.cs|)
      requires unchanged(l.n`repr, old(l.n.repr)`repr, old(l.n.repr)`height, old(l.n.repr)`children)
      requires unchanged(old(l.n.repr)`paths, old(l.n.repr)`trueWeight, old(l.n.repr)`usage, old(l.n.repr)`weight)
      requires forall m {:trigger m.tieWithNext} | m in l.n.repr && m !in l.n.children ::
                 m.tieWithNext == old(m.tieWithNext)
      ensures Underway(l.n)
    {
      assert old(l.n.Shape());
      forall m | m in l.n.repr
        ensures m.Shape() && m.PathsKnown() && (m != l.n ==> m.Weighted())
      {
        assert old(m.Shape() && m.PathsKnown());
      }
      forall c | c in l.n.children ensures c.ChildrenReady() {
        assert old(c.Shape() && c.ChildrenReady());
      }
      forall m | m in l.n.children && m.tieWithNext ensures m.isUser {
        var j :| 0 <= j < |l.n.children| && l.n.children[j] == m;
        assert l.cs[j].node == m;
      }
    }

    /** Sort the grandchildren and build the tie-aware child list of n. */
    method PrepareList(n: Node) returns (tac: seq<Node>, ghost virtuals: set<Node>)
      requires n.Ready() && !n.isUser
      modifies n.repr`weight, n.repr`tieWithNext, n.repr`children
      ensures fresh(virtuals) && Apart(n, tac, virtuals)
      ensures Intact(n, tac) && Waiting(tac, Entries(tac), 0) && TieAware(n.paths, Entries(tac))
      ensures n.children == old(n.children) && n.tieWithNext == old(n.tieWithNext)
    {
      PrepareGrandChildren(n);
      assert n.Shape();
      ghost var cs := Snapshot(n.children);
      ghost var p;
      tac, p := BuildUnder(n, cs);
      virtuals := p.kids.Keys;
      AdoptAll(n, cs, p);
      ListIsTieAware(n, cs, p);
      ReadyToVisit(n, cs, p);
    }

    /** Visit the next entry of the list; the other entries stay as they are. */
    method VisitEntry(ghost n: Node, e: Node, ghost left: seq<Node>) returns (ok: bool)
      requires Intact(n, [e] + left) && e.Ready() && e.height < n.height
      requires Bookkeeping() && NotVisited(e.repr) && |log| + |e.paths| <= TreeLeafSize()
      modifies this`currentRank, this`strideSize, this`users, this`log, this`shares
      modifies e.repr`weight, e.repr`tieWithNext, e.repr`fshare, e.repr`children
      ensures ok && Bookkeeping() && Intact(n, left)
      ensures old(log) <= log && EntryWalk(old(EntryOf(e)), log[|old(log)|..])
      decreases n.height, 0, 0
    {
      ok := WeightedDepthFirstVisit(e);
      IntactAfter(Visiting(n, e, left, left));
    }

    method HandleInternal(n: Node) returns (ok: bool)
      requires n.Ready() && !n.isUser && Bookkeeping() && NotVisited(n.repr)
      requires |log| + |n.paths| <= TreeLeafSize()
      modifies this`currentRank, this`strideSize, this`users, this`log, this`shares
      modifies n.repr`weight, n.repr`tieWithNext, n.repr`fshare, n.repr`children
      ensures ok && Bookkeeping()
      ensures old(log) <= log && IsWalk(n.paths, log[|old(log)|..])
      ensures n.Tree() && n.Settled() && n.children == old(n.children) && n.tieWithNext == old(n.tieWithNext)
      decreases n.height, 1
    {
      var tac;
      ghost var virtuals;
      tac, virtuals := PrepareList(n);
      OwnedWithin(n, tac, virtuals);
      assert forall i | 0 <= i < |users| :: users[i] !in virtuals;
      ghost var paths := n.paths;
      ok := VisitEntries(n, tac, virtuals, Entries(tac));
      assert n.paths == paths;
    }

    /** Nobody below the entries from k on has been visited. */
    ghost predicate NotYet(tac: seq<Node>, k: nat)
      reads this, tac`repr
    {
      forall j {:trigger tac[j]} | k <= j < |tac| :: NotVisited(tac[j].repr)
    }

    /** Visit entry k; the entries after it still wait. */
    method VisitNext(ghost n: Node, tac: seq<Node>, k: nat, ghost virtuals: set<Node>, ghost es: seq<Entry<Node>>)
        returns (ok: bool)
      requires k < |tac| && Apart(n, tac, virtuals) && Intact(n, tac[k..]) && Waiting(tac, es, k)
      requires Bookkeeping() && NotYet(tac, k)
      requires |log| + |es[k].Paths()| <= TreeLeafSize()
      modifies this`currentRank, this`strideSize, this`users, this`log, this`shares
      modifies tac[k].repr`weight, tac[k].repr`tieWithNext, tac[k].repr`fshare, tac[k].repr`children
      ensures ok && Bookkeeping() && Intact(n, tac[k + 1..]) && Waiting(tac, es, k + 1) && NotYet(tac, k + 1)
      ensures old(log) <= log && EntryWalk(es[k], log[|old(log)|..])
      decreases n.height, 0, 1
    {
      EntryUsers(tac[k]);
      assert tac[k..] == [tac[k]] + tac[k + 1..];
      ok := VisitEntry(n, tac[k], tac[k + 1..]);
      VisitedBelow(es[k], log, |old(log)|);
      WaitingAfter(Tour(tac, es, k));
      forall j | k < j < |tac| ensures NotVisited(tac[j].repr) {
        AvoidsMore(old(users), users, tac[k].repr, tac[j].repr);
      }
    }

    /** One step of the tour over the entries: the walk of the bank grows by that of entry k. */
    method VisitStep(ghost n: Node, tac: seq<Node>, k: nat, ghost virtuals: set<Node>, ghost es: seq<Entry<Node>>,
                     ghost start: nat)
        returns (ok: bool)
      requires k < |tac| && Apart(n, tac, virtuals) && Intact(n, tac[k..]) && Waiting(tac, es, k)
      requires Bookkeeping() && NotYet(tac, k) && TieAware(n.paths, es)
      requires start <= |log| && start + |n.paths| <= TreeLeafSize() && WalkSoFar(n.paths, es, k, log[start..])
      modifies this`currentRank, this`strideSize, this`users, this`log, this`shares
      modifies tac[k].repr`weight, tac[k].repr`tieWithNext, tac[k].repr`fshare, tac[k].repr`children
      ensures ok && Bookkeeping() && Intact(n, tac[k + 1..]) && Waiting(tac, es, k + 1) && NotYet(tac, k + 1)
      ensures old(log) <= log && WalkSoFar(n.paths, es, k + 1, log[start..])
      decreases n.height, 0, 2
    {
      ghost var before := log;
      RoomForEntry(n.paths, es, k, before[start..]);
      ok := VisitNext(n, tac, k, virtuals, es);
      WalkGrows(n.paths, es, k, before, log, start);
    }

    /** Visit the entries of the list in order. */
    method VisitEntries(ghost n: Node, tac: seq<Node>, ghost virtuals: set<Node>, ghost es: seq<Entry<Node>>)
        returns (ok: bool)
      requires Apart(n, tac, virtuals) && Intact(n, tac) && Waiting(tac, es, 0) && TieAware(n.paths, es)
      requires Bookkeeping() && NotVisited(n.repr + virtuals)
      requires |log| + |n.paths| <= TreeLeafSize()
      modifies this`currentRank, this`strideSize, this`users, this`log, this`shares
      modifies Owned(tac)`weight, Owned(tac)`tieWithNext, Owned(tac)`fshare, Owned(tac)`children
      ensures ok && Bookkeeping() && Intact(n, [])
      ensures old(log) <= log && IsWalk(n.paths, log[|old(log)|..])
      decreases n.height, 0, 3
    {
      ghost var start := |log|;
      for k := 0 to |tac|
        invariant Bookkeeping() && old(log) <= log
        invariant Intact(n, tac[k..]) && Waiting(tac, es, k) && NotYet(tac, k)
        invariant WalkSoFar(n.paths, es, k, log[start..])
      {
        ok := VisitStep(n, tac, k, virtuals, es, start);
        if !ok {
          return;
        }
      }
      WalkDone(n.paths, es, log[start..]);
      ok := true;
    }

    static lemma WalkGrows(paths: map<Node, Path>, es: seq<Entry<Node>>, k: nat, before: seq<Visit<Node>>,
                           now: seq<Visit<Node>>, start: nat)
      requires k < |es| && TieAware(paths, es) && start <= |before| && before <= now
      requires WalkSoFar(paths, es, k, before[start..]) && EntryWalk(es[k], now[|before|..])
      ensures WalkSoFar(paths, es, k + 1, now[start..])
    {
      WalkOneMore(paths, es, k, before[start..], now[|before|..]);
      assert now[start..] == before[start..] + now[|before|..];
    }

    /** Weigh and sort the root's children, as every visit expects of its node. */
    method PrepareRoot()
      requires root.Sound()
      modifies root`children, root.children`weight
      ensures root.Ready() && root.Weighted() && Reordering(old(root.children), root.children)
    {
      assert root.Shape() && root.PathsKnown();
      SortUnder(root);
    }

    lemma VisitIsFair(paths: map<Node, Path>, i: nat)
      requires Bookkeeping() && IsWalk(paths, log) && TreeLeafSize() == |paths| && i < |log|
      ensures log[i].user in paths && log[i].user.fshare == FairShare(paths, log[i].user)
    {
      WalkShares(paths, log, currentRank, strideSize, shares, i);
    }

    /** The values written along a walk are the fairshare values. */
    lemma SharesAreFair(paths: map<Node, Path>)
      requires Bookkeeping() && IsWalk(paths, log) && TreeLeafSize() == |paths|
      ensures forall u | u in paths :: u.fshare == FairShare(paths, u)
    {
      forall u | u in paths ensures u.fshare == FairShare(paths, u) {
        assert u in Visited(log, |log|);
        var i :| 0 <= i < |log| && log[i].user == u;
        VisitIsFair(paths, i);
      }
    }

    static lemma {:induction false} UsersOnce(log: seq<Visit<Node>>, users: seq<Node>, i: nat)
      requires |users| == |log| && i <= |log|
      requires forall j | 0 <= j < |log| :: users[j] == log[j].user && log[j].user !in Visited(log, j)
      ensures multiset(users[..i]) == multiset(Visited(log, i))
    {
      if i != 0 {
        UsersOnce(log, users, i - 1);
        assert users[..i] == users[..i - 1] + [users[i - 1]];
        assert Visited(log, i) == Visited(log, i - 1) + {log[i - 1].user};
      }
    }

    static lemma VisitedAreUsers(paths: map<Node, Path>, log: seq<Visit<Node>>, users: seq<Node>)
      requires IsWalk(paths, log) && |users| == |log|
      requires forall j | 0 <= j < |log| :: users[j] == log[j].user
      ensures multiset(users) == multiset(paths.Keys)
    {
      forall j | 0 <= j < |log| ensures log[j].user !in Visited(log, j) {
        assert PicksNext(paths, log, j);
      }
      UsersOnce(log, users, |log|);
      assert users[..|users|] == users;
    }

    /** What a finished walk leaves behind. */
    lemma WalkOutcome(paths: map<Node, Path>)
      requires Bookkeeping() && IsWalk(paths, log) && TreeLeafSize() == |paths|
      ensures forall u | u in paths :: u.fshare == FairShare(paths, u)
      ensures multiset(users) == multiset(paths.Keys)
      ensures strideSize == 0 && currentRank == 0
    {
      RankUsedUp(paths, log, currentRank, strideSize, shares);
      VisitedAreUsers(paths, log, users);
      SharesAreFair(paths);
    }

    /** Visit the whole tree from its prepared root. */
    method VisitPrepared() returns (ok: bool)
      requires root.Ready() && root.Weighted() && !root.tieWithNext
      requires Bookkeeping() && log == [] && |root.paths| <= TreeLeafSize()
      modifies this`currentRank, this`strideSize, this`users, this`log, this`shares
      modifies root.repr`weight, root.repr`tieWithNext, root.repr`fshare, root.repr`children
      ensures ok && root.Sound() && Bookkeeping() && IsWalk(root.paths, log)
    {
      assert root.Shape() && root.PathsKnown();
      ok := WeightedDepthFirstVisit(root);
      root.StaysWeighted();
      assert log[0..] == log;
      if root.isUser {
        SingleWalk(root);
      }
    }

    /** Prepare the root and visit the whole tree. */
    method VisitRoot() returns (ok: bool)
      requires root.Sound() && Bookkeeping() && log == [] && |root.paths| <= TreeLeafSize()
      modifies this`currentRank, this`strideSize, this`users, this`log, this`shares
      modifies root.repr`weight, root.repr`tieWithNext, root.repr`fshare, root.repr`children
      ensures ok && root.Sound() && Bookkeeping() && IsWalk(root.paths, log)
    {
      assert root.Shape();
      PrepareRoot();
      ok := VisitPrepared();
    }

    method ListUsers()
      requires root.Sound()
      modifies this`users
      ensures root.Sound() && ByShare(users) && multiset(users) == multiset(old(users))
    {
      users := SortByShare(users);
      ghost var sound := root.Sound();
      assert sound;
    }

    /** Run the walk: every user under the root ends with the fairshare its
        weight path earns, and the users are listed by it.  The tree is sound
        again afterwards, and the walk can be run again. */
    method Run() returns (ok: bool)
      requires root.Sound() && root.subtreeLeafSize == |root.paths| && strideSize == 0
      modifies this`currentRank, this`strideSize, this`users, this`log, this`shares
      modifies root.repr`weight, root.repr`tieWithNext, root.repr`fshare, root.repr`children
      ensures ok && root.Sound() && strideSize == 0 && currentRank == 0
      ensures forall u | u in root.paths :: u.fshare == FairShare(root.paths, u)
      ensures multiset(users) == multiset(root.paths.Keys) && ByShare(users)
    {
      currentRank := TreeLeafSize();
      users, log, shares := [], [], [];
      ghost var sound := root.Sound();
      assert sound;
      ok := VisitRoot();
      if !ok {
        return;
      }
      WalkOutcome(root.paths);
      ListUsers();
    }
  }
}
