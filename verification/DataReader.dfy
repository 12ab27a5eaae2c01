/// Loading the bank and association tables into a weighted tree.

module DataReader {
  import opened WeightPath
  import opened WeightedTree
  import opened VirtualNode
  import opened Planting
  import opened BankUsage

  // ----- what the loaded tree should carry -----

  /** Usage of the active associations of b among the first n rows. */
  function ActiveCharged(s: Schema, used: seq<nat>, b: string, n: nat): nat
    requires n <= |s.assocs| == |used|
  {
    if n == 0 then 0
    else ActiveCharged(s, used, b, n - 1)
         + if s.assocs[n - 1].bank == b && s.assocs[n - 1].active then used[n - 1] else 0
  }

  /** Usage below bank b, leaving out inactive associations and sub-banks. */
  function ActiveTotal(s: Schema, used: seq<nat>, b: string): nat
    requires s.Tree() && |used| == |s.assocs| && b != ""
    decreases s.maxDepth + 1 - s.Depth(b), |s.banks| + 1
  {
    if s.HasSubBanks(b) then ActiveSubTotal(s, used, b, |s.banks|) else ActiveCharged(s, used, b, |s.assocs|)
  }

  function ActiveSubTotal(s: Schema, used: seq<nat>, b: string, n: nat): nat
    requires s.Tree() && |used| == |s.assocs| && n <= |s.banks| && b != ""
    decreases s.maxDepth + 1 - s.Depth(b), n
  {
    if n == 0 then 0
    else ActiveSubTotal(s, used, b, n - 1)
         + if s.banks[n - 1].parent == b && s.banks[n - 1].active then ActiveTotal(s, used, s.banks[n - 1].name) else 0
  }

  /** Shares of the active associations of b among the first n rows. */
  function AssocShares(s: Schema, b: string, n: nat): nat
    requires n <= |s.assocs|
  {
    if n == 0 then 0
    else AssocShares(s, b, n - 1)
         + if s.assocs[n - 1].bank == b && s.assocs[n - 1].active then s.assocs[n - 1].shares else 0
  }

  /** Shares of the active sub-banks of b among the first n rows. */
  function BankShares(s: Schema, b: string, n: nat): nat
    requires n <= |s.banks|
  {
    if n == 0 then 0
    else BankShares(s, b, n - 1)
         + if s.banks[n - 1].parent == b && s.banks[n - 1].active then s.banks[n - 1].shares else 0
  }

  function ActiveShares(s: Schema, b: string): nat
  {
    if s.HasSubBanks(b) then BankShares(s, b, |s.banks|) else AssocShares(s, b, |s.assocs|)
  }

  /** What the tables say of one child of a bank. */
  datatype Kid = Kid(name: string, isUser: bool, shares: nat)

  /** The active associations of b among the first n rows, in order. */
  function UserKids(s: Schema, b: string, n: nat): seq<Kid>
    requires n <= |s.assocs|
  {
    if n == 0 then []
    else
      var r := s.assocs[n - 1];
      UserKids(s, b, n - 1) + if r.bank == b && r.active then [Kid(r.username, true, r.shares)] else []
  }

  /** What they have used. */
  function UserBills(s: Schema, used: seq<nat>, b: string, n: nat): seq<nat>
    requires n <= |s.assocs| == |used|
  {
    if n == 0 then []
    else UserBills(s, used, b, n - 1)
         + if s.assocs[n - 1].bank == b && s.assocs[n - 1].active then [used[n - 1]] else []
  }

  function BillsTotal(bills: seq<nat>): nat
  {
    if bills == [] then 0 else BillsTotal(bills[..|bills| - 1]) + bills[|bills| - 1]
  }

  lemma BillsTotalSnoc(bills: seq<nat>, u: nat)
    ensures BillsTotal(bills + [u]) == BillsTotal(bills) + u
  {
    assert (bills + [u])[..|bills|] == bills;
  }

  lemma {:induction false} BillsAreCharged(s: Schema, used: seq<nat>, b: string, n: nat)
    requires n <= |s.assocs| == |used|
    ensures BillsTotal(UserBills(s, used, b, n)) == ActiveCharged(s, used, b, n)
  {
    if n != 0 {
      BillsAreCharged(s, used, b, n - 1);
      BillsTotalSnoc(UserBills(s, used, b, n - 1), used[n - 1]);
      assert UserBills(s, used, b, n - 1) + [] == UserBills(s, used, b, n - 1);
    }
  }

  /** Some row holds association a with this usage. */
  ghost predicate Listed(s: Schema, used: seq<nat>, a: Assoc, usage: nat)
    requires |used| == |s.assocs|
  {
    exists i :: 0 <= i < |used| && s.assocs[i] == a && used[i] == usage
  }

  lemma {:induction false} BillsAreListed(s: Schema, used: seq<nat>, b: string, n: nat, j: nat)
    requires n <= |s.assocs| == |used| && j < |UserKids(s, b, n)|
    ensures |UserBills(s, used, b, n)| == |UserKids(s, b, n)|
    ensures var k := UserKids(s, b, n)[j];
            k.isUser && Listed(s, used, Assoc(k.name, b, k.shares, true), UserBills(s, used, b, n)[j])
  {
    BillsAndKids(s, used, b, n - 1);
    if j < |UserKids(s, b, n - 1)| {
      BillsAreListed(s, used, b, n - 1, j);
    } else {
      assert s.assocs[n - 1] == Assoc(s.assocs[n - 1].username, b, s.assocs[n - 1].shares, true);
    }
  }

  lemma {:induction false} BillsAndKids(s: Schema, used: seq<nat>, b: string, n: nat)
    requires n <= |s.assocs| == |used|
    ensures |UserBills(s, used, b, n)| == |UserKids(s, b, n)|
  {
    if n != 0 {
      BillsAndKids(s, used, b, n - 1);
    }
  }

  /** The active sub-banks of b among the first n rows, in order. */
  function BankKids(s: Schema, b: string, n: nat): seq<Kid>
    requires n <= |s.banks|
  {
    if n == 0 then []
    else
      var r := s.banks[n - 1];
      BankKids(s, b, n - 1) + if r.parent == b && r.active then [Kid(r.name, false, r.shares)] else []
  }

  /** The children a bank should have. */
  function Kids(s: Schema, b: string): seq<Kid>
  {
    if s.HasSubBanks(b) then BankKids(s, b, |s.banks|) else UserKids(s, b, |s.assocs|)
  }

  function KidsShares(kids: seq<Kid>): nat
  {
    if kids == [] then 0 else KidsShares(kids[..|kids| - 1]) + kids[|kids| - 1].shares
  }

  lemma KidsSnoc(kids: seq<Kid>, k: Kid)
    ensures KidsShares(kids + [k]) == KidsShares(kids) + k.shares
  {
    assert (kids + [k])[..|kids|] == kids;
  }

  lemma {:induction false} UserKidsShares(s: Schema, b: string, n: nat)
    requires n <= |s.assocs|
    ensures KidsShares(UserKids(s, b, n)) == AssocShares(s, b, n)
  {
    if n != 0 {
      var r := s.assocs[n - 1];
      UserKidsShares(s, b, n - 1);
      KidsSnoc(UserKids(s, b, n - 1), Kid(r.username, true, r.shares));
      assert UserKids(s, b, n - 1) + [] == UserKids(s, b, n - 1);
    }
  }

  lemma {:induction false} BankKidsShares(s: Schema, b: string, n: nat)
    requires n <= |s.banks|
    ensures KidsShares(BankKids(s, b, n)) == BankShares(s, b, n)
  {
    if n != 0 {
      var r := s.banks[n - 1];
      BankKidsShares(s, b, n - 1);
      KidsSnoc(BankKids(s, b, n - 1), Kid(r.name, false, r.shares));
      assert BankKids(s, b, n - 1) + [] == BankKids(s, b, n - 1);
    }
  }

  lemma KidsTotal(s: Schema, b: string)
    ensures KidsShares(Kids(s, b)) == ActiveShares(s, b)
  {
    UserKidsShares(s, b, |s.assocs|);
    BankKidsShares(s, b, |s.banks|);
  }

  /** The sums over the siblings below a bank fit a 64-bit integer. */
  predicate Fits(s: Schema, used: seq<nat>, b: string)
    requires s.Tree() && |used| == |s.assocs| && b != ""
  {
    ActiveTotal(s, used, b) <= MAX_UINT64 && ActiveShares(s, b) <= MAX_UINT64
  }

  predicate AllFit(s: Schema, used: seq<nat>)
    requires s.Tree() && |used| == |s.assocs|
  {
    forall i | 0 <= i < |s.banks| :: Fits(s, used, s.banks[i].name)
  }

  // ----- two aggregators agree -----

  function Reals(used: seq<nat>): (r: seq<real>)
    ensures |r| == |used| && forall i | 0 <= i < |used| :: r[i] == used[i] as real
  {
    seq(|used|, i requires 0 <= i < |used| => used[i] as real)
  }

  ghost predicate AllActive(s: Schema)
  {
    (forall i | 0 <= i < |s.banks| :: s.banks[i].active) && forall i | 0 <= i < |s.assocs| :: s.assocs[i].active
  }

  lemma {:induction false} ChargedAgree(s: Schema, used: seq<nat>, b: string, n: nat)
    requires n <= |s.assocs| == |used| && AllActive(s)
    ensures ActiveCharged(s, used, b, n) as real == Charged(s.assocs[..n], Reals(used)[..n], b)
  {
    if n != 0 {
      ChargedAgree(s, used, b, n - 1);
      assert s.assocs[..n][..n - 1] == s.assocs[..n - 1] && Reals(used)[..n][..n - 1] == Reals(used)[..n - 1];
    }
  }

  /** With all rows active the usage pushed up while the tree is loaded is the
      usage the bottom-up recompute of the bank table arrives at. */
  lemma {:induction false} AggregatorsAgree(s: Schema, used: seq<nat>, b: string)
    requires s.Tree() && |used| == |s.assocs| && b != "" && AllActive(s)
    ensures ActiveTotal(s, used, b) as real == Total(s, Reals(used), b)
    decreases s.maxDepth + 1 - s.Depth(b), |s.banks| + 1
  {
    if s.HasSubBanks(b) {
      SubTotalsAgree(s, used, b, |s.banks|);
    } else {
      ChargedAgree(s, used, b, |s.assocs|);
      assert s.assocs[..|s.assocs|] == s.assocs && Reals(used)[..|s.assocs|] == Reals(used);
    }
  }

  lemma {:induction false} SubTotalsAgree(s: Schema, used: seq<nat>, b: string, n: nat)
    requires s.Tree() && |used| == |s.assocs| && n <= |s.banks| && b != "" && AllActive(s)
    ensures ActiveSubTotal(s, used, b, n) as real == SubTotal(s, Reals(used), b, n)
    decreases s.maxDepth + 1 - s.Depth(b), n
  {
    if n != 0 {
      SubTotalsAgree(s, used, b, n - 1);
      if s.banks[n - 1].parent == b {
        AggregatorsAgree(s, used, s.banks[n - 1].name);
      }
    }
  }

  // ----- building the tree -----

  /** ups are n's parent and its ancestors, up to the root. */
  ghost predicate Chain(n: Node, ups: set<Node>)
    decreases ups
  {
    n !in ups && if n.parent == null then ups == {} else n.parent in ups && Chain(n.parent, ups - {n.parent})
  }

  /** One node more below every ancestor. */
  method PropagateSubtreeSize(n: Node, ghost ups: set<Node>)
    requires Chain(n, ups)
    modifies ups`subtreeSize
    ensures forall a | a in ups :: a.subtreeSize == old(a.subtreeSize) + 1
    decreases ups
  {
    if n.parent == null {
      return;
    }
    n.parent.subtreeSize := n.parent.subtreeSize + 1;
    PropagateSubtreeSize(n.parent, ups - {n.parent});
  }

  /** One user more below every ancestor. */
  method PropagateSubtreeLeafSize(n: Node, ghost ups: set<Node>)
    requires Chain(n, ups)
    modifies ups`subtreeLeafSize
    ensures forall a | a in ups :: a.subtreeLeafSize == old(a.subtreeLeafSize) + 1
    decreases ups
  {
    if n.parent == null {
      return;
    }
    n.parent.subtreeLeafSize := n.parent.subtreeLeafSize + 1;
    PropagateSubtreeLeafSize(n.parent, ups - {n.parent});
  }

  /** Append a child and let every ancestor count it. */
  method AddChild(n: Node, c: Node, ghost ups: set<Node>)
    requires Chain(n, ups)
    modifies n`children, n`subtreeSize, n`subtreeLeafSize, ups`subtreeSize, ups`subtreeLeafSize
    ensures n.children == old(n.children) + [c]
    ensures n.subtreeSize == old(n.subtreeSize) + 1
    ensures n.subtreeLeafSize == old(n.subtreeLeafSize) + if c.isUser then 1 else 0
    ensures forall a {:trigger a in ups} | a in ups :: a.subtreeSize == old(a.subtreeSize) + 1
    ensures forall a {:trigger a in ups} | a in ups ::
              a.subtreeLeafSize == old(a.subtreeLeafSize) + if c.isUser then 1 else 0
  {
    n.AddChildOnly(c);
    n.subtreeSize := n.subtreeSize + 1;
    PropagateSubtreeSize(n, ups);
    if c.isUser {
      n.subtreeLeafSize := n.subtreeLeafSize + 1;
      PropagateSubtreeLeafSize(n, ups);
    }
  }

  /** Add a bank's usage to it and to every ancestor. */
  method AggregateJobUsage(n: Node, usage: nat, ghost ups: set<Node>)
    requires Chain(n, ups)
    modifies n`usage, ups`usage
    ensures n.usage == old(n.usage) + usage
    ensures forall a | a in ups :: a.usage == old(a.usage) + usage
    decreases ups
  {
    n.usage := n.usage + usage;
    if n.parent != null {
      AggregateJobUsage(n.parent, usage, ups - {n.parent});
    }
  }

  /** The children there are. */
  function Roster(cs: seq<Node>): seq<Kid>
  {
    if cs == [] then []
    else var c := cs[|cs| - 1]; Roster(cs[..|cs| - 1]) + [Kid(c.name, c.isUser, c.shares)]
  }

  lemma RosterSnoc(cs: seq<Node>, c: Node)
    ensures Roster(cs + [c]) == Roster(cs) + [Kid(c.name, c.isUser, c.shares)]
  {
    assert (cs + [c])[..|cs|] == cs;
  }

  lemma {:induction false} RosterShares(cs: seq<Node>)
    ensures SumShares(cs) == KidsShares(Roster(cs))
  {
    if cs != [] {
      var init, c := cs[..|cs| - 1], cs[|cs| - 1];
      assert cs == init + [c];
      RosterShares(init);
      SumsSnoc(init, c);
      KidsSnoc(Roster(init), Kid(c.name, c.isUser, c.shares));
    }
  }

  lemma {:induction false} RosterAt(cs: seq<Node>, j: nat)
    requires j < |cs|
    ensures |Roster(cs)| == |cs| && Roster(cs)[j] == Kid(cs[j].name, cs[j].isUser, cs[j].shares)
  {
    var init := cs[..|cs| - 1];
    if init != [] {
      RosterAt(init, if j < |init| then j else 0);
    }
  }

  /** What the children have used. */
  ghost function Bills(cs: seq<Node>): seq<nat>
    reads cs`usage
  {
    if cs == [] then [] else Bills(cs[..|cs| - 1]) + [cs[|cs| - 1].usage]
  }

  lemma BillsSnoc(cs: seq<Node>, c: Node)
    ensures Bills(cs + [c]) == Bills(cs) + [c.usage]
  {
    assert (cs + [c])[..|cs|] == cs;
  }

  lemma {:induction false} BillsSum(cs: seq<Node>)
    ensures SumUsage(cs) == BillsTotal(Bills(cs))
  {
    if cs != [] {
      var init, c := cs[..|cs| - 1], cs[|cs| - 1];
      assert cs == init + [c];
      BillsSum(init);
      BillsSnoc(init, c);
      SumsSnoc(init, c);
      BillsTotalSnoc(Bills(init), c.usage);
    }
  }

  lemma {:induction false} BillAt(cs: seq<Node>, j: nat)
    requires j < |cs|
    ensures |Bills(cs)| == |cs| && Bills(cs)[j] == cs[j].usage
  {
    var init := cs[..|cs| - 1];
    if init != [] {
      BillAt(init, if j < |init| then j else 0);
    }
  }

  /** A bank carries the usage of what lies below it, and has the children the
      tables give it, in their order. */
  ghost predicate BankRight(s: Schema, used: seq<nat>, m: Node)
    requires s.Tree() && |used| == |s.assocs|
    reads m`usage, m`children
  {
    m.name != "" && m.usage == ActiveTotal(s, used, m.name) && Roster(m.children) == Kids(s, m.name)
  }

  /** A user stands for an active association of its bank and carries its usage. */
  ghost predicate UserRight(s: Schema, used: seq<nat>, m: Node)
    requires |used| == |s.assocs|
    reads m`usage
  {
    m.parent != null && Listed(s, used, Assoc(m.name, m.parent.name, m.shares, true), m.usage)
  }

  /** Banks and users among the nodes are right, and the users are among those
      listed. */
  ghost predicate Loaded(s: Schema, used: seq<nat>, nodes: set<Node>, users: set<Node>)
    requires s.Tree() && |used| == |s.assocs|
    reads nodes`usage, nodes`children
  {
    && (forall m {:trigger BankRight(s, used, m)} | m in nodes && !m.isUser :: BankRight(s, used, m))
    && (forall m {:trigger UserRight(s, used, m)} {:trigger m in users} | m in nodes && m.isUser ::
         m in users && UserRight(s, used, m))
  }

  /** The children cs of n are finished, apart from n and its ancestors. */
  ghost predicate Standing(n: Node, ups: set<Node>, cs: seq<Node>)
    reads cs, Owned(cs)
  {
    && Grove(cs) && n !in Owned(cs) && n !in cs
    && forall a {:trigger a in ups} | a in ups :: a !in Owned(cs) && a !in cs
  }

  /** A bank under construction: its children so far are finished, and its user
      count is theirs. */
  ghost predicate Growing(n: Node, ups: set<Node>)
    reads n, n.children, Owned(n.children)
  {
    && !n.isUser && !n.tieWithNext && Standing(n, ups, n.children)
    && n.subtreeLeafSize == |UsersOf(n.children)| && Chain(n, ups)
  }

  /** A finished tree has been appended to the children. */
  lemma GrowsBy(n: Node, ups: set<Node>, cs: seq<Node>, c: Node, leaves: nat)
    requires Standing(n, ups, cs) && n.children == cs + [c] && leaves == |UsersOf(cs)|
    requires !n.isUser && !n.tieWithNext && Chain(n, ups)
    requires c.Sound() && c.repr !! Owned(cs) && n !in c.repr
             && (forall a {:trigger a in ups} | a in ups :: a !in c.repr)
    requires n.subtreeLeafSize == leaves + |c.paths|
    ensures Growing(n, ups)
  {
    GroveSnoc(cs, c);
    OwnedSnoc(cs, c);
    UsersSnoc(cs, c);
    NewUsers(cs, c);
    CountUsers(UsersOf(cs), c.paths);
  }

  lemma ChildrenOwned(cs: seq<Node>)
    requires Grove(cs)
    ensures forall c | c in cs :: c in Owned(cs)
  {
    forall c | c in cs ensures c in Owned(cs) {
      assert c.Sound();
    }
  }

  /** A user as it is made. */
  ghost predicate PlainUser(u: Node)
    reads u`children, u`repr, u`paths, u`tieWithNext
  {
    u.isUser && u.children == [] && u.repr == {u} && u.paths == map[u := []] && !u.tieWithNext
  }

  ghost predicate PlainUsers(cs: seq<Node>)
    reads cs`children, cs`repr, cs`paths, cs`tieWithNext
  {
    && (forall j | 0 <= j < |cs| :: PlainUser(cs[j]))
    && Distinct(cs)
  }

  /** Such a user is a finished tree by itself. */
  lemma UserIsSound(u: Node)
    requires PlainUser(u)
    ensures u.Sound()
  {
    assert u.Shape() && u.PathsKnown() && u.Weighted();
  }

  function Members(cs: seq<Node>): set<Node>
  {
    set c | c in cs
  }

  lemma MembersGrow(cs: seq<Node>)
    ensures forall c :: Members(cs + [c]) - Members(cs) <= {c}
  {
    forall c ensures Members(cs + [c]) - Members(cs) <= {c} {
      MembersSnoc(cs, c);
    }
  }

  lemma MembersSnoc(cs: seq<Node>, c: Node)
    ensures Members(cs + [c]) == Members(cs) + {c}
  {
  }

  lemma {:induction false} MembersCount(cs: seq<Node>)
    requires Distinct(cs)
    ensures |Members(cs)| == |cs|
  {
    if cs != [] {
      var init, c := cs[..|cs| - 1], cs[|cs| - 1];
      MembersCount(init);
      assert cs == init + [c];
      MembersSnoc(init, c);
    }
  }

  /** Such users own, and count, themselves. */
  lemma {:induction false} PlainUsersOwn(cs: seq<Node>)
    requires PlainUsers(cs)
    ensures Owned(cs) == Members(cs)
  {
    if cs != [] {
      var init, c := cs[..|cs| - 1], cs[|cs| - 1];
      PlainUsersOwn(init);
      assert PlainUser(c) && cs == init + [c];
      OwnedSnoc(init, c);
      MembersSnoc(init, c);
    }
  }

  lemma {:induction false} PlainUsersCount(cs: seq<Node>)
    requires PlainUsers(cs)
    ensures UsersOf(cs) == Members(cs)
  {
    if cs != [] {
      var init, c := cs[..|cs| - 1], cs[|cs| - 1];
      PlainUsersCount(init);
      assert PlainUser(c) && cs == init + [c];
      UsersSnoc(init, c);
      MembersSnoc(init, c);
    }
  }

  lemma PlainUsersStand(n: Node, ups: set<Node>, cs: seq<Node>)
    requires PlainUsers(cs) && !n.isUser && forall j | 0 <= j < |cs| :: cs[j] !in ups
    ensures Standing(n, ups, cs)
  {
    PlainUsersOwn(cs);
    forall j | 0 <= j < |cs| ensures cs[j].Sound() && PlainUser(cs[j]) {
      UserIsSound(cs[j]);
    }
  }

  /** An association becomes a user below its bank. */
  method AddAssoc(username: string, shares: nat, usage: nat, n: Node, ghost ups: set<Node>) returns (user: Node)
    requires Chain(n, ups)
    modifies n`children, n`subtreeSize, n`subtreeLeafSize, ups`subtreeSize, ups`subtreeLeafSize
    ensures fresh(user) && PlainUser(user) && user.shares == shares && user.usage == usage
    ensures user.name == username && user.parent == n
    ensures n.children == old(n.children) + [user] && n.subtreeLeafSize == old(n.subtreeLeafSize) + 1
    ensures forall a {:trigger a in ups} | a in ups :: a.subtreeLeafSize == old(a.subtreeLeafSize) + 1
  {
    user := new Node(n, username, true, shares, usage);
    AddChild(n, user, ups);
  }

  /** The children are the active associations of b among the first i rows. */
  ghost predicate UsersUpTo(s: Schema, used: seq<nat>, b: string, i: nat, n: Node)
    requires i <= |s.assocs| == |used|
    reads n, n.children
  {
    Roster(n.children) == UserKids(s, b, i) && Bills(n.children) == UserBills(s, used, b, i)
  }

  /** What n's ancestors carried before n was filled: usage and users. */
  datatype Books = Books(usage: map<Node, nat>, leaves: map<Node, nat>)

  ghost function BooksOf(ups: set<Node>): Books
    reads ups`usage, ups`subtreeLeafSize
  {
    Books(map a | a in ups :: a.usage, map a | a in ups :: a.subtreeLeafSize)
  }

  /** Each ancestor carries what n has on top of what it carried before. */
  ghost predicate Carried(n: Node, ups: set<Node>, books: Books)
    reads n, ups`usage, ups`subtreeLeafSize
  {
    && books.usage.Keys == ups && books.leaves.Keys == ups
    && forall a {:trigger a in ups} | a in ups ::
         a.usage == books.usage[a] + n.usage && a.subtreeLeafSize == books.leaves[a] + n.subtreeLeafSize
  }

  /** The active associations of b among the first i rows are users below n, and
      the ancestors have counted them. */
  ghost predicate Stocked(s: Schema, used: seq<nat>, b: string, i: nat, n: Node, ups: set<Node>, books: Books)
    requires i <= |s.assocs| == |used|
    reads n, ups, n.children
  {
    && !n.isUser && !n.tieWithNext && PlainUsers(n.children) && n.subtreeLeafSize == |n.children|
    && UsersUpTo(s, used, b, i, n) && Carried(n, ups, books)
    && forall j | 0 <= j < |n.children| :: n.children[j].parent == n
  }

  /** The association in row i, if it is an active one of b, becomes a user of its
      bank, and its usage is added to that of the rows before. */
  method AddRow(s: Schema, used: seq<nat>, b: string, i: nat, n: Node, ghost ups: set<Node>, ghost books: Books,
                sofar: nat)
      returns (usage: nat)
    requires i < |s.assocs| == |used| && Stocked(s, used, b, i, n, ups, books)
    requires Chain(n, ups) && sofar == ActiveCharged(s, used, b, i)
    modifies n`children, n`subtreeSize, n`subtreeLeafSize, ups`subtreeSize, ups`subtreeLeafSize
    ensures Stocked(s, used, b, i + 1, n, ups, books) && usage == ActiveCharged(s, used, b, i + 1)
    ensures fresh(Members(n.children) - old(Members(n.children)))
  {
    usage := sofar;
    if s.assocs[i].bank == b && s.assocs[i].active {
      MembersGrow(n.children);
      AddActiveRow(s, used, b, i, n, ups, books);
      usage := usage + used[i];
    }
  }

  method AddActiveRow(s: Schema, used: seq<nat>, b: string, i: nat, n: Node, ghost ups: set<Node>, ghost books: Books)
    requires i < |s.assocs| == |used| && Stocked(s, used, b, i, n, ups, books) && Chain(n, ups)
    requires s.assocs[i].bank == b && s.assocs[i].active
    modifies n`children, n`subtreeSize, n`subtreeLeafSize, ups`subtreeSize, ups`subtreeLeafSize
    ensures Stocked(s, used, b, i + 1, n, ups, books)
    ensures exists user :: fresh(user) && n.children == old(n.children) + [user]
  {
    ghost var cs := n.children;
    ghost var roster, bills, plain := Roster(cs), Bills(cs), PlainUsers(cs);
    var user := AddAssoc(s.assocs[i].username, s.assocs[i].shares, used[i], n, ups);
    assert roster == Roster(cs) && bills == Bills(cs) && plain == PlainUsers(cs);
    RowAdded(s, used, b, i, n, cs, user);
    OneMorePlain(cs, user);
  }

  lemma OneMorePlain(cs: seq<Node>, user: Node)
    requires PlainUsers(cs) && PlainUser(user) && user !in cs
    ensures PlainUsers(cs + [user])
  {
  }

  /** With the association in row i loaded, one more row is done. */
  lemma RowAdded(s: Schema, used: seq<nat>, b: string, i: nat, n: Node, cs: seq<Node>, user: Node)
    requires i < |s.assocs| == |used| && s.assocs[i].bank == b && s.assocs[i].active && n.children == cs + [user]
    requires Roster(cs) == UserKids(s, b, i) && Bills(cs) == UserBills(s, used, b, i)
    requires user.isUser && user.name == s.assocs[i].username && user.shares == s.assocs[i].shares
             && user.usage == used[i]
    ensures UsersUpTo(s, used, b, i + 1, n)
  {
    RosterSnoc(cs, user);
    BillsSnoc(cs, user);
  }

  /** The active associations of a bank become its users. */
  method AddAssocs(s: Schema, used: seq<nat>, b: string, n: Node, ghost ups: set<Node>, ghost books: Books)
      returns (usage: nat)
    requires |used| == |s.assocs| && Stocked(s, used, b, 0, n, ups, books) && Chain(n, ups) && n.children == []
    modifies n`children, n`subtreeSize, n`subtreeLeafSize, ups`subtreeSize, ups`subtreeLeafSize
    ensures Stocked(s, used, b, |s.assocs|, n, ups, books) && usage == ActiveCharged(s, used, b, |s.assocs|)
    ensures fresh(Members(n.children))
  {
    usage := 0;
    for i := 0 to |s.assocs|
      invariant fresh(Members(n.children))
      invariant Stocked(s, used, b, i, n, ups, books) && usage == ActiveCharged(s, used, b, i)
    {
      usage := AddRow(s, used, b, i, n, ups, books, usage);
    }
  }

  /** ups are parent, if there is one, and its ancestors. */
  ghost predicate Ancestors(parent: Node?, ups: set<Node>)
  {
    if parent == null then ups == {} else parent in ups && Chain(parent, ups - {parent})
  }

  /** A bank's row. */
  method FindBank(s: Schema, b: string) returns (found: bool, row: nat)
    ensures found ==> row < |s.banks| && s.banks[row].name == b
    ensures !found ==> forall i | 0 <= i < |s.banks| :: s.banks[i].name != b
  {
    for i := 0 to |s.banks|
      invariant forall j | 0 <= j < i :: s.banks[j].name != b
    {
      if s.banks[i].name == b {
        return true, i;
      }
    }
    found, row := false, 0;
  }

  /** A freshly made bank node, appended to its parent. */
  method NewBank(b: string, shares: nat, parent: Node?, ghost ups: set<Node>) returns (n: Node)
    requires Ancestors(parent, ups)
    modifies (if parent == null then {} else {parent})`children, ups`subtreeSize, ups`subtreeLeafSize
    ensures fresh(n) && Growing(n, ups) && n.children == [] && n.name == b && n.shares == shares && n.usage == 0
    ensures n.subtreeLeafSize == 0 && n.parent == parent
    ensures parent != null ==> parent.children == old(parent.children) + [n]
    ensures forall a {:trigger a in ups} | a in ups :: a.subtreeLeafSize == old(a.subtreeLeafSize)
  {
    n := new Node(parent, b, false, shares, 0);
    if parent != null {
      AddChild(parent, n, ups - {parent});
    }
    assert Owned([]) == {} && UsersOf([]) == {};
  }

  /** What a loaded bank is: a finished tree with the usage of what lies below it,
      on it and on every bank in it. */
  ghost predicate BankLoaded(s: Schema, used: seq<nat>, b: string, n: Node)
    requires s.Tree() && |used| == |s.assocs| && b != ""
    reads n, n.repr
  {
    && n.Sound() && !n.isUser && n.name == b && n.usage == ActiveTotal(s, used, b)
    && n.subtreeLeafSize == |n.paths| && Loaded(s, used, n.repr, n.paths.Keys)
  }

  /** The children of n are the sub-banks of b among the first i rows. */
  ghost predicate BanksUpTo(s: Schema, used: seq<nat>, b: string, i: nat, n: Node)
    requires s.Tree() && |used| == |s.assocs| && b != "" && i <= |s.banks|
    reads n, n.children
  {
    && n.usage == SumUsage(n.children) == ActiveSubTotal(s, used, b, i)
    && Roster(n.children) == BankKids(s, b, i)
  }

  /** Everything below b is loaded, owned within `below`, and handed up to the ancestors. */
  ghost predicate Filled(s: Schema, used: seq<nat>, b: string, n: Node, ups: set<Node>, books: Books, below: set<Node>)
    requires s.Tree() && |used| == |s.assocs| && b != ""
    reads n, ups, n.children, Owned(n.children)
  {
    && Growing(n, ups) && Carried(n, ups, books) && Loaded(s, used, Owned(n.children), UsersOf(n.children))
    && Owned(n.children) <= below
    && n.usage == SumUsage(n.children) == ActiveTotal(s, used, b) && Roster(n.children) == Kids(s, b)
  }

  /** A bank whose children are finished becomes a tree of its own. */
  ghost method Finish(s: Schema, used: seq<nat>, b: string, n: Node, ups: set<Node>, books: Books, below: set<Node>)
      returns (loaded: bool)
    requires s.Tree() && |used| == |s.assocs| && b != "" && Fits(s, used, b)
    requires Filled(s, used, b, n, ups, books, below) && n.name == b
    modifies n`repr, n`height, n`paths, below`trueWeight
    ensures loaded && loaded == BankLoaded(s, used, b, n) && n.repr <= {n} + below && Carried(n, ups, books)
  {
    FitsIsPlantable(s, used, b, n, ups, books, below);
    var owned, users := Owned(n.children), UsersOf(n.children);
    var right := Loaded(s, used, owned, users);
    TakeRoot(n, below);
    assert right == Loaded(s, used, owned, users);
    FinishedIsLoaded(s, used, b, n, owned);
    loaded := BankLoaded(s, used, b, n);
  }

  lemma FitsIsPlantable(s: Schema, used: seq<nat>, b: string, n: Node, ups: set<Node>, books: Books, below: set<Node>)
    requires s.Tree() && |used| == |s.assocs| && b != "" && Fits(s, used, b) && Filled(s, used, b, n, ups, books, below)
    ensures Plantable(n)
  {
    RosterShares(n.children);
    KidsTotal(s, b);
  }

  /** A bank over finished trees takes them over. */
  ghost method TakeRoot(n: Node, below: set<Node>)
    requires Plantable(n) && Owned(n.children) <= below
    modifies n`repr, n`height, n`paths, below`trueWeight
    ensures n.Sound() && n.repr == {n} + old(Owned(n.children))
    ensures n.paths.Keys == old(UsersOf(n.children)) && |n.paths| == |old(UsersOf(n.children))|
  {
    ChildrenOwned(n.children);
    var users := UsersOf(n.children);
    Plant(n);
    KeysCount(n.paths, users);
  }

  lemma KeysCount(paths: map<Node, Path>, users: set<Node>)
    requires paths.Keys == users
    ensures |paths| == |users|
  {
  }

  lemma FinishedIsLoaded(s: Schema, used: seq<nat>, b: string, n: Node, owned: set<Node>)
    requires s.Tree() && |used| == |s.assocs| && b != "" && Loaded(s, used, owned, n.paths.Keys)
    requires n.Sound() && !n.isUser && n.name == b && n.usage == ActiveTotal(s, used, b)
    requires n.subtreeLeafSize == |n.paths| && n.repr == {n} + owned && Roster(n.children) == Kids(s, b)
    ensures BankLoaded(s, used, b, n)
  {
    assert BankRight(s, used, n);
  }

  lemma NothingStocked(s: Schema, used: seq<nat>, b: string, n: Node, ups: set<Node>)
    requires |used| == |s.assocs| && Growing(n, ups) && n.children == [] && n.usage == 0 && n.subtreeLeafSize == 0
    ensures Stocked(s, used, b, 0, n, ups, BooksOf(ups))
  {
  }

  /** Users loaded from the rows stand for them. */
  lemma UsersAreRight(s: Schema, used: seq<nat>, b: string, n: Node)
    requires s.Tree() && |used| == |s.assocs| && UsersUpTo(s, used, b, |s.assocs|, n) && n.name == b
    requires forall j | 0 <= j < |n.children| :: n.children[j].parent == n
    ensures Loaded(s, used, Members(n.children), Members(n.children))
  {
    forall j | 0 <= j < |n.children| ensures n.children[j].isUser && UserRight(s, used, n.children[j]) {
      RosterAt(n.children, j);
      BillAt(n.children, j);
      BillsAreListed(s, used, b, |s.assocs|, j);
    }
  }

  lemma LeafIsFilled(s: Schema, used: seq<nat>, b: string, n: Node, ups: set<Node>, books: Books)
    requires s.Tree() && |used| == |s.assocs| && b != "" && !s.HasSubBanks(b)
    requires Stocked(s, used, b, |s.assocs|, n, ups, books) && n.usage == ActiveCharged(s, used, b, |s.assocs|)
    requires Chain(n, ups) && n.name == b
    requires forall j | 0 <= j < |n.children| :: n.children[j] !in ups && n.children[j].parent == n
    ensures Filled(s, used, b, n, ups, books, Members(n.children))
  {
    UsersAreRight(s, used, b, n);
    BillsSum(n.children);
    BillsAreCharged(s, used, b, |s.assocs|);
    PlainUsersOwn(n.children);
    PlainUsersCount(n.children);
    MembersCount(n.children);
    PlainUsersStand(n, ups, n.children);
  }

  /** A bank without sub-banks gets its users, and hands their usage up. */
  method FillLeaf(s: Schema, used: seq<nat>, b: string, n: Node, ghost ups: set<Node>, ghost books: Books)
      returns (ghost below: set<Node>)
    requires s.Tree() && |used| == |s.assocs| && b != "" && !s.HasSubBanks(b)
    requires n.name == b
    requires Growing(n, ups) && n.children == [] && n.usage == 0 && n.subtreeLeafSize == 0 && books == BooksOf(ups)
    modifies n`children, n`subtreeSize, n`subtreeLeafSize, n`usage
    modifies ups`subtreeSize, ups`subtreeLeafSize, ups`usage
    ensures Filled(s, used, b, n, ups, books, below) && fresh(below)
  {
    NothingStocked(s, used, b, n, ups);
    var usage := AddAssocs(s, used, b, n, ups, books);
    below := Members(n.children);
    assert forall j | 0 <= j < |n.children| :: n.children[j] in below;
    HandUp(s, used, b, n, ups, books, usage);
    LeafIsFilled(s, used, b, n, ups, books);
  }

  /** The users' usage goes to the bank and its ancestors. */
  method HandUp(s: Schema, used: seq<nat>, b: string, n: Node, ghost ups: set<Node>, ghost books: Books, usage: nat)
    requires |used| == |s.assocs| && Stocked(s, used, b, |s.assocs|, n, ups, books) && Chain(n, ups) && n.usage == 0
    requires forall j | 0 <= j < |n.children| :: n.children[j] !in ups
    modifies n`usage, ups`usage
    ensures Stocked(s, used, b, |s.assocs|, n, ups, books) && n.usage == usage
  {
    AggregateJobUsage(n, usage, ups);
  }

  /** Load bank b and everything below it, as the next child of its parent, and
      hand its usage and its users up to all ancestors.  Nothing is loaded for a
      bank without a row. */
  method GetSubBanks(s: Schema, used: seq<nat>, b: string, parent: Node?, ghost ups: set<Node>) returns (node: Node?)
    requires s.Tree() && |used| == |s.assocs| && AllFit(s, used) && b != "" && Ancestors(parent, ups)
    modifies (if parent == null then {} else {parent})`children
    modifies ups`subtreeSize, ups`subtreeLeafSize, ups`usage
    ensures node == null <==> forall i | 0 <= i < |s.banks| :: s.banks[i].name != b
    ensures node == null && parent != null ==> parent.children == old(parent.children)
    ensures node != null ==>
              && BankLoaded(s, used, b, node) && fresh(node.repr) && node.parent == parent
              && (exists i :: 0 <= i < |s.banks| && s.banks[i].name == b && s.banks[i].shares == node.shares)
              && (parent != null ==> parent.children == old(parent.children) + [node])
              && (forall a {:trigger a in ups} | a in ups :: a.usage == old(a.usage) + node.usage)
              && (forall a {:trigger a in ups} | a in ups ::
                    a.subtreeLeafSize == old(a.subtreeLeafSize) + node.subtreeLeafSize)
    decreases s.maxDepth + 1 - s.Depth(b), |s.banks| + 2, 3
  {
    var found, row := FindBank(s, b);
    if !found {
      return null;
    }
    assert Fits(s, used, s.banks[row].name);
    ghost var loaded, below;
    node, loaded, below := LoadRow(s, used, b, row, parent, ups);
  }

  /** Make the node for bank b, found in the given row, and load it. */
  method LoadRow(s: Schema, used: seq<nat>, b: string, row: nat, parent: Node?, ghost ups: set<Node>)
      returns (n: Node, ghost loaded: bool, ghost below: set<Node>)
    requires s.Tree() && |used| == |s.assocs| && AllFit(s, used) && b != "" && Ancestors(parent, ups)
    requires row < |s.banks| && s.banks[row].name == b && Fits(s, used, b)
    modifies (if parent == null then {} else {parent})`children
    modifies ups`subtreeSize, ups`subtreeLeafSize, ups`usage
    ensures loaded && loaded == BankLoaded(s, used, b, n)
    ensures fresh(n) && fresh(below) && n.repr <= {n} + below && n.parent == parent && n.shares == s.banks[row].shares
    ensures parent != null ==> parent.children == old(parent.children) + [n]
    ensures forall a {:trigger a in ups} | a in ups :: a.usage == old(a.usage) + n.usage
    ensures forall a {:trigger a in ups} | a in ups :: a.subtreeLeafSize == old(a.subtreeLeafSize) + n.subtreeLeafSize
    decreases s.maxDepth + 1 - s.Depth(b), |s.banks| + 2, 2
  {
    n := NewBank(b, s.banks[row].shares, parent, ups);
    loaded, below := FillBank(s, used, b, n, ups, BooksOf(ups));
  }

  /** Load bank b, whose node has been made. */
  method FillBank(s: Schema, used: seq<nat>, b: string, n: Node, ghost ups: set<Node>, ghost books: Books)
      returns (ghost loaded: bool, ghost below: set<Node>)
    requires s.Tree() && |used| == |s.assocs| && AllFit(s, used) && b != "" && Fits(s, used, b)
    requires Growing(n, ups) && n.children == [] && n.usage == 0 && n.subtreeLeafSize == 0 && n.name == b
    requires books == BooksOf(ups)
    modifies n`children, n`subtreeSize, n`subtreeLeafSize, n`usage, n`repr, n`height, n`paths
    modifies ups`subtreeSize, ups`subtreeLeafSize, ups`usage
    ensures loaded && loaded == BankLoaded(s, used, b, n)
    ensures fresh(below) && n.repr <= {n} + below && Carried(n, ups, books)
    decreases s.maxDepth + 1 - s.Depth(b), |s.banks| + 2, 1
  {
    below := FillBelow(s, used, b, n, ups, books);
    loaded := Finish(s, used, b, n, ups, books, below);
  }

  /** Load what lies below bank b. */
  method FillBelow(s: Schema, used: seq<nat>, b: string, n: Node, ghost ups: set<Node>, ghost books: Books)
      returns (ghost below: set<Node>)
    requires s.Tree() && |used| == |s.assocs| && AllFit(s, used) && b != ""
    requires n.name == b
    requires Growing(n, ups) && n.children == [] && n.usage == 0 && n.subtreeLeafSize == 0 && books == BooksOf(ups)
    modifies n`children, n`subtreeSize, n`subtreeLeafSize, n`usage
    modifies ups`subtreeSize, ups`subtreeLeafSize, ups`usage
    ensures Filled(s, used, b, n, ups, books, below) && fresh(below)
    decreases s.maxDepth + 1 - s.Depth(b), |s.banks| + 2, 0
  {
    if s.HasSubBanks(b) {
      NothingFilled(s, used, b, n, ups);
      below := AddSubBanks(s, used, b, n, ups, books);
      AllLoaded(s, used, b, n, ups, books, below);
    } else {
      below := FillLeaf(s, used, b, n, ups, books);
    }
  }

  lemma AllLoaded(s: Schema, used: seq<nat>, b: string, n: Node, ups: set<Node>, books: Books, below: set<Node>)
    requires s.Tree() && |used| == |s.assocs| && b != "" && s.HasSubBanks(b)
    requires Filling(s, used, b, |s.banks|, n, ups, books, below)
    ensures Filled(s, used, b, n, ups, books, below)
  {
  }

  /** The sub-banks among the first i rows are loaded, lie within `below`, and have been
      handed up to the ancestors. */
  ghost predicate Filling(s: Schema, used: seq<nat>, b: string, i: nat, n: Node, ups: set<Node>, books: Books,
                          below: set<Node>)
    requires s.Tree() && |used| == |s.assocs| && b != "" && i <= |s.banks|
    reads n, ups, n.children, Owned(n.children)
  {
    && Growing(n, ups) && BanksUpTo(s, used, b, i, n) && Carried(n, ups, books)
    && Loaded(s, used, Owned(n.children), UsersOf(n.children)) && Owned(n.children) <= below
  }

  lemma NothingFilled(s: Schema, used: seq<nat>, b: string, n: Node, ups: set<Node>)
    requires s.Tree() && |used| == |s.assocs| && b != ""
    requires Growing(n, ups) && n.children == [] && n.usage == 0 && n.subtreeLeafSize == 0
    ensures Owned(n.children) == {} && Filling(s, used, b, 0, n, ups, BooksOf(ups), {})
  {
  }

  /** Load the active sub-banks of b. */
  method AddSubBanks(s: Schema, used: seq<nat>, b: string, n: Node, ghost ups: set<Node>, ghost books: Books)
      returns (ghost below: set<Node>)
    requires s.Tree() && |used| == |s.assocs| && AllFit(s, used) && b != ""
    requires Filling(s, used, b, 0, n, ups, books, {})
    modifies n`children, n`subtreeSize, n`subtreeLeafSize, n`usage
    modifies ups`subtreeSize, ups`subtreeLeafSize, ups`usage
    ensures Filling(s, used, b, |s.banks|, n, ups, books, below) && fresh(below)
    decreases s.maxDepth + 1 - s.Depth(b), |s.banks| + 1
  {
    below := {};
    for i := 0 to |s.banks|
      invariant Filling(s, used, b, i, n, ups, books, below)
      invariant fresh(below)
    {
      below := AddSubBank(s, used, b, i, n, ups, books, below);
    }
  }

  /** Load the sub-bank of b in row i, if there is an active one. */
  method AddSubBank(s: Schema, used: seq<nat>, b: string, i: nat, n: Node, ghost ups: set<Node>, ghost books: Books,
                    ghost below: set<Node>)
      returns (ghost all: set<Node>)
    requires s.Tree() && |used| == |s.assocs| && AllFit(s, used) && b != "" && i < |s.banks|
    requires Filling(s, used, b, i, n, ups, books, below)
    modifies n`children, n`subtreeSize, n`subtreeLeafSize, n`usage
    modifies ups`subtreeSize, ups`subtreeLeafSize, ups`usage
    ensures Filling(s, used, b, i + 1, n, ups, books, all) && fresh(all - below)
    decreases s.maxDepth + 1 - s.Depth(b), |s.banks|
  {
    all := below;
    if s.banks[i].parent == b && s.banks[i].active {
      ghost var cs, usage := n.children, n.usage;
      var child := LoadSubBank(s, used, i, n, ups);
      UpToNext(s, used, b, i, n, cs, child, usage);
      OwnedSnoc(cs, child);
      UsersSnoc(cs, child);
      LoadedMore(s, used, Owned(cs), UsersOf(cs), child.repr, child.paths.Keys);
      all := below + child.repr;
    }
  }

  /** With the sub-bank in row i loaded, one more row is done. */
  lemma UpToNext(s: Schema, used: seq<nat>, b: string, i: nat, n: Node, cs: seq<Node>, child: Node, usage: nat)
    requires s.Tree() && |used| == |s.assocs| && b != "" && i < |s.banks|
    requires s.banks[i].parent == b && s.banks[i].active && n.children == cs + [child] && n.usage == usage + child.usage
    requires usage == SumUsage(cs) == ActiveSubTotal(s, used, b, i) && Roster(cs) == BankKids(s, b, i)
    requires BankLoaded(s, used, s.banks[i].name, child) && child.shares == s.banks[i].shares
    ensures BanksUpTo(s, used, b, i + 1, n)
  {
    SumsSnoc(cs, child);
    RosterSnoc(cs, child);
  }

  lemma LoadedMore(s: Schema, used: seq<nat>, below: set<Node>, users: set<Node>, more: set<Node>, moreUsers: set<Node>)
    requires s.Tree() && |used| == |s.assocs| && Loaded(s, used, below, users) && Loaded(s, used, more, moreUsers)
    ensures Loaded(s, used, below + more, users + moreUsers)
  {
  }

  /** The sub-bank in row i becomes the next child of n. */
  method EnterSubBank(s: Schema, used: seq<nat>, i: nat, n: Node, ghost ups: set<Node>) returns (child: Node)
    requires s.Tree() && |used| == |s.assocs| && AllFit(s, used) && i < |s.banks| && Chain(n, ups)
    modifies n`children, n`subtreeSize, n`subtreeLeafSize, n`usage
    modifies ups`subtreeSize, ups`subtreeLeafSize, ups`usage
    ensures n.children == old(n.children) + [child]
    ensures BankLoaded(s, used, s.banks[i].name, child) && fresh(child.repr) && child.shares == s.banks[i].shares
    ensures n.usage == old(n.usage) + child.usage && n.subtreeLeafSize == old(n.subtreeLeafSize) + child.subtreeLeafSize
    ensures forall a {:trigger a in ups} | a in ups :: a.usage == old(a.usage) + child.usage
    ensures forall a {:trigger a in ups} | a in ups ::
              a.subtreeLeafSize == old(a.subtreeLeafSize) + child.subtreeLeafSize
    decreases s.maxDepth + 1 - s.Depth(s.banks[i].name), |s.banks| + 3
  {
    ghost var all := ups + {n};
    assert all - {n} == ups && n in all && forall a | a in ups :: a in all;
    child := EnterChild(s, used, i, n, all);
  }

  /** The same with n among the ancestors of what is loaded. */
  method EnterChild(s: Schema, used: seq<nat>, i: nat, n: Node, ghost all: set<Node>) returns (child: Node)
    requires s.Tree() && |used| == |s.assocs| && AllFit(s, used) && i < |s.banks| && n in all && Chain(n, all - {n})
    modifies n`children
    modifies all`subtreeSize, all`subtreeLeafSize, all`usage
    ensures n.children == old(n.children) + [child]
    ensures BankLoaded(s, used, s.banks[i].name, child) && fresh(child.repr) && child.shares == s.banks[i].shares
    ensures forall a {:trigger a in all} | a in all :: a.usage == old(a.usage) + child.usage
    ensures forall a {:trigger a in all} | a in all ::
              a.subtreeLeafSize == old(a.subtreeLeafSize) + child.subtreeLeafSize
    decreases s.maxDepth + 1 - s.Depth(s.banks[i].name), |s.banks| + 2, 4
  {
    child := GetSubBanks(s, used, s.banks[i].name, n, all);
  }

  /** What is below the children of n stays as it is. */
  method EnterBeside(s: Schema, used: seq<nat>, i: nat, n: Node, ghost ups: set<Node>) returns (child: Node)
    requires s.Tree() && |used| == |s.assocs| && AllFit(s, used) && i < |s.banks| && Chain(n, ups)
    requires Standing(n, ups, n.children) && Loaded(s, used, Owned(n.children), UsersOf(n.children))
    modifies n`children, n`subtreeSize, n`subtreeLeafSize, n`usage
    modifies ups`subtreeSize, ups`subtreeLeafSize, ups`usage
    ensures n.children == old(n.children) + [child] && Standing(n, ups, old(n.children))
    ensures Loaded(s, used, Owned(old(n.children)), UsersOf(old(n.children)))
    ensures UsersOf(old(n.children)) == old(UsersOf(n.children)) && Owned(old(n.children)) == old(Owned(n.children))
    ensures SumUsage(old(n.children)) == old(SumUsage(n.children))
    ensures BankLoaded(s, used, s.banks[i].name, child) && fresh(child.repr) && child.shares == s.banks[i].shares
    ensures n.usage == old(n.usage) + child.usage && n.subtreeLeafSize == old(n.subtreeLeafSize) + child.subtreeLeafSize
    ensures forall a {:trigger a in ups} | a in ups :: a.usage == old(a.usage) + child.usage
    ensures forall a {:trigger a in ups} | a in ups ::
              a.subtreeLeafSize == old(a.subtreeLeafSize) + child.subtreeLeafSize
    decreases s.maxDepth + 1 - s.Depth(s.banks[i].name), |s.banks| + 4
  {
    ghost var cs, below, users := n.children, Owned(n.children), UsersOf(n.children);
    ghost var standing, loaded, sum := Standing(n, ups, cs), Loaded(s, used, below, users), SumUsage(cs);
    child := EnterSubBank(s, used, i, n, ups);
    assert standing == Standing(n, ups, cs) && below == Owned(cs) && users == UsersOf(cs);
    assert loaded == Loaded(s, used, below, users) && sum == SumUsage(cs);
  }

  /** The sub-bank in row i becomes the next child of n; the children before it
      are not disturbed. */
  method LoadSubBank(s: Schema, used: seq<nat>, i: nat, n: Node, ghost ups: set<Node>) returns (child: Node)
    requires s.Tree() && |used| == |s.assocs| && AllFit(s, used) && i < |s.banks|
    requires Growing(n, ups) && Loaded(s, used, Owned(n.children), UsersOf(n.children))
    modifies n`children, n`subtreeSize, n`subtreeLeafSize, n`usage
    modifies ups`subtreeSize, ups`subtreeLeafSize, ups`usage
    ensures Growing(n, ups) && n.children == old(n.children) + [child]
    ensures BankLoaded(s, used, s.banks[i].name, child) && fresh(child.repr) && child.shares == s.banks[i].shares
    ensures n.usage == old(n.usage) + child.usage && n.subtreeLeafSize == old(n.subtreeLeafSize) + child.subtreeLeafSize
    ensures Loaded(s, used, Owned(old(n.children)), UsersOf(old(n.children)))
    ensures SumUsage(old(n.children)) == old(SumUsage(n.children))
    ensures Owned(old(n.children)) == old(Owned(n.children))
    ensures forall a {:trigger a in ups} | a in ups :: a.usage == old(a.usage) + child.usage
    ensures forall a {:trigger a in ups} | a in ups ::
              a.subtreeLeafSize == old(a.subtreeLeafSize) + child.subtreeLeafSize
    decreases s.maxDepth + 1 - s.Depth(s.banks[i].name), |s.banks| + 5
  {
    ghost var cs, leaves := n.children, n.subtreeLeafSize;
    child := EnterBeside(s, used, i, n, ups);
    GrowsBy(n, ups, cs, child, leaves);
  }
}
