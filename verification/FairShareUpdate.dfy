/// Updating everybody's fairshare: load the tables into a tree, walk it.

module FairShareUpdate {
  import opened WeightPath
  import opened WeightedTree
  import opened WeightedWalk
  import opened UserOrder
  import opened BankUsage
  import opened DataReader
  import opened Dominance

  /** The row of the root bank. */
  method FindRoot(s: Schema) returns (found: bool, row: nat)
    ensures found ==> row < |s.banks| && s.banks[row].parent == ""
    ensures !found ==> forall i | 0 <= i < |s.banks| :: s.banks[i].parent != ""
  {
    for i := 0 to |s.banks|
      invariant forall j | 0 <= j < i :: s.banks[j].parent != ""
    {
      if s.banks[i].parent == "" {
        return true, i;
      }
    }
    found, row := false, 0;
  }

  /** Load the tree below the root bank; there is none without a root bank. */
  method LoadTree(s: Schema, used: seq<nat>) returns (root: Node?)
    requires s.Tree() && |used| == |s.assocs| && AllFit(s, used)
    ensures root == null <==> forall i | 0 <= i < |s.banks| :: s.banks[i].parent != ""
    ensures root != null ==> fresh(root.repr) && root.name != "" && BankLoaded(s, used, root.name, root)
    ensures root != null ==> exists i :: 0 <= i < |s.banks| && s.banks[i].parent == "" && s.banks[i].name == root.name
  {
    var found, row := FindRoot(s);
    if !found {
      return null;
    }
    root := GetSubBanks(s, used, s.banks[row].name, null, {});
  }

  // ----- who is in the tree -----

  /** Some node among these stands for the row of a bank or association. */
  ghost predicate StandsIn(nodes: set<Node>, k: Kid)
  {
    exists u {:trigger u in nodes} :: u in nodes && Kid(u.name, u.isUser, u.shares) == k
  }

  /** Nothing active is missing: each active sub-bank of a bank in the tree is in
      the tree, and each active association of a bank without sub-banks is ranked. */
  ghost predicate NothingMissing(s: Schema, root: Node)
    reads root`repr, root`paths
  {
    forall m, i {:trigger m in root.repr, s.banks[i]} {:trigger m in root.repr, s.assocs[i]}
      | m in root.repr && !m.isUser ::
      && (0 <= i < |s.banks| && s.banks[i].parent == m.name && s.banks[i].active ==>
            StandsIn(root.repr, Kid(s.banks[i].name, false, s.banks[i].shares)))
      && (0 <= i < |s.assocs| && s.assocs[i].bank == m.name && s.assocs[i].active && !s.HasSubBanks(m.name) ==>
            StandsIn(root.paths.Keys, Kid(s.assocs[i].username, true, s.assocs[i].shares)))
  }

  /** Nobody is made up: each user stands for an active association of its bank,
      carries its usage and is ranked. */
  ghost predicate NobodyMadeUp(s: Schema, used: seq<nat>, root: Node)
    requires |used| == |s.assocs|
    reads root`repr, root`paths, root.repr`usage
  {
    forall u {:trigger UserRight(s, used, u)} {:trigger u in root.paths} | u in root.repr && u.isUser ::
      u in root.paths && UserRight(s, used, u)
  }

  /** Every bank carries the usage of what is active below it. */
  ghost predicate UsageRight(s: Schema, used: seq<nat>, root: Node)
    requires s.Tree() && |used| == |s.assocs|
    reads root`repr, root.repr`usage
  {
    forall m {:trigger m.usage} | m in root.repr && !m.isUser :: m.name != "" && m.usage == ActiveTotal(s, used, m.name)
  }

  lemma {:induction false} UserKidAt(s: Schema, b: string, n: nat, i: nat) returns (j: nat)
    requires i < n <= |s.assocs| && s.assocs[i].bank == b && s.assocs[i].active
    ensures j < |UserKids(s, b, n)| && UserKids(s, b, n)[j] == Kid(s.assocs[i].username, true, s.assocs[i].shares)
  {
    if i == n - 1 {
      j := |UserKids(s, b, n - 1)|;
    } else {
      j := UserKidAt(s, b, n - 1, i);
    }
  }

  lemma {:induction false} BankKidAt(s: Schema, b: string, n: nat, i: nat) returns (j: nat)
    requires i < n <= |s.banks| && s.banks[i].parent == b && s.banks[i].active
    ensures j < |BankKids(s, b, n)| && BankKids(s, b, n)[j] == Kid(s.banks[i].name, false, s.banks[i].shares)
  {
    if i == n - 1 {
      j := |BankKids(s, b, n - 1)|;
    } else {
      j := BankKidAt(s, b, n - 1, i);
    }
  }

  /** The node behind a place in the list of children. */
  lemma KidStands(s: Schema, used: seq<nat>, root: Node, m: Node, j: nat)
    requires s.Tree() && |used| == |s.assocs| && root.name != "" && BankLoaded(s, used, root.name, root)
    requires m in root.repr && !m.isUser && j < |Kids(s, m.name)|
    ensures StandsIn(root.repr, Kids(s, m.name)[j])
    ensures Kids(s, m.name)[j].isUser ==> StandsIn(root.paths.Keys, Kids(s, m.name)[j])
  {
    assert BankRight(s, used, m);
    RosterSize(m.children);
    RosterAt(m.children, j);
    var c := m.children[j];
    assert c in m.children && c in root.repr;
    assert c.isUser ==> c in root.paths.Keys;
  }

  lemma {:induction false} RosterSize(cs: seq<Node>)
    ensures |Roster(cs)| == |cs|
  {
    if cs != [] {
      RosterSize(cs[..|cs| - 1]);
    }
  }

  /** A loaded tree holds everything active and nothing else. */
  lemma LoadedIsComplete(s: Schema, used: seq<nat>, root: Node)
    requires s.Tree() && |used| == |s.assocs| && root.name != "" && BankLoaded(s, used, root.name, root)
    ensures NothingMissing(s, root) && NobodyMadeUp(s, used, root) && UsageRight(s, used, root)
  {
    forall m, i | m in root.repr && !m.isUser && 0 <= i < |s.banks| && s.banks[i].parent == m.name && s.banks[i].active
      ensures StandsIn(root.repr, Kid(s.banks[i].name, false, s.banks[i].shares))
    {
      assert s.HasSubBanks(m.name);
      var j := BankKidAt(s, m.name, |s.banks|, i);
      KidStands(s, used, root, m, j);
    }
    forall m, i | m in root.repr && !m.isUser && 0 <= i < |s.assocs| && s.assocs[i].bank == m.name && s.assocs[i].active
                  && !s.HasSubBanks(m.name)
      ensures StandsIn(root.paths.Keys, Kid(s.assocs[i].username, true, s.assocs[i].shares))
    {
      var j := UserKidAt(s, m.name, |s.assocs|, i);
      KidStands(s, used, root, m, j);
    }
    forall m | m in root.repr && !m.isUser ensures m.name != "" && m.usage == ActiveTotal(s, used, m.name) {
      assert BankRight(s, used, m);
    }
  }

  // ----- what everybody ends with -----

  /** Each user holds its fairshare value. */
  ghost predicate Ranked(root: Node)
    reads root, root.repr, root.paths.Keys`fshare
  {
    forall u | u in root.paths :: u.fshare == FairShare(root.paths, u)
  }

  /** With all rows active, every bank carries what a recompute of the bank table
      would store for it. */
  ghost predicate AsRecomputed(s: Schema, used: seq<nat>, root: Node)
    requires s.Tree() && |used| == |s.assocs|
    reads root`repr, root.repr`usage
  {
    forall m {:trigger m.usage} | m in root.repr && !m.isUser ::
      m.name != "" && m.usage as real == Total(s, Reals(used), m.name)
  }

  lemma UsageAsRecomputed(s: Schema, used: seq<nat>, root: Node)
    requires s.Tree() && |used| == |s.assocs| && UsageRight(s, used, root) && AllActive(s)
    ensures AsRecomputed(s, used, root)
  {
    forall m | m in root.repr && !m.isUser ensures m.name != "" && m.usage as real == Total(s, Reals(used), m.name) {
      var usage := m.usage;
      assert m.name != "" && usage == ActiveTotal(s, used, m.name);
      AggregatorsAgree(s, used, m.name);
    }
  }

  /** Users u and v sit under siblings x and y, at the end of a line of descent
      from the root, and x deserves more than y. */
  ghost predicate Outranks(root: Node, line: seq<Node>, x: Node, y: Node, u: Node, v: Node)
    reads line, x, y
  {
    && Line(line) && line[0] == root
    && x in line[|line| - 1].children && y in line[|line| - 1].children && u in x.paths && v in y.paths
    && Deserves(x.shares, x.usage, y.shares, y.usage)
  }

  lemma OutrankedHaveLess(root: Node)
    requires root.Sound() && Ranked(root)
    ensures forall line: seq<Node>, x: Node, y: Node, u: Node, v: Node ::
              Outranks(root, line, x, y, u, v) ==> u.fshare > v.fshare
  {
    forall line: seq<Node>, x: Node, y: Node, u: Node, v: Node | Outranks(root, line, x, y, u, v)
      ensures u.fshare > v.fshare
    {
      Dominance.Dominance(line, x, y, u, v);
    }
  }

  method RunWalk(root: Node) returns (users: seq<Node>)
    requires root.Sound() && root.subtreeLeafSize == |root.paths|
    modifies root.repr`weight, root.repr`tieWithNext, root.repr`fshare, root.repr`children
    ensures root.Sound() && Ranked(root) && multiset(users) == multiset(root.paths.Keys) && ByShare(users)
  {
    var walk := new Walk(root);
    var ok := walk.Run();
    users := walk.users;
  }

  /** Walk a loaded tree; what it says of the tables stays as it is. */
  method RankTree(s: Schema, used: seq<nat>, root: Node) returns (users: seq<Node>)
    requires s.Tree() && |used| == |s.assocs| && root.Sound() && root.subtreeLeafSize == |root.paths|
    requires NothingMissing(s, root) && NobodyMadeUp(s, used, root) && UsageRight(s, used, root)
    modifies root.repr`weight, root.repr`tieWithNext, root.repr`fshare, root.repr`children
    ensures NothingMissing(s, root) && NobodyMadeUp(s, used, root) && UsageRight(s, used, root)
    ensures root.Sound() && Ranked(root) && multiset(users) == multiset(root.paths.Keys) && ByShare(users)
  {
    ghost var missing, madeUp, usage := NothingMissing(s, root), NobodyMadeUp(s, used, root), UsageRight(s, used, root);
    users := RunWalk(root);
    assert missing == NothingMissing(s, root) && madeUp == NobodyMadeUp(s, used, root);
    assert usage == UsageRight(s, used, root);
  }

  /** Load the tree and walk it: everybody ends with the fairshare of its weight
      path in the tree the tables give, and wherever in that tree one sibling
      deserves more than another, all its users end above all the other's. */
  method UpdateFairShare(s: Schema, used: seq<nat>) returns (root: Node?, users: seq<Node>)
    requires s.Tree() && |used| == |s.assocs| && AllFit(s, used)
    ensures root == null <==> forall i | 0 <= i < |s.banks| :: s.banks[i].parent != ""
    ensures root != null ==>
              exists i :: 0 <= i < |s.banks| && s.banks[i].parent == "" && s.banks[i].name == root.name
    ensures root != null ==> NothingMissing(s, root) && NobodyMadeUp(s, used, root) && UsageRight(s, used, root)
    ensures root != null ==> root.Sound() && Ranked(root)
    ensures root != null ==> multiset(users) == multiset(root.paths.Keys) && ByShare(users)
    ensures root != null && AllActive(s) ==> AsRecomputed(s, used, root)
    ensures root != null ==> forall line: seq<Node>, x: Node, y: Node, u: Node, v: Node ::
                               Outranks(root, line, x, y, u, v) ==> u.fshare > v.fshare
  {
    users := [];
    root := LoadTree(s, used);
    if root == null {
      return;
    }
    LoadedIsComplete(s, used, root);
    users := RankTree(s, used, root);
    if AllActive(s) {
      UsageAsRecomputed(s, used, root);
    }
    OutrankedHaveLess(root);
  }
}
