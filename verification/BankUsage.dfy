/// Usage of banks: what it should be, and two ways to bring the stored column
/// in line with it.

module BankUsage {

  /** A row of the bank table; the root's parent is the empty name. */
  datatype Bank = Bank(name: string, parent: string, shares: nat, active: bool)

  /** A row of the association table. */
  datatype Assoc = Assoc(username: string, bank: string, shares: nat, active: bool)

  /** The tables without their usage columns, and how deep each bank lies. */
  datatype Schema = Schema(banks: seq<Bank>, assocs: seq<Assoc>, depth: map<string, nat>, maxDepth: nat)
  {
    /** Bank names are unique and depths count levels, so that no bank lies above
        itself. */
    ghost predicate Tree() {
      && (forall i, j | 0 <= i < j < |banks| :: banks[i].name != banks[j].name)
      && (forall i | 0 <= i < |banks| :: banks[i].name != "" && Depth(banks[i].name) <= maxDepth)
      && (forall i | 0 <= i < |banks| ::
           Depth(banks[i].name) == if banks[i].parent == "" then 0 else Depth(banks[i].parent) + 1)
    }

    /** There is one root, and every other bank has its parent in the table. */
    ghost predicate Connected(root: nat) {
      && root < |banks| && banks[root].parent == ""
      && forall i | 0 <= i < |banks| && i != root ::
           banks[i].parent != "" && exists j :: 0 <= j < |banks| && banks[j].name == banks[i].parent
    }

    function Depth(b: string): nat {
      if b in depth then depth[b] else 0
    }

    /** The parent of a bank; nothing is known above the root, or of unknown banks. */
    ghost function Parent(b: string): (p: string)
      requires Tree()
      ensures p != "" ==> Depth(b) == Depth(p) + 1
    {
      if i :| 0 <= i < |banks| && banks[i].name == b then banks[i].parent else ""
    }

    predicate HasSubBanks(b: string) {
      exists i :: 0 <= i < |banks| && banks[i].parent == b
    }
  }

  /** What the associations of a bank have used, from row i on. */
  function Charged(assocs: seq<Assoc>, used: seq<real>, b: string): real
    requires |used| == |assocs|
  {
    if assocs == [] then 0.0
    else Charged(assocs[..|assocs| - 1], used[..|assocs| - 1], b)
         + if assocs[|assocs| - 1].bank == b then used[|assocs| - 1] else 0.0
  }

  /** What a bank has used: its associations' usage if it has no sub-banks,
      otherwise what its sub-banks have used. */
  function Total(s: Schema, used: seq<real>, b: string): real
    requires s.Tree() && |used| == |s.assocs| && b != ""
    decreases s.maxDepth + 1 - s.Depth(b), |s.banks| + 1
  {
    if s.HasSubBanks(b) then SubTotal(s, used, b, |s.banks|) else Charged(s.assocs, used, b)
  }

  /** What the sub-banks of b among the first n rows have used. */
  function SubTotal(s: Schema, used: seq<real>, b: string, n: nat): real
    requires s.Tree() && |used| == |s.assocs| && n <= |s.banks| && b != ""
    decreases s.maxDepth + 1 - s.Depth(b), n
  {
    if n == 0 then 0.0
    else SubTotal(s, used, b, n - 1) + if s.banks[n - 1].parent == b then Total(s, used, s.banks[n - 1].name) else 0.0
  }

  /** The stored usage of the sub-banks of b among the first n rows. */
  function StoredSum(banks: seq<Bank>, stored: seq<real>, b: string, n: nat): real
    requires n <= |banks| == |stored|
  {
    if n == 0 then 0.0
    else StoredSum(banks, stored, b, n - 1) + if banks[n - 1].parent == b then stored[n - 1] else 0.0
  }

  /** Bank row i stores what the bank has used. */
  ghost predicate Right(s: Schema, stored: seq<real>, used: seq<real>, i: nat)
    requires s.Tree() && |used| == |s.assocs| && i < |s.banks| == |stored|
  {
    stored[i] == Total(s, used, s.banks[i].name)
  }

  /** Every bank row does. */
  ghost predicate Consistent(s: Schema, stored: seq<real>, used: seq<real>)
    requires s.Tree() && |used| == |s.assocs| && |s.banks| == |stored|
  {
    forall i | 0 <= i < |s.banks| :: Right(s, stored, used, i)
  }

  /** Whether bank b is, or lies below, bank top. */
  ghost predicate Below(s: Schema, top: string, b: string)
    requires s.Tree()
    decreases s.Depth(b)
  {
    b == top || (s.Parent(b) != "" && Below(s, top, s.Parent(b)))
  }

  /** If the sub-banks' rows are right, they sum up to what they have used. */
  lemma {:induction false} StoredIsSubTotal(s: Schema, stored: seq<real>, used: seq<real>, b: string, n: nat)
    requires s.Tree() && |used| == |s.assocs| && n <= |s.banks| == |stored| && b != ""
    requires forall i | 0 <= i < |s.banks| && s.banks[i].parent == b :: Right(s, stored, used, i)
    ensures StoredSum(s.banks, stored, b, n) == SubTotal(s, used, b, n)
  {
    if n != 0 {
      StoredIsSubTotal(s, stored, used, b, n - 1);
      assert s.banks[n - 1].parent == b ==> Right(s, stored, used, n - 1);
    }
  }

  lemma ParentOfRow(s: Schema, i: nat)
    requires s.Tree() && i < |s.banks|
    ensures s.Parent(s.banks[i].name) == s.banks[i].parent
  {
  }

  /** What lies below a sub-bank of b lies below b. */
  lemma {:induction false} BelowSubBank(s: Schema, b: string, j: nat, c: string)
    requires s.Tree() && b != "" && j < |s.banks| && s.banks[j].parent == b && Below(s, s.banks[j].name, c)
    ensures Below(s, b, c)
    decreases s.Depth(c)
  {
    if c == s.banks[j].name {
      ParentOfRow(s, j);
      assert Below(s, b, b);
    } else {
      BelowSubBank(s, b, j, s.Parent(c));
    }
  }

  /** What lies below b is b itself or lies below one of its sub-banks. */
  lemma {:induction false} SubBankAbove(s: Schema, b: string, c: string) returns (j: nat)
    requires s.Tree() && b != "" && c != b && Below(s, b, c)
    ensures j < |s.banks| && s.banks[j].parent == b && Below(s, s.banks[j].name, c)
    decreases s.Depth(c)
  {
    if s.Parent(c) == b {
      j :| 0 <= j < |s.banks| && s.banks[j].name == c && s.banks[j].parent == b;
      assert Below(s, c, c);
    } else {
      j := SubBankAbove(s, b, s.Parent(c));
    }
  }

  /** Nothing lies below a bank without sub-banks but itself. */
  lemma NothingBelow(s: Schema, b: string, c: string)
    requires s.Tree() && b != "" && !s.HasSubBanks(b) && Below(s, b, c)
    ensures c == b
  {
    if c != b {
      var j := SubBankAbove(s, b, c);
      assert false;
    }
  }

  lemma {:induction false} BelowIsDeeper(s: Schema, top: string, c: string)
    requires s.Tree() && Below(s, top, c)
    ensures s.Depth(top) <= s.Depth(c)
    decreases s.Depth(c)
  {
    if c != top {
      BelowIsDeeper(s, top, s.Parent(c));
    }
  }

  /** Whether c lies below one of b's sub-banks among the first n rows. */
  ghost predicate BelowFirst(s: Schema, b: string, n: nat, c: string)
    requires s.Tree() && n <= |s.banks|
  {
    exists j :: 0 <= j < n && s.banks[j].parent == b && Below(s, s.banks[j].name, c)
  }

  lemma BelowFirstNext(s: Schema, b: string, n: nat, c: string)
    requires s.Tree() && n < |s.banks|
    ensures BelowFirst(s, b, n + 1, c) <==>
              BelowFirst(s, b, n, c) || (s.banks[n].parent == b && Below(s, s.banks[n].name, c))
  {
  }

  lemma BelowFirstAll(s: Schema, b: string, c: string)
    requires s.Tree() && b != ""
    ensures BelowFirst(s, b, |s.banks|, c) <==> c != b && Below(s, b, c)
  {
    if j :| 0 <= j < |s.banks| && s.banks[j].parent == b && Below(s, s.banks[j].name, c) {
      BelowSubBank(s, b, j, c);
      BelowIsDeeper(s, s.banks[j].name, c);
    }
    if c != b && Below(s, b, c) {
      var j := SubBankAbove(s, b, c);
    }
  }

  /** Everything lies below the root. */
  lemma AllBelowRoot(s: Schema, root: nat, b: nat)
    requires s.Tree() && s.Connected(root) && b < |s.banks|
    ensures Below(s, s.banks[root].name, s.banks[b].name)
    decreases s.Depth(s.banks[b].name)
  {
    ParentOfRow(s, b);
    if b != root {
      var j :| 0 <= j < |s.banks| && s.banks[j].name == s.banks[b].parent;
      AllBelowRoot(s, root, j);
    }
  }

  // ----- updating the path to the root -----

  /** The column with bank b's row set. */
  function Put(banks: seq<Bank>, stored: seq<real>, b: string, v: real): (r: seq<real>)
    requires |stored| == |banks|
    ensures |r| == |banks|
    ensures forall i | 0 <= i < |banks| :: r[i] == if banks[i].name == b then v else stored[i]
  {
    seq(|banks|, i requires 0 <= i < |banks| => if banks[i].name == b then v else stored[i])
  }

  /** The column once every bank above b has been given the sum of its sub-banks' rows. */
  ghost function Propagated(s: Schema, stored: seq<real>, b: string): (r: seq<real>)
    requires s.Tree() && |stored| == |s.banks|
    ensures |r| == |s.banks|
    decreases s.Depth(b)
  {
    var p := s.Parent(b);
    if p == "" then stored
    else Propagated(s, Put(s.banks, stored, p, StoredSum(s.banks, stored, p, |s.banks|)), p)
  }

  /** Whether bank a lies strictly above b. */
  ghost predicate Above(s: Schema, a: string, b: string)
    requires s.Tree()
  {
    a != b && Below(s, a, b)
  }

  lemma AboveParent(s: Schema, a: string, b: string)
    requires s.Tree() && s.Parent(b) != ""
    ensures Above(s, a, b) <==> a == s.Parent(b) || Above(s, a, s.Parent(b))
  {
    if Below(s, a, s.Parent(b)) {
      BelowIsDeeper(s, a, s.Parent(b));
    }
  }

  lemma SiblingsNotAbove(s: Schema, i: nat, b: string)
    requires s.Tree() && i < |s.banks| && s.Parent(b) != "" && s.banks[i].parent == s.Parent(b)
    ensures !Above(s, s.banks[i].name, b)
  {
    AboveParent(s, s.banks[i].name, b);
    if Below(s, s.banks[i].name, s.Parent(b)) {
      BelowIsDeeper(s, s.banks[i].name, s.Parent(b));
    }
  }

  lemma ParentHasSubBanks(s: Schema, b: string)
    requires s.Tree() && s.Parent(b) != ""
    ensures s.HasSubBanks(s.Parent(b))
  {
    var i :| 0 <= i < |s.banks| && s.banks[i].name == b && s.banks[i].parent == s.Parent(b);
  }

  /** If only banks above b may be wrong, propagating from b puts all right. */
  lemma {:induction false} PropagationPutsRight(s: Schema, stored: seq<real>, used: seq<real>, b: string)
    requires s.Tree() && |stored| == |s.banks| && |used| == |s.assocs|
    requires forall i | 0 <= i < |s.banks| && !Above(s, s.banks[i].name, b) :: Right(s, stored, used, i)
    ensures Consistent(s, Propagated(s, stored, b), used)
    decreases s.Depth(b)
  {
    var p := s.Parent(b);
    if p == "" {
      forall i | 0 <= i < |s.banks| ensures Right(s, stored, used, i) {
        assert s.banks[i].name != b ==> !Below(s, s.banks[i].name, b);
      }
    } else {
      forall i | 0 <= i < |s.banks| && s.banks[i].parent == p ensures Right(s, stored, used, i) {
        SiblingsNotAbove(s, i, b);
      }
      StoredIsSubTotal(s, stored, used, p, |s.banks|);
      ParentHasSubBanks(s, b);
      var next := Put(s.banks, stored, p, StoredSum(s.banks, stored, p, |s.banks|));
      forall i | 0 <= i < |s.banks| && !Above(s, s.banks[i].name, p) ensures Right(s, next, used, i) {
        AboveParent(s, s.banks[i].name, b);
        assert s.banks[i].name != p ==> Right(s, stored, used, i);
      }
      PropagationPutsRight(s, next, used, p);
    }
  }

  /** Propagation only touches rows above b. */
  lemma {:induction false} PropagationTouches(s: Schema, stored: seq<real>, b: string, i: nat)
    requires s.Tree() && |stored| == |s.banks| && i < |s.banks| && !Above(s, s.banks[i].name, b)
    ensures Propagated(s, stored, b)[i] == stored[i]
    decreases s.Depth(b)
  {
    var p := s.Parent(b);
    if p != "" {
      AboveParent(s, s.banks[i].name, b);
      PropagationTouches(s, Put(s.banks, stored, p, StoredSum(s.banks, stored, p, |s.banks|)), p, i);
    }
  }

  // ----- clearing banks -----

  /** The associations' usage once bank b is cleared. */
  function ClearUsed(assocs: seq<Assoc>, used: seq<real>, b: string): (r: seq<real>)
    requires |used| == |assocs|
    ensures |r| == |assocs|
    ensures forall i | 0 <= i < |assocs| :: r[i] == if assocs[i].bank == b then 0.0 else used[i]
  {
    seq(|assocs|, i requires 0 <= i < |assocs| => if assocs[i].bank == b then 0.0 else used[i])
  }

  lemma {:induction false} ChargedElsewhere(assocs: seq<Assoc>, used: seq<real>, now: seq<real>, c: string)
    requires |used| == |now| == |assocs|
    requires forall i | 0 <= i < |assocs| && assocs[i].bank == c :: now[i] == used[i]
    ensures Charged(assocs, now, c) == Charged(assocs, used, c)
  {
    if assocs != [] {
      var n := |assocs| - 1;
      assert forall i | 0 <= i < n && assocs[..n][i].bank == c :: assocs[i].bank == c;
      ChargedElsewhere(assocs[..n], used[..n], now[..n], c);
    }
  }

  lemma {:induction false} NothingCharged(assocs: seq<Assoc>, used: seq<real>, c: string)
    requires |used| == |assocs| && forall i | 0 <= i < |assocs| && assocs[i].bank == c :: used[i] == 0.0
    ensures Charged(assocs, used, c) == 0.0
  {
    if assocs != [] {
      var n := |assocs| - 1;
      assert forall i | 0 <= i < n && assocs[..n][i].bank == c :: assocs[i].bank == c;
      NothingCharged(assocs[..n], used[..n], c);
    }
  }

  /** The usage columns differ only in rows of bank b. */
  ghost predicate SameBut(assocs: seq<Assoc>, used: seq<real>, now: seq<real>, b: string)
  {
    |used| == |now| == |assocs| && forall i | 0 <= i < |assocs| && assocs[i].bank != b :: now[i] == used[i]
  }

  /** What a bank's associations have used only matters to it, if it is a leaf,
      and to the banks above it. */
  lemma {:induction false} TotalElsewhere(s: Schema, used: seq<real>, now: seq<real>, b: string, c: string)
    requires s.Tree() && SameBut(s.assocs, used, now, b) && c != "" && (!Below(s, c, b) || s.HasSubBanks(b))
    ensures Total(s, now, c) == Total(s, used, c)
    decreases s.maxDepth + 1 - s.Depth(c), |s.banks| + 1
  {
    if s.HasSubBanks(c) {
      SubTotalElsewhere(s, used, now, b, c, |s.banks|);
    } else {
      assert Below(s, c, c);
      ChargedElsewhere(s.assocs, used, now, c);
    }
  }

  lemma {:induction false} SubTotalElsewhere(s: Schema, used: seq<real>, now: seq<real>, b: string, c: string, n: nat)
    requires s.Tree() && SameBut(s.assocs, used, now, b) && c != "" && n <= |s.banks|
    requires !Below(s, c, b) || s.HasSubBanks(b)
    ensures SubTotal(s, now, c, n) == SubTotal(s, used, c, n)
    decreases s.maxDepth + 1 - s.Depth(c), n
  {
    if n != 0 {
      SubTotalElsewhere(s, used, now, b, c, n - 1);
      if s.banks[n - 1].parent == c {
        NotBelowSubBank(s, c, n - 1, b);
        TotalElsewhere(s, used, now, b, s.banks[n - 1].name);
      }
    }
  }

  lemma NotBelowSubBank(s: Schema, c: string, j: nat, b: string)
    requires s.Tree() && c != "" && j < |s.banks| && s.banks[j].parent == c
    ensures Below(s, s.banks[j].name, b) ==> Below(s, c, b)
  {
    if Below(s, s.banks[j].name, b) {
      BelowSubBank(s, c, j, b);
    }
  }

  /** The stored column once bank b is cleared and the banks above it updated. */
  ghost function Cleared(s: Schema, stored: seq<real>, b: string): (r: seq<real>)
    requires s.Tree() && |stored| == |s.banks|
    ensures |r| == |s.banks|
  {
    Propagated(s, Put(s.banks, stored, b, 0.0), b)
  }

  ghost predicate AllLeaves(s: Schema, banks: seq<string>)
  {
    forall i | 0 <= i < |banks| :: !s.HasSubBanks(banks[i])
  }

  /** One bank after the other. */
  ghost function ClearedAll(s: Schema, stored: seq<real>, banks: seq<string>): (r: seq<real>)
    requires s.Tree() && |stored| == |s.banks|
    ensures |r| == |s.banks|
  {
    if banks == [] then stored
    else Cleared(s, ClearedAll(s, stored, banks[..|banks| - 1]), banks[|banks| - 1])
  }

  /** Incremental equals full: clearing a leaf bank and updating only the path to
      the root leaves every bank with what a full recompute would store. */
  lemma ClearLeaf(s: Schema, stored: seq<real>, used: seq<real>, b: string)
    requires s.Tree() && |stored| == |s.banks| && |used| == |s.assocs| && Consistent(s, stored, used)
    requires !s.HasSubBanks(b)
    ensures Consistent(s, Cleared(s, stored, b), ClearUsed(s.assocs, used, b))
  {
    var now, zeroed := ClearUsed(s.assocs, used, b), Put(s.banks, stored, b, 0.0);
    forall i | 0 <= i < |s.banks| && !Above(s, s.banks[i].name, b) ensures Right(s, zeroed, now, i) {
      var c := s.banks[i].name;
      assert Right(s, stored, used, i);
      if c == b {
        NothingCharged(s.assocs, now, c);
      } else {
        TotalElsewhere(s, used, now, b, c);
      }
    }
    PropagationPutsRight(s, zeroed, now, b);
  }

  /** For any single bank: the incremental update is right exactly if the bank
      has no sub-banks or they have used nothing. */
  lemma ClearAny(s: Schema, stored: seq<real>, used: seq<real>, row: nat)
    requires s.Tree() && |stored| == |s.banks| && |used| == |s.assocs| && Consistent(s, stored, used)
    requires row < |s.banks|
    ensures var b := s.banks[row].name;
            Consistent(s, Cleared(s, stored, b), ClearUsed(s.assocs, used, b))
            <==> !s.HasSubBanks(b) || Total(s, used, b) == 0.0
  {
    var b := s.banks[row].name;
    if !s.HasSubBanks(b) {
      ClearLeaf(s, stored, used, b);
    } else {
      var now, zeroed := ClearUsed(s.assocs, used, b), Put(s.banks, stored, b, 0.0);
      assert Right(s, stored, used, row);
      TotalElsewhere(s, used, now, b, b);
      PropagationTouches(s, zeroed, b, row);
      if Total(s, used, b) == 0.0 {
        forall i | 0 <= i < |s.banks| ensures Right(s, zeroed, now, i) {
          TotalElsewhere(s, used, now, b, s.banks[i].name);
          assert Right(s, stored, used, i);
        }
        PropagationPutsRight(s, zeroed, now, b);
      } else {
        assert !Right(s, Cleared(s, stored, b), now, row);
      }
    }
  }

  /** One root bank with one sub-bank whose only association has used one unit. */
  function TwoBanks(): Schema
  {
    Schema([Bank("root", "", 1, true), Bank("sub", "root", 1, true)], [Assoc("user", "sub", 1, true)],
           map["root" := 0, "sub" := 1], 1)
  }

  lemma TwoBanksTotals()
    ensures var s := TwoBanks(); s.Tree() && s.HasSubBanks("root") && !s.HasSubBanks("sub")
    ensures Total(TwoBanks(), [1.0], "sub") == 1.0 && Total(TwoBanks(), [1.0], "root") == 1.0
  {
    var s := TwoBanks();
    assert s.banks[1].parent == "root";
    assert Charged(s.assocs[..0], [1.0][..0], "sub") == 0.0;
    assert SubTotal(s, [1.0], "root", 1) == 0.0;
  }

  /** Clearing the root bank incrementally leaves the table wrong: the root says
      zero while its sub-bank has used one unit. */
  lemma ClearRootFails()
    ensures var s := TwoBanks(); s.Tree() && Consistent(s, [1.0, 1.0], [1.0])
    ensures var s := TwoBanks(); !Consistent(s, Cleared(s, [1.0, 1.0], "root"), ClearUsed(s.assocs, [1.0], "root"))
  {
    var s := TwoBanks();
    TwoBanksTotals();
    assert Right(s, [1.0, 1.0], [1.0], 0) && Right(s, [1.0, 1.0], [1.0], 1);
    ClearAny(s, [1.0, 1.0], [1.0], 0);
  }

  /** The usage columns of the accounting database. */
  class Database {
    const schema: Schema
    var bankUsage: seq<real>
    var assocUsage: seq<real>

    constructor (schema: Schema)
      requires schema.Tree()
      ensures this.schema == schema && Valid()
    {
      this.schema := schema;
      bankUsage, assocUsage := seq(|schema.banks|, _ => 0.0), seq(|schema.assocs|, _ => 0.0);
    }

    ghost predicate Valid()
      reads this
    {
      schema.Tree() && |bankUsage| == |schema.banks| && |assocUsage| == |schema.assocs|
    }

    /** Store a bank's usage. */
    method SetBankUsage(b: string, v: real)
      requires Valid()
      modifies `bankUsage
      ensures Valid()
      ensures forall i | 0 <= i < |schema.banks| ::
                bankUsage[i] == if schema.banks[i].name == b then v else old(bankUsage)[i]
    {
      for i := 0 to |schema.banks|
        invariant Valid()
        invariant forall j | 0 <= j < |schema.banks| ::
          bankUsage[j] == if j < i && schema.banks[j].name == b then v else old(bankUsage)[j]
      {
        if schema.banks[i].name == b {
          bankUsage := bankUsage[i := v];
        }
      }
    }

    /** A bank with associations gets the sum of what they have used. */
    method CalcBankUsage(b: string) returns (total: real)
      requires Valid()
      modifies `bankUsage
      ensures Valid() && total == Charged(schema.assocs, assocUsage, b)
      ensures forall i | 0 <= i < |schema.banks| ::
                bankUsage[i] == if schema.banks[i].name == b then total else old(bankUsage)[i]
    {
      total := 0.0;
      for i := 0 to |schema.assocs|
        invariant total == Charged(schema.assocs[..i], assocUsage[..i], b)
      {
        assert schema.assocs[..i + 1][..i] == schema.assocs[..i] && assocUsage[..i + 1][..i] == assocUsage[..i];
        if schema.assocs[i].bank == b {
          total := total + assocUsage[i];
        }
      }
      assert schema.assocs[..|schema.assocs|] == schema.assocs && assocUsage[..|schema.assocs|] == assocUsage;
      SetBankUsage(b, total);
    }

    /** Recompute a bank and everything below it from the associations' usage. */
    method CalcParentBankUsage(b: string) returns (total: real)
      requires Valid() && b != ""
      modifies `bankUsage
      ensures Valid() && total == Total(schema, assocUsage, b)
      ensures forall i | 0 <= i < |schema.banks| ::
                if Below(schema, b, schema.banks[i].name) then Right(schema, bankUsage, assocUsage, i)
                else bankUsage[i] == old(bankUsage)[i]
      decreases schema.maxDepth + 1 - schema.Depth(b)
    {
      if !schema.HasSubBanks(b) {
        total := CalcBankUsage(b);
        forall c | Below(schema, b, c) ensures c == b {
          NothingBelow(schema, b, c);
        }
      } else {
        total := CalcSubBanks(b);
      }
      SetBankUsage(b, total);
    }

    /** Recompute all that lies strictly below a bank with sub-banks. */
    method CalcSubBanks(b: string) returns (total: real)
      requires Valid() && b != ""
      modifies `bankUsage
      ensures Valid() && total == SubTotal(schema, assocUsage, b, |schema.banks|)
      ensures forall i | 0 <= i < |schema.banks| ::
                if schema.banks[i].name != b && Below(schema, b, schema.banks[i].name)
                then Right(schema, bankUsage, assocUsage, i) else bankUsage[i] == old(bankUsage)[i]
      decreases schema.maxDepth + 1 - schema.Depth(b), 0
    {
      total := 0.0;
      for n := 0 to |schema.banks|
        invariant Valid() && total == SubTotal(schema, assocUsage, b, n)
        invariant forall i | 0 <= i < |schema.banks| ::
          if BelowFirst(schema, b, n, schema.banks[i].name) then Right(schema, bankUsage, assocUsage, i)
          else bankUsage[i] == old(bankUsage)[i]
      {
        forall c ensures BelowFirst(schema, b, n + 1, c) <==>
                   BelowFirst(schema, b, n, c)
                   || (schema.banks[n].parent == b && Below(schema, schema.banks[n].name, c)) {
          BelowFirstNext(schema, b, n, c);
        }
        if schema.banks[n].parent == b {
          var sub := CalcParentBankUsage(schema.banks[n].name);
          total := total + sub;
        }
      }
      forall c ensures BelowFirst(schema, b, |schema.banks|, c) <==> c != b && Below(schema, b, c) {
        BelowFirstAll(schema, b, c);
      }
    }

    /** Recompute every bank, starting from the root. */
    method CalcAll(root: nat)
      requires Valid() && schema.Connected(root)
      modifies `bankUsage
      ensures Valid() && Consistent(schema, bankUsage, assocUsage)
    {
      var _ := CalcParentBankUsage(schema.banks[root].name);
      forall i | 0 <= i < |schema.banks| ensures Right(schema, bankUsage, assocUsage, i) {
        AllBelowRoot(schema, root, i);
      }
    }

    /** Look up a bank's parent; nothing is found for an unknown bank. */
    method LookUpParent(b: string) returns (p: string)
      requires Valid()
      ensures p == schema.Parent(b)
    {
      for i := 0 to |schema.banks|
        invariant forall j | 0 <= j < i :: schema.banks[j].name != b
      {
        if schema.banks[i].name == b {
          ParentOfRow(schema, i);
          return schema.banks[i].parent;
        }
      }
      p := "";
    }

    method SumSubBanks(b: string) returns (total: real)
      requires Valid()
      ensures total == StoredSum(schema.banks, bankUsage, b, |schema.banks|)
    {
      total := 0.0;
      for i := 0 to |schema.banks|
        invariant total == StoredSum(schema.banks, bankUsage, b, i)
      {
        if schema.banks[i].parent == b {
          total := total + bankUsage[i];
        }
      }
    }

    /** Update every bank above b from the rows of its sub-banks. */
    method UpdateParentBankUsage(b: string)
      requires Valid()
      modifies `bankUsage
      ensures Valid() && bankUsage == Propagated(schema, old(bankUsage), b)
      decreases schema.Depth(b)
    {
      var p := LookUpParent(b);
      if p == "" {
        return;
      }
      var total := SumSubBanks(p);
      SetBankUsage(p, total);
      assert bankUsage == Put(schema.banks, old(bankUsage), p, total);
      UpdateParentBankUsage(p);
    }

    method ClearAssocs(b: string)
      requires Valid()
      modifies `assocUsage
      ensures Valid() && assocUsage == ClearUsed(schema.assocs, old(assocUsage), b)
    {
      for i := 0 to |schema.assocs|
        invariant Valid()
        invariant forall j | 0 <= j < |schema.assocs| ::
          assocUsage[j] == if j < i && schema.assocs[j].bank == b then 0.0 else old(assocUsage)[j]
      {
        if schema.assocs[i].bank == b {
          assocUsage := assocUsage[i := 0.0];
        }
      }
    }

    /** Clear one bank and update the banks above it. */
    method ClearBank(b: string)
      requires Valid()
      modifies `bankUsage, `assocUsage
      ensures Valid() && bankUsage == Cleared(schema, old(bankUsage), b)
      ensures assocUsage == ClearUsed(schema.assocs, old(assocUsage), b)
    {
      SetBankUsage(b, 0.0);
      assert bankUsage == Put(schema.banks, old(bankUsage), b, 0.0);
      ClearAssocs(b);
      UpdateParentBankUsage(b);
    }

    /** Clear a list of banks.  If the stored usage was right before and only
        leaf banks are cleared, every bank is left with what a full recompute from
        the root would store. */
    method ClearUsage(banks: seq<string>)
      requires Valid()
      modifies `bankUsage, `assocUsage
      ensures Valid() && bankUsage == ClearedAll(schema, old(bankUsage), banks)
      ensures forall j | 0 <= j < |schema.assocs| ::
                assocUsage[j] == if schema.assocs[j].bank in banks then 0.0 else old(assocUsage)[j]
      ensures Consistent(schema, old(bankUsage), old(assocUsage)) && AllLeaves(schema, banks) ==>
                Consistent(schema, bankUsage, assocUsage)
    {
      for i := 0 to |banks|
        invariant Valid() && bankUsage == ClearedAll(schema, old(bankUsage), banks[..i])
        invariant forall j | 0 <= j < |schema.assocs| ::
          assocUsage[j] == if schema.assocs[j].bank in banks[..i] then 0.0 else old(assocUsage)[j]
        invariant Consistent(schema, old(bankUsage), old(assocUsage)) && AllLeaves(schema, banks) ==>
          Consistent(schema, bankUsage, assocUsage)
      {
        assert banks[..i + 1] == banks[..i] + [banks[i]];
        if Consistent(schema, old(bankUsage), old(assocUsage)) && AllLeaves(schema, banks) {
          ClearLeaf(schema, bankUsage, assocUsage, banks[i]);
        }
        ClearBank(banks[i]);
      }
      assert banks[..|banks|] == banks;
    }
  }
}
