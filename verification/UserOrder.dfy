/// The order in which the walk lists the users in the end.

module UserOrder {
  import opened WeightedTree

  /** Users by fairshare, highest first. */
  ghost predicate ByShare(s: seq<Node>)
    reads s`fshare
  {
    forall i, j | 0 <= i < j < |s| :: s[i].fshare >= s[j].fshare
  }

  method InsertByShare(sorted: seq<Node>, u: Node) returns (r: seq<Node>)
    requires ByShare(sorted)
    ensures ByShare(r) && multiset(r) == multiset(sorted) + multiset{u}
  {
    var k := |sorted|;
    while 0 < k && u.fshare > sorted[k - 1].fshare
      invariant 0 <= k <= |sorted|
      invariant forall j | k <= j < |sorted| :: u.fshare > sorted[j].fshare
    {
      k := k - 1;
    }
    r := sorted[..k] + [u] + sorted[k..];
    Inserted(sorted, k, u);
    ByShareAfterInsert(sorted, k, u);
  }

  lemma Inserted<T>(s: seq<T>, k: nat, x: T)
    requires k <= |s|
    ensures multiset(s[..k] + [x] + s[k..]) == multiset(s) + multiset{x}
  {
    assert s == s[..k] + s[k..];
  }

  lemma ByShareAfterInsert(sorted: seq<Node>, k: nat, u: Node)
    requires k <= |sorted| && ByShare(sorted)
    requires forall j | k <= j < |sorted| :: u.fshare > sorted[j].fshare
    requires 0 < k ==> u.fshare <= sorted[k - 1].fshare
    ensures ByShare(sorted[..k] + [u] + sorted[k..])
  {
    var r := sorted[..k] + [u] + sorted[k..];
    forall i, j | 0 <= i < j < |r| ensures r[i].fshare >= r[j].fshare {
      assert i < k - 1 ==> sorted[i].fshare >= sorted[k - 1].fshare;
    }
  }

  /** Sort the users; only the order is promised, as for any sort. */
  method SortByShare(users: seq<Node>) returns (sorted: seq<Node>)
    ensures ByShare(sorted) && multiset(sorted) == multiset(users)
  {
    sorted := [];
    for i := 0 to |users|
      invariant ByShare(sorted) && multiset(sorted) == multiset(users[..i])
    {
      assert users[..i + 1] == users[..i] + [users[i]];
      sorted := InsertByShare(sorted, users[i]);
    }
    assert users[..|users|] == users;
  }
}
