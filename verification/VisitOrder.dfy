/// How the walk of a bank is put together from the walks of its children.

module VisitOrder {
  import opened WeightPath

  /** One entry of a tie-aware child list: a user with its tie flag, or a bank
      (real or virtual) with the paths of its users relative to itself. */
  datatype Entry<U> =
    | UserEntry(weight: real, user: U, tied: bool)
    | BankEntry(weight: real, users: map<U, Path>)
  {
    function Paths(): map<U, Path> {
      if UserEntry? then map[user := []] else users
    }
  }

  /** Every user of the bank sits in some entry. */
  ghost predicate Complete<U>(paths: map<U, Path>, es: seq<Entry<U>>)
  {
    forall u | u in paths :: exists i :: 0 <= i < |es| && u in es[i].Paths()
  }

  /** An entry's users are the bank's, one weight further down. */
  ghost predicate Faithful<U>(paths: map<U, Path>, es: seq<Entry<U>>)
  {
    && (forall i, u | 0 <= i < |es| && u in es[i].Paths() ::
         u in paths && paths[u] == [es[i].weight] + es[i].Paths()[u])
    && (forall i, u | 0 <= i < |es| && es[i].BankEntry? && u in es[i].users :: es[i].users[u] != [])
  }

  /** No user sits in two entries. */
  ghost predicate Separate<U>(es: seq<Entry<U>>)
  {
    forall i, j, u | 0 <= i < j < |es| && u in es[i].Paths() :: u !in es[j].Paths()
  }

  /** Entries cover the users of a bank: each user sits in one entry, one weight
      further down. */
  ghost predicate Covers<U>(paths: map<U, Path>, es: seq<Entry<U>>)
  {
    Complete(paths, es) && Faithful(paths, es) && Separate(es)
  }

  /** Entries are heaviest first and only users may share a weight with a later entry. */
  ghost predicate HeaviestFirst<U>(es: seq<Entry<U>>)
  {
    forall i, j | 0 <= i < j < |es| :: es[i].weight > es[j].weight || (es[i].weight == es[j].weight && es[i].UserEntry?)
  }

  /** A user's tie flag is up exactly if a later user entry has the same weight. */
  ghost predicate TiesMarked<U>(es: seq<Entry<U>>)
  {
    forall i | 0 <= i < |es| && es[i].UserEntry? ::
      es[i].tied <==> exists j :: i < j < |es| && es[j].UserEntry? && es[j].weight == es[i].weight
  }

  ghost predicate TieAware<U>(paths: map<U, Path>, es: seq<Entry<U>>)
  {
    Covers(paths, es) && HeaviestFirst(es) && TiesMarked(es)
  }

  /** The log of visiting one entry. */
  ghost predicate EntryWalk<U>(e: Entry<U>, log: seq<Visit<U>>)
  {
    if e.UserEntry? then log == [Visit(e.user, e.tied)] else IsWalk(e.users, log)
  }

  /** Exactly the users of the first k entries. */
  ghost predicate UsersOfFirst<U>(es: seq<Entry<U>>, k: nat, done: set<U>)
    requires k <= |es|
  {
    && (forall u | u in done :: exists i :: 0 <= i < k && u in es[i].Paths())
    && (forall i, u | 0 <= i < k && u in es[i].Paths() :: u in done)
  }

  /** The log of visiting the first k entries of a bank. */
  ghost predicate WalkSoFar<U>(paths: map<U, Path>, es: seq<Entry<U>>, k: nat, log: seq<Visit<U>>)
    requires k <= |es|
  {
    UsersOfFirst(es, k, Visited(log, |log|)) && forall i | 0 <= i < |log| :: PicksNext(paths, log, i)
  }

  lemma VisitedConcat<U>(s: seq<Visit<U>>, t: seq<Visit<U>>, i: nat)
    requires i <= |s| + |t|
    ensures i <= |s| ==> Visited(s + t, i) == Visited(s, i)
    ensures |s| <= i ==> Visited(s + t, i) == Visited(s, |s|) + Visited(t, i - |s|)
  {
    if i <= |s| {
      assert forall j | 0 <= j < i :: (s + t)[j] == s[j];
    } else {
      assert forall j | 0 <= j < |s| :: (s + t)[j] == s[j];
      assert forall j | 0 <= j < i - |s| :: (s + t)[|s| + j] == t[j];
    }
  }

  /** Within one entry, path order is the order one level up. */
  lemma EntryOrder<U>(paths: map<U, Path>, es: seq<Entry<U>>, k: nat, u: U, v: U)
    requires k < |es| && Covers(paths, es) && u in es[k].Paths() && v in es[k].Paths()
    ensures u in paths && v in paths
    ensures Ahead(paths[u], paths[v]) == Ahead(es[k].Paths()[u], es[k].Paths()[v])
    ensures paths[u] == paths[v] <==> es[k].Paths()[u] == es[k].Paths()[v]
  {
    AheadCons(es[k].weight, es[k].Paths()[u], es[k].Paths()[v]);
  }

  /** Nobody under a later entry is ahead; a tie across entries is a tie of users. */
  lemma LaterEntry<U>(paths: map<U, Path>, es: seq<Entry<U>>, k: nat, l: nat, u: U, v: U)
    requires k < l < |es| && Covers(paths, es) && HeaviestFirst(es) && u in es[k].Paths() && v in es[l].Paths()
    ensures u in paths && v in paths && u != v
    ensures !Ahead(paths[v], paths[u])
    ensures paths[u] == paths[v] <==> es[k].weight == es[l].weight && es[k].UserEntry? && es[l].UserEntry?
  {
    var p, q := es[k].Paths()[u], es[l].Paths()[v];
    assert paths[u] == [es[k].weight] + p && paths[v] == [es[l].weight] + q;
    assert paths[u][0] == es[k].weight && paths[v][0] == es[l].weight;
    if es[k].weight == es[l].weight {
      AheadCons(es[k].weight, p, q);
      AheadCons(es[k].weight, q, p);
    }
  }

  /** A right choice inside a bank entry is right for the whole bank. */
  lemma PickInBank<U>(paths: map<U, Path>, es: seq<Entry<U>>, k: nat, done: set<U>, inside: set<U>, u: U, tied: bool)
    requires k < |es| && Covers(paths, es) && HeaviestFirst(es) && es[k].BankEntry?
    requires UsersOfFirst(es, k, done) && inside <= es[k].users.Keys
    requires PickFrom(es[k].users, inside, u, tied)
    ensures PickFrom(paths, done + inside, u, tied)
  {
    var waiting := paths.Keys - (done + inside);
    forall v | v in waiting
      ensures !Ahead(paths[v], paths[u])
      ensures paths[v] == paths[u] ==> v in es[k].users.Keys - inside
    {
      var l :| 0 <= l < |es| && v in es[l].Paths();
      if l == k {
        EntryOrder(paths, es, k, v, u);
      } else {
        LaterEntry(paths, es, k, l, u, v);
      }
    }
    forall v | v in es[k].users.Keys - inside
      ensures v in waiting && (paths[v] == paths[u] <==> es[k].users[v] == es[k].users[u])
    {
      EntryOrder(paths, es, k, v, u);
    }
  }

  /** Visiting a user entry with its marked tie flag is a right choice. */
  lemma PickUser<U>(paths: map<U, Path>, es: seq<Entry<U>>, k: nat, done: set<U>)
    requires k < |es| && TieAware(paths, es) && es[k].UserEntry?
    requires UsersOfFirst(es, k, done)
    ensures PickFrom(paths, done, es[k].user, es[k].tied)
  {
    var u := es[k].user;
    assert u in es[k].Paths();
    AheadTrichotomy(paths[u], paths[u]);
    forall v | v in paths.Keys - done && v != u
      ensures !Ahead(paths[v], paths[u])
      ensures paths[v] == paths[u] ==> es[k].tied
    {
      var l :| 0 <= l < |es| && v in es[l].Paths();
      LaterEntry(paths, es, k, l, u, v);
    }
    if es[k].tied {
      var l :| k < l < |es| && es[l].UserEntry? && es[l].weight == es[k].weight;
      assert es[l].user in es[l].Paths();
      LaterEntry(paths, es, k, l, u, es[l].user);
    }
  }

  lemma VisitedWithin<U>(paths: map<U, Path>, log: seq<Visit<U>>, i: nat)
    requires IsWalk(paths, log) && i <= |log|
    ensures Visited(log, i) <= paths.Keys
  {
  }

  /** The visit of a user entry is right for the whole bank. */
  lemma UserIsNext<U>(paths: map<U, Path>, es: seq<Entry<U>>, k: nat, s: seq<Visit<U>>, t: seq<Visit<U>>)
    requires k < |es| && TieAware(paths, es) && es[k].UserEntry?
    requires UsersOfFirst(es, k, Visited(s, |s|)) && EntryWalk(es[k], t)
    ensures PicksNext(paths, s + t, |s|)
  {
    VisitedConcat(s, t, |s|);
    PickUser(paths, es, k, Visited(s, |s|));
  }

  /** A visit inside a bank entry is right for the whole bank. */
  lemma BankVisitIsNext<U>(paths: map<U, Path>, es: seq<Entry<U>>, k: nat, s: seq<Visit<U>>, t: seq<Visit<U>>, i: nat)
    requires k < |es| && TieAware(paths, es) && es[k].BankEntry?
    requires UsersOfFirst(es, k, Visited(s, |s|)) && IsWalk(es[k].users, t) && i < |t|
    ensures PicksNext(paths, s + t, |s| + i)
  {
    VisitedConcat(s, t, |s| + i);
    VisitedWithin(es[k].users, t, i);
    assert PicksNext(es[k].users, t, i) && (s + t)[|s| + i] == t[i];
    PickInBank(paths, es, k, Visited(s, |s|), Visited(t, i), t[i].user, t[i].tied);
  }

  /** A visit inside entry k is also right for the whole bank. */
  lemma LiftPick<U>(paths: map<U, Path>, es: seq<Entry<U>>, k: nat, s: seq<Visit<U>>, t: seq<Visit<U>>, i: nat)
    requires k < |es| && TieAware(paths, es)
    requires UsersOfFirst(es, k, Visited(s, |s|)) && EntryWalk(es[k], t) && i < |t|
    ensures PicksNext(paths, s + t, |s| + i)
  {
    if es[k].UserEntry? {
      UserIsNext(paths, es, k, s, t);
    } else {
      BankVisitIsNext(paths, es, k, s, t, i);
    }
  }

  lemma EntryVisits<U>(e: Entry<U>, t: seq<Visit<U>>)
    requires EntryWalk(e, t)
    ensures Visited(t, |t|) == e.Paths().Keys
  {
    if e.UserEntry? {
      assert Visited(t, 1) == {t[0].user};
    }
  }

  /** Visiting entry k after the first k extends the walk. */
  lemma WalkOneMore<U>(paths: map<U, Path>, es: seq<Entry<U>>, k: nat, s: seq<Visit<U>>, t: seq<Visit<U>>)
    requires k < |es| && TieAware(paths, es)
    requires WalkSoFar(paths, es, k, s) && EntryWalk(es[k], t)
    ensures WalkSoFar(paths, es, k + 1, s + t)
  {
    forall j | 0 <= j < |s + t| ensures PicksNext(paths, s + t, j) {
      if j < |s| {
        VisitedConcat(s, t, j);
        assert PicksNext(paths, s, j) && (s + t)[j] == s[j];
      } else {
        LiftPick(paths, es, k, s, t, j - |s|);
      }
    }
    VisitedConcat(s, t, |s + t|);
    EntryVisits(es[k], t);
    assert Visited(s + t, |s + t|) == Visited(s, |s|) + es[k].Paths().Keys;
  }

  /** Visiting all entries is a walk of the bank. */
  lemma WalkDone<U>(paths: map<U, Path>, es: seq<Entry<U>>, log: seq<Visit<U>>)
    requires Covers(paths, es) && WalkSoFar(paths, es, |es|, log)
    ensures IsWalk(paths, log)
  {
  }

  lemma VisitedOnce<U>(paths: map<U, Path>, log: seq<Visit<U>>)
    requires forall i | 0 <= i < |log| :: PicksNext(paths, log, i)
    ensures |Visited(log, |log|)| == |log| && Visited(log, |log|) <= paths.Keys
  {
    forall i | 0 <= i < |log| ensures log[i].user !in Visited(log, i) && log[i].user in paths {
      assert PicksNext(paths, log, i);
    }
    VisitedSize(log, |log|);
  }

  /** None of an entry's users is among those of earlier entries. */
  lemma EntryIsFresh<U>(paths: map<U, Path>, es: seq<Entry<U>>, k: nat, done: set<U>)
    requires k < |es| && Covers(paths, es) && UsersOfFirst(es, k, done)
    ensures done !! es[k].Paths().Keys && es[k].Paths().Keys <= paths.Keys
  {
    forall u | u in done ensures u !in es[k].Paths() {
      var i :| 0 <= i < k && u in es[i].Paths();
    }
  }

  /** There is room for the next entry: visits so far and its users are distinct
      users of the bank. */
  lemma RoomForEntry<U>(paths: map<U, Path>, es: seq<Entry<U>>, k: nat, s: seq<Visit<U>>)
    requires k < |es| && Covers(paths, es) && WalkSoFar(paths, es, k, s)
    ensures |s| + |es[k].Paths()| <= |paths|
  {
    var done, next := Visited(s, |s|), es[k].Paths().Keys;
    VisitedOnce(paths, s);
    EntryIsFresh(paths, es, k, done);
    RoomForBoth(done, next, paths.Keys);
  }

  lemma RoomForBoth<U>(a: set<U>, b: set<U>, all: set<U>)
    requires a !! b && a <= all && b <= all
    ensures |a| + |b| <= |all|
  {
    assert |a + b| == |a| + |b|;
    SubsetSize(a + b, all);
  }
}
