/// Reloading the plugin: counters are rebuilt from the jobs there are, in
/// whatever order the workload manager presents them.

module PluginReload {
  import opened JobRecords
  import opened UsageLimits
  import opened Ledger
  import opened PluginWorld
  import opened ActiveRuns

  /** The counters once a job in the given state is seen for the first time. */
  function AddNew(u: Usage, r: Record): Usage
  {
    var u := u.AddActive();
    if r.state == Run then u.AddRun(r.queue, r.nnodes, r.ncores)
    else if r.state == Sched then u.AddSched(r.queue, r.nnodes, r.ncores)
    else u
  }

  /** An active job is presented to the freshly loaded plugin. */
  function Readded(w: World, id: nat): World
    requires id < |w.jobs| && w.jobs[id].owner in w.accounts
  {
    var r := w.jobs[id];
    var a := w.accounts[r.owner];
    if BelowActiveLimit(a) then w.Put(r.owner, AddNew(a.usage, r), a.held) else w
  }

  /** The plugin as it starts: limits are loaded, nothing is counted or held. */
  function Fresh(w: World): World
  {
    w.(accounts := map k | k in w.accounts :: w.accounts[k].(usage := NO_USAGE, held := []))
  }

  function Reload(w: World, order: seq<nat>): World
    requires Owned(w) && forall i | 0 <= i < |order| :: order[i] < |w.jobs|
    ensures Reload(w, order).jobs == w.jobs && Reload(w, order).accounts.Keys == w.accounts.Keys
  {
    if order == [] then w
    else Readded(Reload(w, order[..|order| - 1]), order[|order| - 1])
  }

  /** The order presents every active job among the first n once, and no other. */
  ghost predicate Presents(jobs: seq<Record>, order: seq<nat>, n: nat)
    requires n <= |jobs|
  {
    && (forall i | 0 <= i < |order| :: order[i] < n && jobs[order[i]].state != Inactive)
    && (forall i, j | 0 <= i < j < |order| :: order[i] != order[j])
    && (forall id | 0 <= id < n && jobs[id].state != Inactive :: id in order)
  }

  /** What the presented jobs add up to. */
  function Presented(jobs: seq<Record>, order: seq<nat>, k: Key, m: Metric): nat
    requires forall i | 0 <= i < |order| :: order[i] < |jobs|
  {
    if order == [] then 0
    else Presented(jobs, order[..|order| - 1], k, m) + Part(k, m, jobs[order[|order| - 1]])
  }

  /** Taking one job out of the order takes its part out of the sum. */
  lemma {:induction false} PresentedWithout(jobs: seq<Record>, order: seq<nat>, i: nat, k: Key, m: Metric)
    requires i < |order| && forall i | 0 <= i < |order| :: order[i] < |jobs|
    ensures Presented(jobs, order, k, m)
         == Presented(jobs, order[..i] + order[i + 1..], k, m) + Part(k, m, jobs[order[i]])
  {
    var last := |order| - 1;
    var rest := order[..i] + order[i + 1..];
    if i == last {
      assert rest == order[..last];
    } else {
      PresentedWithout(jobs, order[..last], i, k, m);
      assert rest[..last - 1] == order[..last][..i] + order[..last][i + 1..];
    }
  }

  /** The sum over an order that presents the first n records is their total. */
  lemma {:induction false} PresentedIsTotal(jobs: seq<Record>, order: seq<nat>, n: nat, k: Key, m: Metric)
    requires n <= |jobs| && Presents(jobs, order, n)
    ensures Presented(jobs, order, k, m) == Total(jobs[..n], k, m)
    decreases n
  {
    if n != 0 {
      var id := n - 1;
      TotalPrefix(jobs, n, k, m);
      if jobs[id].state == Inactive {
        InactiveIsAbsent(jobs, order, n);
        PresentedIsTotal(jobs, order, id, k, m);
      } else {
        var i := PlaceOf(jobs, order, n);
        PresentedWithout(jobs, order, i, k, m);
        RestOfOrder(jobs, order, i, n);
        PresentedIsTotal(jobs, order[..i] + order[i + 1..], id, k, m);
      }
    }
  }

  lemma TotalPrefix(jobs: seq<Record>, n: nat, k: Key, m: Metric)
    requires 0 < n <= |jobs|
    ensures Total(jobs[..n], k, m) == Total(jobs[..n - 1], k, m) + Part(k, m, jobs[n - 1])
  {
    assert jobs[..n][..n - 1] == jobs[..n - 1];
  }

  lemma PlaceOf(jobs: seq<Record>, order: seq<nat>, n: nat) returns (i: nat)
    requires 0 < n <= |jobs| && Presents(jobs, order, n) && jobs[n - 1].state != Inactive
    ensures i < |order| && order[i] == n - 1
  {
    i :| 0 <= i < |order| && order[i] == n - 1;
  }

  lemma InactiveIsAbsent(jobs: seq<Record>, order: seq<nat>, n: nat)
    requires 0 < n <= |jobs| && Presents(jobs, order, n) && jobs[n - 1].state == Inactive
    ensures Presents(jobs, order, n - 1)
  {
  }

  lemma RestOfOrder(jobs: seq<Record>, order: seq<nat>, i: nat, n: nat)
    requires n <= |jobs| && Presents(jobs, order, n) && i < |order| && order[i] == n - 1
    ensures Presents(jobs, order[..i] + order[i + 1..], n - 1)
  {
    var rest := order[..i] + order[i + 1..];
    forall id | 0 <= id < n - 1 && jobs[id].state != Inactive ensures id in rest {
      var j :| 0 <= j < |order| && order[j] == id;
      assert rest[if j < i then j else j - 1] == id;
    }
  }

  lemma AddNewCounts(k: Key, r: Record, u: Usage, m: Metric)
    requires r.owner == k && r.state != Inactive
    ensures AddNew(u, r).Count(m) == u.Count(m) + Part(k, m, r)
  {
  }

  /** Account a is account b with nothing held and the presented jobs counted. */
  ghost predicate Counted(jobs: seq<Record>, order: seq<nat>, k: Key, b: Account, a: Account)
    requires forall i | 0 <= i < |order| :: order[i] < |jobs|
  {
    && a == b.(usage := a.usage, held := [])
    && forall m :: a.usage.Count(m) == Presented(jobs, order, k, m)
  }

  /** Presenting one more job counts it, if there is room for an active job. */
  lemma ReaddCounts(w: World, before: World, init: seq<nat>, id: nat, k: Key)
    requires before.jobs == w.jobs && before.accounts.Keys == w.accounts.Keys && k in w.accounts
    requires (forall i | 0 <= i < |init| :: init[i] < |w.jobs|) && id < |w.jobs| && w.jobs[id].state != Inactive
    requires w.jobs[id].owner in w.accounts && BelowActiveLimit(before.accounts[w.jobs[id].owner])
    requires Counted(w.jobs, init, k, w.accounts[k], before.accounts[k])
    ensures Counted(w.jobs, init + [id], k, w.accounts[k], Readded(before, id).accounts[k])
  {
    var r := w.jobs[id];
    var b, a := before.accounts[k], Readded(before, id).accounts[k];
    assert (init + [id])[..|init|] == init;
    forall m ensures a.usage.Count(m) == b.usage.Count(m) + Part(k, m, r) {
      if r.owner == k {
        AddNewCounts(k, r, b.usage, m);
      }
    }
  }

  /** The order in which limits on active jobs turn no job away. */
  ghost predicate FitsActiveLimits(w: World, whole: seq<nat>)
    requires forall i | 0 <= i < |whole| :: whole[i] < |w.jobs|
  {
    forall k | k in w.accounts && w.accounts[k].limits.maxActiveJobs > 0 ::
      Presented(w.jobs, whole, k, ActiveJobs) <= w.accounts[k].limits.maxActiveJobs
  }

  lemma RoomForNext(w: World, init: seq<nat>, id: nat, whole: seq<nat>, a: Account)
    requires (forall i | 0 <= i < |whole| :: whole[i] < |w.jobs|) && init + [id] <= whole && id < |w.jobs|
    requires w.jobs[id].state != Inactive && w.jobs[id].owner in w.accounts && FitsActiveLimits(w, whole)
    requires forall i | 0 <= i < |init| :: init[i] < |w.jobs|
    requires Counted(w.jobs, init, w.jobs[id].owner, w.accounts[w.jobs[id].owner], a)
    ensures BelowActiveLimit(a)
  {
    var k := w.jobs[id].owner;
    assert whole[|init|] == id && forall i | 0 <= i < |init + [id]| :: (init + [id])[i] < |w.jobs|;
    PresentedGrows(w.jobs, init + [id], whole, k, ActiveJobs);
    assert (init + [id])[..|init|] == init;
    assert a.usage.Count(ActiveJobs) == Presented(w.jobs, init, k, ActiveJobs);
  }

  /** While jobs are presented, every counter is the sum over those presented:
      the limit on active jobs, which was kept before, turns none away. */
  lemma {:induction false} ReloadCounts(w: World, order: seq<nat>, whole: seq<nat>)
    requires Owned(w) && Presents(w.jobs, whole, |w.jobs|) && order <= whole && FitsActiveLimits(w, whole)
    ensures forall i | 0 <= i < |order| :: order[i] < |w.jobs|
    ensures var end := Reload(Fresh(w), order);
            forall k | k in w.accounts :: Counted(w.jobs, order, k, w.accounts[k], end.accounts[k])
  {
    if order != [] {
      var init, id := order[..|order| - 1], order[|order| - 1];
      assert order == init + [id] && id == whole[|init|] && init <= whole;
      ReloadCounts(w, init, whole);
      var before := Reload(Fresh(w), init);
      RoomForNext(w, init, id, whole, before.accounts[w.jobs[id].owner]);
      ReaddAll(w, before, init, id);
    }
  }

  lemma ReaddAll(w: World, before: World, init: seq<nat>, id: nat)
    requires before.jobs == w.jobs && before.accounts.Keys == w.accounts.Keys
    requires (forall i | 0 <= i < |init| :: init[i] < |w.jobs|) && id < |w.jobs| && w.jobs[id].state != Inactive
    requires w.jobs[id].owner in w.accounts && BelowActiveLimit(before.accounts[w.jobs[id].owner])
    requires forall k | k in w.accounts :: Counted(w.jobs, init, k, w.accounts[k], before.accounts[k])
    ensures forall k | k in w.accounts ::
              Counted(w.jobs, init + [id], k, w.accounts[k], Readded(before, id).accounts[k])
  {
    forall k | k in w.accounts ensures Counted(w.jobs, init + [id], k, w.accounts[k], Readded(before, id).accounts[k]) {
      ReaddCounts(w, before, init, id, k);
    }
  }

  lemma {:induction false} PresentedGrows(jobs: seq<Record>, order: seq<nat>, whole: seq<nat>, k: Key, m: Metric)
    requires order <= whole && forall i | 0 <= i < |whole| :: whole[i] < |jobs|
    ensures Presented(jobs, order, k, m) <= Presented(jobs, whole, k, m)
    decreases |whole|
  {
    if order != whole {
      PresentedGrows(jobs, order, whole[..|whole| - 1], k, m);
    } else {
      assert order[..|order|] == whole[..|whole|];
    }
  }

  lemma PresentedIsAll(jobs: seq<Record>, order: seq<nat>, k: Key, m: Metric)
    requires Presents(jobs, order, |jobs|)
    ensures Presented(jobs, order, k, m) == Total(jobs, k, m)
  {
    PresentedIsTotal(jobs, order, |jobs|, k, m);
    assert jobs[..|jobs|] == jobs;
  }

  lemma FitsAsBefore(w: World, order: seq<nat>)
    requires Sound(true, w) && WithinActiveLimits(w) && Presents(w.jobs, order, |w.jobs|)
    ensures FitsActiveLimits(w, order)
  {
    forall k | k in w.accounts && w.accounts[k].limits.maxActiveJobs > 0
      ensures Presented(w.jobs, order, k, ActiveJobs) <= w.accounts[k].limits.maxActiveJobs
    {
      PresentedIsAll(w.jobs, order, k, ActiveJobs);
      assert w.accounts[k].usage.Count(ActiveJobs) == Total(w.jobs, k, ActiveJobs);
    }
  }

  /** A reload rebuilds the state: in whatever order the active jobs are
      presented, every counter is what the callbacks had made of it. */
  lemma ReloadRebuilds(w: World, order: seq<nat>)
    requires Sound(true, w) && WithinActiveLimits(w) && Presents(w.jobs, order, |w.jobs|)
    ensures var end := Reload(Fresh(w), order);
            && end.accounts.Keys == w.accounts.Keys && Sound(true, end)
            && forall k, m | k in w.accounts :: end.accounts[k].usage.Count(m) == w.accounts[k].usage.Count(m)
  {
    FitsAsBefore(w, order);
    ReloadCounts(w, order, order);
    var end := Reload(Fresh(w), order);
    forall k | k in w.accounts
      ensures Exact(true, end.jobs, k, end.accounts[k].usage) && end.accounts[k].held == []
    {
      assert Counted(w.jobs, order, k, w.accounts[k], end.accounts[k]);
      forall m ensures Presented(w.jobs, order, k, m) == Total(w.jobs, k, m) {
        PresentedIsAll(w.jobs, order, k, m);
      }
    }
  }
}
