/// Running the plugin: from event to event, and through a reload.

module PluginLifecycle {
  import opened JobRecords
  import opened UsageLimits
  import opened PluginWorld
  import opened PluginInvariant
  import opened PluginRuns
  import opened ActiveRuns
  import opened PluginReload
  import opened PriorityPlugin

  /** Handle a run of events: the plugin ends in the state the run leads to, with
      every counter exact. */
  method Execute(p: Plugin, es: seq<Event>, ghost full: bool)
    requires p.Valid() && Sound(full, p.World()) && CanHappen(full, p.World(), es)
    modifies p, p.users.Values
    ensures p.Valid() && p.World() == After(full, old(p.World()), es) && Sound(full, p.World())
  {
    for i := 0 to |es|
      invariant p.Valid() && fresh(p.users.Values - old(p.users.Values))
      invariant Sound(full, p.World()) && CanHappen(full, p.World(), es[i..])
      invariant After(full, p.World(), es[i..]) == After(full, old(p.World()), es)
    {
      assert es[i..][0] == es[i] && es[i..][1..] == es[i + 1..];
      StepIsSound(full, p.World(), es[i]);
      p.Handle(es[i], full);
    }
  }

  /** An active job is presented to the plugin: it is counted where it is. */
  method NewCb(p: Plugin, id: nat)
    requires p.Valid() && id < |p.jobs| && p.jobs[id].owner in p.users
    modifies p.users.Values`usage
    ensures p.Valid() && p.World() == Readded(old(p.World()), id)
  {
    var r := p.jobs[id];
    var b := p.users[r.owner];
    assert p.World().accounts[r.owner] == b.View();
    if b.limits.maxActiveJobs > 0 && b.usage.curActiveJobs >= b.limits.maxActiveJobs {
      return;
    }
    Count(b, r);
    p.OneChanged(r.owner);
  }

  method Count(b: Association, r: Record)
    modifies b`usage
    ensures b.usage == AddNew(old(b.usage), r)
  {
    b.usage := b.usage.(curActiveJobs := b.usage.curActiveJobs + 1);
    if r.state == Run {
      b.CountRun(r.queue, r.nnodes, r.ncores);
    }
    if r.state == Sched {
      b.CountSched(r.queue, r.nnodes, r.ncores);
    }
  }

  /** The world once all associations but those left have been cleared. */
  ghost function FreshBut(w: World, left: set<Key>): World
  {
    w.(accounts := map k | k in w.accounts ::
                     if k in left then w.accounts[k] else w.accounts[k].(usage := NO_USAGE, held := []))
  }

  lemma FreshButNext(w: World, left: set<Key>, k: Key)
    requires k in left && k in w.accounts
    ensures FreshBut(w, left).Put(k, NO_USAGE, []) == FreshBut(w, left - {k})
  {
  }

  lemma FreshButEnds(w: World)
    ensures FreshBut(w, w.accounts.Keys) == w && FreshBut(w, {}) == Fresh(w)
  {
    assert FreshBut(w, w.accounts.Keys).accounts == w.accounts && FreshBut(w, {}).accounts == Fresh(w).accounts;
  }

  method ClearOne(p: Plugin, k: Key)
    requires p.Valid() && k in p.users && k in p.World().accounts
    modifies p.users.Values`usage, p.users.Values`heldJobs
    ensures p.Valid() && p.World() == old(p.World()).Put(k, NO_USAGE, [])
  {
    var a := p.users[k];
    a.usage, a.heldJobs := NO_USAGE, [];
    p.OneChanged(k);
  }

  /** Nothing is counted or held any more. */
  method Clear(p: Plugin)
    requires p.Valid()
    modifies p.users.Values`usage, p.users.Values`heldJobs
    ensures p.Valid() && p.World() == Fresh(old(p.World()))
  {
    ghost var w := p.World();
    var left := p.users.Keys;
    FreshButEnds(w);
    while left != {}
      invariant p.Valid() && left <= p.users.Keys && p.World() == FreshBut(w, left)
      decreases left
    {
      var k :| k in left;
      FreshButNext(w, left, k);
      ClearOne(p, k);
      left := left - {k};
    }
  }

  /** The active jobs are presented one after the other. */
  method PresentAll(p: Plugin, order: seq<nat>)
    requires p.Valid() && Owned(p.World()) && forall i | 0 <= i < |order| :: order[i] < |p.jobs|
    modifies p.users.Values`usage
    ensures p.Valid() && p.World() == Reload(old(p.World()), order)
  {
    ghost var w := p.World();
    for i := 0 to |order|
      invariant p.Valid() && p.jobs == w.jobs && Owned(p.World()) && p.World() == Reload(w, order[..i])
    {
      assert order[..i + 1][..i] == order[..i];
      NewCb(p, order[i]);
    }
    assert order[..|order|] == order;
  }

  /** Reload the plugin: it starts with nothing counted, and the active jobs are
      presented to it in some order.  Every counter is rebuilt. */
  method Restart(p: Plugin, order: seq<nat>)
    requires p.Valid() && Sound(true, p.World()) && WithinActiveLimits(p.World())
    requires Presents(p.jobs, order, |p.jobs|)
    modifies p.users.Values`usage, p.users.Values`heldJobs
    ensures p.Valid() && Sound(true, p.World())
    ensures p.World().accounts.Keys == old(p.World()).accounts.Keys
    ensures forall k, m | k in old(p.World()).accounts ::
              p.World().accounts[k].usage.Count(m) == old(p.World()).accounts[k].usage.Count(m)
  {
    ReloadRebuilds(p.World(), order);
    Clear(p);
    PresentAll(p, order);
  }
}
