/// Active jobs over whole runs, in which jobs may be moved between banks at any
/// time, held ones too.

module ActiveRuns {
  import opened JobRecords
  import opened UsageLimits
  import opened ReleasePass
  import opened Ledger
  import opened PluginWorld
  import opened PluginInvariant
  import opened PluginRuns

  /** Every association's count of active jobs is the number of its live jobs. */
  ghost predicate ActiveExact(w: World)
  {
    Owned(w) && forall k | k in w.accounts :: Exact(false, w.jobs, k, w.accounts[k].usage)
  }

  /** The events can happen one after the other, with bank updates of any live
      job.  After a held job has been moved and has ended elsewhere, its entry is
      stale, and a pass that would relieve it of a dependency ends there. */
  ghost predicate Unfolds(w: World, es: seq<Event>)
    decreases |es|
  {
    es == [] || (Owned(w) && Deliverable(w, es[0]) && Unfolds(Step(w, es[0]), es[1..]))
  }

  ghost function End(w: World, es: seq<Event>): World
    requires Unfolds(w, es)
    decreases |es|
  {
    if es == [] then w else End(Step(w, es[0]), es[1..])
  }

  // ----- one event -----

  /** A live job changes without ending or changing hands, and no count of active
      jobs changes. */
  lemma StillActive(w: World, w': World, id: nat, r: Record)
    requires ActiveExact(w) && id < |w.jobs| && w.jobs[id].state != Inactive
    requires r.owner == w.jobs[id].owner && r.state != Inactive
    requires w'.jobs == w.jobs[id := r] && w'.accounts.Keys == w.accounts.Keys
    requires forall k | k in w.accounts :: w'.accounts[k].usage.curActiveJobs == w.accounts[k].usage.curActiveJobs
    ensures ActiveExact(w')
  {
    forall k | k in w.accounts ensures Exact(false, w'.jobs, k, w'.accounts[k].usage) {
      StaysExact(false, w.jobs, id, r, k, w.accounts[k].usage, w'.accounts[k].usage);
    }
  }

  lemma SubmitKeepsExact(w: World, k: Key, q: string, p: Project, nnodes: nat, ncores: nat)
    requires ActiveExact(w)
    ensures ActiveExact(Submitted(w, k, q, p, nnodes, ncores))
  {
    if Accepts(w, k, q, p, nnodes, ncores) {
      var r := Record(k, q, nnodes, ncores, New);
      forall l | l in w.accounts
        ensures Total(w.jobs + [r], l, ActiveJobs) == Total(w.jobs, l, ActiveJobs) + Part(l, ActiveJobs, r)
      {
        TotalAppend(w.jobs, r, l, ActiveJobs);
      }
    }
  }

  lemma FinishKeepsExact(w: World, id: nat)
    requires ActiveExact(w) && id < |w.jobs| && w.jobs[id].state != Inactive
    ensures ActiveExact(FinishedOnly(w, id))
  {
    var r, w' := w.jobs[id].(state := Inactive), FinishedOnly(w, id);
    forall k | k in w.accounts ensures Exact(false, w'.jobs, k, w'.accounts[k].usage) {
      StaysExact(false, w.jobs, id, r, k, w.accounts[k].usage, w'.accounts[k].usage);
    }
  }

  lemma MoveKeepsExact(w: World, id: nat, to: Key)
    requires ActiveExact(w) && id < |w.jobs| && w.jobs[id].state != Inactive
    ensures ActiveExact(BankUpdated(w, id, to))
  {
    if AcceptsMove(w, to) && w.jobs[id].owner != to {
      var r, w' := w.jobs[id].(owner := to), BankUpdated(w, id, to);
      forall k | k in w.accounts ensures Exact(false, w'.jobs, k, w'.accounts[k].usage) {
        StaysExact(false, w.jobs, id, r, k, w.accounts[k].usage, w'.accounts[k].usage);
      }
    }
  }

  lemma LoadKeepsExact(w: World, k: Key, active: bool, queues: seq<string>, projects: seq<string>, limits: Limits)
    requires ActiveExact(w)
    ensures ActiveExact(Loaded(w, k, active, queues, projects, limits))
  {
    if k !in w.accounts {
      NoJobsNoTotal(w.jobs, k, ActiveJobs);
    }
  }

  // ----- passes -----

  /** Nothing that matters to counts of active jobs has changed: jobs have their
      owners and are live or not as they were, and the counts are the same. */
  ghost predicate SameActive(w: World, w': World)
  {
    && |w'.jobs| == |w.jobs| && w'.accounts.Keys == w.accounts.Keys
    && (forall i | 0 <= i < |w.jobs| ::
          w'.jobs[i].owner == w.jobs[i].owner && (w'.jobs[i].state == Inactive <==> w.jobs[i].state == Inactive))
    && forall k | k in w.accounts ::
         && w'.accounts[k].usage.curActiveJobs == w.accounts[k].usage.curActiveJobs
         && w'.accounts[k].limits == w.accounts[k].limits
  }

  lemma {:induction false} SameTotal(jobs: seq<Record>, after: seq<Record>, k: Key)
    requires |after| == |jobs| && forall i | 0 <= i < |jobs| ::
               after[i].owner == jobs[i].owner && (after[i].state == Inactive <==> jobs[i].state == Inactive)
    ensures Total(after, k, ActiveJobs) == Total(jobs, k, ActiveJobs)
  {
    if jobs != [] {
      SameTotal(jobs[..|jobs| - 1], after[..|jobs| - 1], k);
    }
  }

  lemma SameStaysExact(w: World, w': World)
    requires ActiveExact(w) && SameActive(w, w')
    ensures ActiveExact(w')
  {
    forall l | l in w.accounts ensures Exact(false, w'.jobs, l, w'.accounts[l].usage) {
      SameTotal(w.jobs, w'.jobs, l);
      assert w.accounts[l].usage.Count(ActiveJobs) == Total(w.jobs, l, ActiveJobs);
    }
  }

  lemma LetGoKeepsActive(w: World, id: nat, fate: State)
    requires Waits(w, id) && fate != Inactive
    ensures SameActive(w, LetGo(w, id, fate))
  {
  }

  /** A pass changes no count of active jobs, wherever it ends. */
  lemma {:induction false} PassKeepsActive(w: World, k: Key, fates: map<nat, State>, p: Pending, kept: seq<Job>,
                                           todo: seq<Job>)
    requires k in w.accounts
    ensures SameActive(w, PassOver(w, k, fates, p, kept, todo))
    decreases |todo|
  {
    if todo != [] {
      var job, u, rules := todo[0], w.accounts[k].usage, Rules(w.accounts[k].limits, w.queues, fates);
      var left := Kept(rules, u, p, job, job.deps);
      if left == job.deps {
        PassKeepsActive(w, k, fates, p, kept + [job], todo[1..]);
      } else if Waits(w, job.id) {
        if left != [] {
          PassKeepsActive(w, k, fates, p, kept + [job.(deps := left)], todo[1..]);
        } else {
          var fate := rules.Fate(job.id);
          LetGoKeepsActive(w, job.id, fate);
          PassKeepsActive(LetGo(w, job.id, fate), k, fates, Commit(p, job, fate == Sched), kept, todo[1..]);
        }
      }
    }
  }

  /** A stale entry at the front that would lose a dependency ends every pass:
      the jobs held after it are not looked at. */
  lemma StaleEntryEndsPass(w: World, k: Key, fates: map<nat, State>, d: Dep)
    requires k in w.accounts && w.accounts[k].held != [] && !Waits(w, w.accounts[k].held[0].id)
    requires d in w.accounts[k].held[0].deps
    requires Under(d, w.accounts[k].usage, w.accounts[k].limits, w.queues, NOTHING_PENDING, w.accounts[k].held[0])
    ensures Released(w, k, fates) == w
  {
    var a, rules := w.accounts[k], Rules(w.accounts[k].limits, w.queues, fates);
    assert d !in Kept(rules, a.usage, NOTHING_PENDING, a.held[0], a.held[0].deps);
    assert [] + a.held == a.held && w.Put(k, a.usage, a.held).accounts == w.accounts;
  }

  lemma {:induction false} RevisitKeepsActive(w: World, order: seq<Key>, fates: map<nat, State>)
    requires forall i | 0 <= i < |order| :: order[i] in w.accounts
    ensures SameActive(w, Revisited(w, order, fates))
  {
    if order != [] {
      var init, k := order[..|order| - 1], order[|order| - 1];
      RevisitKeepsActive(w, init, fates);
      var before := Revisited(w, init, fates);
      PassKeepsActive(before, k, fates, NOTHING_PENDING, [], before.accounts[k].held);
    }
  }

  lemma ReleaseKeepsActive(w: World, k: Key, fates: map<nat, State>)
    requires k in w.accounts
    ensures SameActive(w, Released(w, k, fates))
  {
    PassKeepsActive(w, k, fates, NOTHING_PENDING, [], w.accounts[k].held);
  }

  /** Every event keeps the counts of active jobs exact. */
  lemma StepKeepsExact(w: World, e: Event)
    requires ActiveExact(w) && Deliverable(w, e)
    ensures ActiveExact(Step(w, e))
  {
    match e
    case Submit(k, q, p, nnodes, ncores) => SubmitKeepsExact(w, k, q, p, nnodes, ncores);
    case EnterDepend(id) => StillActive(w, Step(w, e), id, w.jobs[id].(state := Depend));
    case EnterPriority(id) => StillActive(w, Step(w, e), id, w.jobs[id].(state := Priority));
    case EnterSched(id) => StillActive(w, Step(w, e), id, w.jobs[id].(state := Sched));
    case Start(id, fates) =>
      StillActive(w, StartedOnly(w, id), id, w.jobs[id].(state := Run));
      ReleaseKeepsExact(StartedOnly(w, id), w.jobs[id].owner, fates);
    case Finish(id, fates) =>
      FinishKeepsExact(w, id);
      if w.jobs[id].PriorityPosted() {
        ReleaseKeepsExact(FinishedOnly(w, id), w.jobs[id].owner, fates);
      }
    case Reprioritize(order, fates) =>
      RevisitKeepsActive(w, order, fates);
      SameStaysExact(w, Revisited(w, order, fates));
    case LoadAssociation(k, active, queues, projects, limits) =>
      LoadKeepsExact(w, k, active, queues, projects, limits);
    case LoadQueues(_) | LoadProjects(_) | Configure(_) =>
    case UpdateBank(id, to) => MoveKeepsExact(w, id, to);
  }

  lemma ReleaseKeepsExact(w: World, k: Key, fates: map<nat, State>)
    requires ActiveExact(w) && k in w.accounts
    ensures ActiveExact(Released(w, k, fates))
  {
    ReleaseKeepsActive(w, k, fates);
    SameStaysExact(w, Released(w, k, fates));
  }

  lemma {:induction false} StaysActiveExact(w: World, es: seq<Event>)
    requires ActiveExact(w) && Unfolds(w, es)
    ensures ActiveExact(End(w, es))
    decreases |es|
  {
    if es != [] {
      StepKeepsExact(w, es[0]);
      StaysActiveExact(Step(w, es[0]), es[1..]);
    }
  }

  // ----- conservation -----

  /** The active-job counters of several associations, added up. */
  ghost function ActiveSum(keys: set<Key>, w: World): int
    requires keys <= w.accounts.Keys
  {
    if keys == {} then 0
    else var k :| k in keys; w.accounts[k].usage.curActiveJobs + ActiveSum(keys - {k}, w)
  }

  lemma {:induction false} ActiveSumIsExact(keys: set<Key>, w: World)
    requires keys <= w.accounts.Keys && ActiveExact(w)
    ensures ActiveSum(keys, w) == ActiveOf(keys, w.jobs)
    decreases keys
  {
    if keys != {} {
      var k :| k in keys && ActiveSum(keys, w) == w.accounts[k].usage.curActiveJobs + ActiveSum(keys - {k}, w);
      ActiveSumIsExact(keys - {k}, w);
      ActiveOfPick(keys, w.jobs, k);
      assert w.accounts[k].usage.Count(ActiveJobs) == Total(w.jobs, k, ActiveJobs);
    }
  }

  /** Active jobs are conserved: over every run, with bank updates of any live job,
      each association's counter is the number of its live jobs, and together the
      counters are the number of live jobs. */
  lemma ActiveConserved(w: World, es: seq<Event>)
    requires ActiveExact(w) && Unfolds(w, es)
    ensures var end := End(w, es);
            && ActiveExact(end) && ActiveSum(end.accounts.Keys, end) == Live(end.jobs)
  {
    StaysActiveExact(w, es);
    var end := End(w, es);
    ActiveSumIsExact(end.accounts.Keys, end);
    ActiveIsLive(end.accounts.Keys, end.jobs);
  }

  // ----- limits on active jobs -----

  /** No association is above a positive limit on active jobs. */
  ghost predicate WithinActiveLimits(w: World)
  {
    forall k | k in w.accounts :: w.accounts[k].limits.maxActiveJobs > 0 ==>
      w.accounts[k].usage.curActiveJobs <= w.accounts[k].limits.maxActiveJobs
  }

  lemma StartKeepsActive(w: World, id: nat)
    requires Owned(w) && id < |w.jobs| && WithinActiveLimits(w)
    ensures WithinActiveLimits(StartedOnly(w, id))
  {
  }

  lemma FinishKeepsActive(w: World, id: nat)
    requires Owned(w) && id < |w.jobs| && WithinActiveLimits(w)
    ensures WithinActiveLimits(FinishedOnly(w, id))
  {
  }

  lemma MoveKeepsActive(w: World, id: nat, to: Key)
    requires Owned(w) && id < |w.jobs| && WithinActiveLimits(w)
    ensures WithinActiveLimits(BankUpdated(w, id, to))
  {
  }

  lemma SameStaysWithin(w: World, w': World)
    requires WithinActiveLimits(w) && SameActive(w, w')
    ensures WithinActiveLimits(w')
  {
    forall k | k in w'.accounts && w'.accounts[k].limits.maxActiveJobs > 0
      ensures w'.accounts[k].usage.curActiveJobs <= w'.accounts[k].limits.maxActiveJobs
    {
      assert k in w.accounts && w'.accounts[k].limits == w.accounts[k].limits;
    }
  }

  lemma StepKeepsActiveLimits(w: World, e: Event)
    requires Owned(w) && Deliverable(w, e) && WithinActiveLimits(w) && !e.LoadAssociation?
    ensures WithinActiveLimits(Step(w, e))
  {
    match e
    case Start(id, fates) =>
      StartKeepsActive(w, id);
      ReleaseKeepsActive(StartedOnly(w, id), w.jobs[id].owner, fates);
      SameStaysWithin(StartedOnly(w, id), Step(w, e));
    case Finish(id, fates) =>
      FinishKeepsActive(w, id);
      if w.jobs[id].PriorityPosted() {
        ReleaseKeepsActive(FinishedOnly(w, id), w.jobs[id].owner, fates);
        SameStaysWithin(FinishedOnly(w, id), Step(w, e));
      }
    case Reprioritize(order, fates) =>
      RevisitKeepsActive(w, order, fates);
      SameStaysWithin(w, Step(w, e));
    case UpdateBank(id, to) => MoveKeepsActive(w, id, to);
    case _ =>
  }

  /** With fixed limits no association ever exceeds a positive limit on its
      active jobs, whatever is submitted, moved between banks or ended. */
  lemma {:induction false} ActiveLimitHolds(w: World, es: seq<Event>)
    requires Owned(w) && WithinActiveLimits(w) && Unfolds(w, es)
    requires forall i | 0 <= i < |es| :: !es[i].LoadAssociation?
    ensures WithinActiveLimits(End(w, es))
    decreases |es|
  {
    if |es| == 1 {
      StepKeepsActiveLimits(w, es[0]);
    } else if es != [] {
      StepKeepsActiveLimits(w, es[0]);
      assert forall i | 0 <= i < |es| - 1 :: es[1..][i] == es[i + 1];
      ActiveLimitHolds(Step(w, es[0]), es[1..]);
    }
  }

  /** The runs in which all counters stay exact are among these. */
  lemma {:induction false} PossibleUnfolds(full: bool, w: World, es: seq<Event>)
    requires CanHappen(full, w, es)
    ensures Unfolds(w, es) && End(w, es) == After(full, w, es)
    decreases |es|
  {
    if es != [] {
      PossibleUnfolds(full, Step(w, es[0]), es[1..]);
    }
  }
}
