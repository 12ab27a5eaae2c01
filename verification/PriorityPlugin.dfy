/// The priority plugin's callbacks, updating counters and held jobs in place.

module PriorityPlugin {
  import opened JobRecords
  import opened UsageLimits
  import opened ReleasePass
  import opened Ledger
  import opened PluginWorld
  import opened PluginInvariant

  class Association {
    const bankName: string
    var active: bool
    var queues: seq<string>
    var projects: seq<string>
    var limits: Limits
    var usage: Usage
    var heldJobs: seq<Job>

    constructor (bankName: string)
      ensures this.bankName == bankName && View() == NO_ACCOUNT
    {
      this.bankName := bankName;
      active, queues, projects, limits, usage, heldJobs := true, [], [], Limits(0, 0, 0, 0, 0), NO_USAGE, [];
    }

    function View(): Account
      reads this
    {
      Account(active, queues, projects, limits, usage, heldJobs)
    }

    /** Add a job's size to the running resources. */
    method IncrementResources(q: string, nnodes: nat, ncores: nat)
      modifies `usage
      ensures usage == old(usage.(curNodes := usage.curNodes + nnodes, curCores := usage.curCores + ncores,
                                  queueUsage := if q == "" then usage.queueUsage else
                                    usage.queueUsage[q := usage.In(q).(curNodes := usage.In(q).curNodes + nnodes)]))
    {
      usage := usage.(curNodes := usage.curNodes + nnodes);
      usage := usage.(curCores := usage.curCores + ncores);
      if q != "" {
        var u := usage.In(q);
        usage := usage.(queueUsage := usage.queueUsage[q := u.(curNodes := u.curNodes + nnodes)]);
      }
    }

    /** Take a job's size out of the running resources. */
    method DecrementResources(q: string, nnodes: nat, ncores: nat)
      modifies `usage
      ensures usage == old(usage.(curNodes := usage.curNodes - nnodes, curCores := usage.curCores - ncores,
                                  queueUsage := if q == "" then usage.queueUsage else
                                    usage.queueUsage[q := usage.In(q).(curNodes := usage.In(q).curNodes - nnodes)]))
    {
      usage := usage.(curNodes := usage.curNodes - nnodes);
      usage := usage.(curCores := usage.curCores - ncores);
      if q != "" {
        var u := usage.In(q);
        usage := usage.(queueUsage := usage.queueUsage[q := u.(curNodes := u.curNodes - nnodes)]);
      }
    }

    /** A job of this size has entered SCHED. */
    method CountSched(q: string, nnodes: nat, ncores: nat)
      modifies `usage
      ensures usage == old(usage).AddSched(q, nnodes, ncores)
    {
      usage := usage.(curSchedJobs := usage.curSchedJobs + 1);
      var u := usage.In(q);
      u := u.(curSchedJobs := u.curSchedJobs + 1);
      u := u.(curSchedNodes := u.curSchedNodes + nnodes);
      u := u.(curSchedCores := u.curSchedCores + ncores);
      usage := usage.(queueUsage := usage.queueUsage[q := u]);
    }

    /** It has left SCHED. */
    method UncountSched(q: string, nnodes: nat, ncores: nat)
      modifies `usage
      ensures usage == old(usage).DropSched(q, nnodes, ncores)
    {
      usage := usage.(curSchedJobs := usage.curSchedJobs - 1);
      var u := usage.In(q);
      u := u.(curSchedJobs := u.curSchedJobs - 1);
      u := u.(curSchedNodes := u.curSchedNodes - nnodes);
      u := u.(curSchedCores := u.curSchedCores - ncores);
      usage := usage.(queueUsage := usage.queueUsage[q := u]);
    }

    /** A job of this size runs. */
    method CountRun(q: string, nnodes: nat, ncores: nat)
      modifies `usage
      ensures usage == old(usage).AddRun(q, nnodes, ncores)
    {
      if q != "" {
        var u := usage.In(q);
        usage := usage.(queueUsage := usage.queueUsage[q := u.(curRunJobs := u.curRunJobs + 1)]);
      }
      usage := usage.(curRunJobs := usage.curRunJobs + 1);
      IncrementResources(q, nnodes, ncores);
      assert q != "" ==> usage.queueUsage == old(usage).AddRun(q, nnodes, ncores).queueUsage;
    }

    /** It has ended. */
    method UncountRun(q: string, nnodes: nat, ncores: nat)
      modifies `usage
      ensures usage == old(usage).DropRun(q, nnodes, ncores)
    {
      usage := usage.(curRunJobs := usage.curRunJobs - 1);
      DecrementResources(q, nnodes, ncores);
      if q != "" {
        var u := usage.In(q);
        if u.curRunJobs > 0 {
          usage := usage.(queueUsage := usage.queueUsage[q := u.(curRunJobs := u.curRunJobs - 1)]);
        }
      }
      assert q != "" ==> usage.queueUsage == old(usage).DropRun(q, nnodes, ncores).queueUsage;
    }
  }

  // ----- looking at one held job -----

  /** The first n dependencies to be checked. */
  ghost function FirstDeps(n: nat): set<Dep>
    requires n <= 8
  {
    set i | 0 <= i < n :: DEPS[i]
  }

  lemma FirstDepsNext(n: nat)
    requires n < 8
    ensures FirstDeps(n + 1) == FirstDeps(n) + {DEPS[n]} && DEPS[n] !in FirstDeps(n)
  {
  }

  lemma AllDepsChecked()
    ensures forall d: Dep :: d in FirstDeps(8)
  {
    forall d: Dep ensures d in FirstDeps(8) {
      var i := match d case QueueMRJ => 0 case QueueMSJ => 1 case QueueMSN => 2 case QueueMSC => 3
                       case QueueMRES => 4 case AssocMRJ => 5 case AssocMSJ => 6 case AssocMRES => 7;
      assert DEPS[i] == d;
    }
  }

  /** Those of a job's dependencies that are left when some have been checked. */
  ghost function Left(rules: Rules, u: Usage, p: Pending, job: Job, deps: seq<Dep>, checked: set<Dep>): seq<Dep>
  {
    if deps == [] then []
    else (if deps[0] in checked && Under(deps[0], u, rules.limits, rules.queues, p, job) then [] else [deps[0]])
         + Left(rules, u, p, job, deps[1..], checked)
  }

  lemma {:induction false} LeftAtFirst(rules: Rules, u: Usage, p: Pending, job: Job, deps: seq<Dep>)
    ensures Left(rules, u, p, job, deps, {}) == deps
  {
    if deps != [] {
      LeftAtFirst(rules, u, p, job, deps[1..]);
    }
  }

  lemma {:induction false} LeftInTheEnd(rules: Rules, u: Usage, p: Pending, job: Job, deps: seq<Dep>, checked: set<Dep>)
    requires forall d: Dep :: d in checked
    ensures Left(rules, u, p, job, deps, checked) == Kept(rules, u, p, job, deps)
  {
    if deps != [] {
      LeftInTheEnd(rules, u, p, job, deps[1..], checked);
    }
  }

  /** A dependency that has not been checked is left if it was there. */
  lemma {:induction false} UncheckedIsLeft(rules: Rules, u: Usage, p: Pending, job: Job, deps: seq<Dep>,
                                           checked: set<Dep>, d: Dep)
    requires d !in checked
    ensures d in Left(rules, u, p, job, deps, checked) <==> d in deps
  {
    if deps != [] {
      UncheckedIsLeft(rules, u, p, job, deps[1..], checked, d);
    }
  }

  /** Checking one more dependency drops it, or changes nothing. */
  lemma {:induction false} LeftNext(rules: Rules, u: Usage, p: Pending, job: Job, deps: seq<Dep>, checked: set<Dep>,
                                    d: Dep)
    requires d !in checked
    ensures Left(rules, u, p, job, deps, checked + {d})
         == if Under(d, u, rules.limits, rules.queues, p, job) then Without(Left(rules, u, p, job, deps, checked), d)
            else Left(rules, u, p, job, deps, checked)
  {
    if deps != [] {
      LeftNext(rules, u, p, job, deps[1..], checked, d);
      var rest := Left(rules, u, p, job, deps[1..], checked);
      WithoutCons(deps[0], rest, d);
      assert [] + rest == rest;
    }
  }

  lemma WithoutCons(x: Dep, deps: seq<Dep>, d: Dep)
    ensures Without([x] + deps, d) == (if x == d then [] else [x]) + Without(deps, d)
  {
    assert ([x] + deps)[1..] == deps;
  }

  lemma {:induction false} WithoutAbsent(deps: seq<Dep>, d: Dep)
    requires d !in deps
    ensures Without(deps, d) == deps
  {
    if deps != [] {
      WithoutAbsent(deps[1..], d);
    }
  }

  /** How a held job was found: the fixed rules, the counters and pending amounts
      then, the records and the held jobs with it at place i. */
  datatype Review = Review(rules: Rules, usage: Usage, pending: Pending, jobs: seq<Record>, held: seq<Job>, i: nat)
  {
    ghost predicate Valid(k: Key) {
      i < |held| && HeldRight(jobs, k, held[i])
    }

    /** The dependencies left after the first n checks. */
    ghost function LeftAfter(n: nat): seq<Dep>
      requires i < |held| && n <= 8
    {
      Left(rules, usage, pending, held[i], held[i].deps, FirstDeps(n))
    }

    /** Whether the check of d removes it. */
    ghost predicate Removes(d: Dep)
      requires i < |held|
    {
      d in held[i].deps && Under(d, usage, rules.limits, rules.queues, pending, held[i])
    }

    /** The next check. */
    lemma CheckedNext(n: nat)
      requires i < |held| && n < 8
      ensures DEPS[n] in LeftAfter(n) <==> DEPS[n] in held[i].deps
      ensures LeftAfter(n + 1) == if Removes(DEPS[n]) then Without(LeftAfter(n), DEPS[n]) else LeftAfter(n)
    {
      FirstDepsNext(n);
      UncheckedIsLeft(rules, usage, pending, held[i], held[i].deps, FirstDeps(n), DEPS[n]);
      LeftNext(rules, usage, pending, held[i], held[i].deps, FirstDeps(n), DEPS[n]);
      if DEPS[n] !in LeftAfter(n) {
        WithoutAbsent(LeftAfter(n), DEPS[n]);
      }
    }

    /** If nothing is left in the end, every dependency the job had was removed. */
    lemma AllRemoved()
      requires i < |held| && LeftAfter(8) == []
      ensures forall d :: Removes(d) == (d in held[i].deps)
    {
      Ends();
      forall d ensures Removes(d) == (d in held[i].deps) {
        assert d !in Kept(rules, usage, pending, held[i], held[i].deps);
      }
    }

    ghost function Verdict(): Round
      requires i < |held|
    {
      Visit(rules, Round(usage, pending, [], []), held[i])
    }

    /** If nothing is left, the job is released and its place closed up. */
    lemma Released(now: Job)
      requires i < |held| && LeftAfter(8) == [] && held[i].id < |jobs|
      ensures var inSched := rules.Fate(held[i].id) == Sched;
              && Verdict().kept == [] && Verdict().pending == Commit(pending, held[i], inSched)
              && Verdict().usage == (if inSched then usage.AddSched(held[i].queue, held[i].nnodes, held[i].ncores)
                                     else usage)
              && VisitMoves(rules, jobs, Round(usage, pending, [], []), held[i])
                 == jobs[held[i].id := jobs[held[i].id].(state := rules.Fate(held[i].id))]
      ensures held[i := now][..i] + held[i := now][i + 1..] == held[..i] + Verdict().kept + held[i + 1..]
    {
      Ends();
    }

    /** Otherwise it stays, with what is left. */
    lemma Stays()
      requires i < |held| && LeftAfter(8) != [] && held[i].id < |jobs|
      ensures Verdict().kept != [] && Verdict().pending == pending && Verdict().usage == usage
      ensures VisitMoves(rules, jobs, Round(usage, pending, [], []), held[i]) == jobs
      ensures held[i := held[i].(deps := LeftAfter(8))] == held[..i] + Verdict().kept + held[i + 1..]
    {
      Ends();
    }

    /** Before the first check and after the last. */
    lemma Ends()
      requires i < |held|
      ensures LeftAfter(0) == held[i].deps
      ensures LeftAfter(8) == Kept(rules, usage, pending, held[i], held[i].deps)
    {
      assert FirstDeps(0) == {};
      LeftAtFirst(rules, usage, pending, held[i], held[i].deps);
      AllDepsChecked();
      LeftInTheEnd(rules, usage, pending, held[i], held[i].deps, FirstDeps(8));
    }
  }

  /** The first i associations have been revisited. */
  ghost predicate Visiting(w: World, order: seq<Key>, fates: map<nat, State>, i: nat, now: World)
    requires i <= |order|
  {
    (forall j | 0 <= j < |order| :: order[j] in w.accounts) && now == Revisited(w, order[..i], fates)
  }

  lemma VisitingIsSound(full: bool, w: World, order: seq<Key>, fates: map<nat, State>, i: nat, now: World)
    requires Sound(full, w) && i < |order| && Visiting(w, order, fates, i, now)
    ensures Sound(full, now) && order[i] in now.accounts
  {
    RevisitIsSound(full, w, order[..i], fates);
  }

  lemma VisitingNext(w: World, order: seq<Key>, fates: map<nat, State>, i: nat)
    requires i < |order| && forall j | 0 <= j < |order| :: order[j] in w.accounts
    ensures Revisited(w, order[..i + 1], fates) == RevisitedOne(Revisited(w, order[..i], fates), order[i], fates)
  {
    assert order[..i + 1][..i] == order[..i];
  }

  lemma VisitingDone(w: World, order: seq<Key>, fates: map<nat, State>, now: World)
    requires Visiting(w, order, fates, |order|, now)
    ensures now == Revisited(w, order, fates)
  {
    assert order[..|order|] == order;
  }

  class Plugin {
    var users: map<Key, Association>
    var queues: map<string, Queue>
    var projects: seq<string>
    var denyUnknownQueues: bool
    var jobs: seq<Record>   // the workload manager's records; a job's id is its place

    constructor ()
      ensures users == map[] && queues == map[] && projects == [] && !denyUnknownQueues && jobs == []
    {
      users, queues, projects, denyUnknownQueues, jobs := map[], map[], [], false, [];
    }

    /** Each association has an entry of its own. */
    ghost predicate Valid()
      reads this
    {
      forall k, l | k in users && l in users && k != l :: users[k] != users[l]
    }

    ghost function World(): World
      reads this, users.Values
    {
      PluginWorld.World(map k | k in users :: users[k].View(), queues, projects, denyUnknownQueues, jobs)
    }

    ghost function RulesFor(b: Association, fates: map<nat, State>): Rules
      reads `queues, b`limits
    {
      Rules(b.limits, queues, fates)
    }

    /** A job enters SCHED. */
    method SchedCb(b: Association, id: nat)
      requires id < |jobs|
      modifies b`usage
      ensures b.usage == old(b.usage).AddSched(jobs[id].queue, jobs[id].nnodes, jobs[id].ncores)
    {
      b.CountSched(jobs[id].queue, jobs[id].nnodes, jobs[id].ncores);
    }

    /** The workload manager lets go of a dependency of a job.  With the last one
        gone it moves the job on, which may reach SCHED before this returns. */
    method DependencyRemove(b: Association, id: nat, last: bool, fates: map<nat, State>)
      requires id < |jobs|
      modifies `jobs, b`usage
      ensures !last ==> jobs == old(jobs) && b.usage == old(b.usage)
      ensures last ==> var r, s := old(jobs)[id], RulesFor(b, fates).Fate(id);
                jobs == old(jobs)[id := r.(state := s)]
                && b.usage == if s == Sched then old(b.usage).AddSched(r.queue, r.nnodes, r.ncores) else old(b.usage)
    {
      if last {
        var fate := Rules(b.limits, queues, fates).Fate(id);
        jobs := jobs[id := jobs[id].(state := fate)];
        if fate == Sched {
          SchedCb(b, id);
        }
      }
    }

    /** The state when these dependencies of the reviewed job are left. */
    ghost predicate HasLeft(v: Review, b: Association, left: seq<Dep>)
      requires v.i < |v.held| && v.held[v.i].id < |v.jobs|
      reads this, b
    {
      var job := v.held[v.i];
      && v.rules == Rules(b.limits, queues, v.rules.fates)
      && b.heldJobs == v.held[v.i := job.(deps := left)]
      && if left != [] then b.usage == v.usage && jobs == v.jobs
         else
           && jobs == v.jobs[job.id := v.jobs[job.id].(state := v.rules.Fate(job.id))]
           && b.usage == if v.rules.Fate(job.id) == Sched then v.usage.AddSched(job.queue, job.nnodes, job.ncores)
                         else v.usage
    }

    /** The state after the first n dependencies have been checked. */
    ghost predicate Reviewed(v: Review, b: Association, n: nat)
      requires v.i < |v.held| && v.held[v.i].id < |v.jobs| && n <= 8
      reads this, b
    {
      HasLeft(v, b, v.LeftAfter(n))
    }

    /** Let go of one of the dependencies that are left. */
    method RemoveDep(b: Association, i: nat, d: Dep, fates: map<nat, State>, ghost k: Key, ghost v: Review,
                     ghost left: seq<Dep>)
      requires v.Valid(k) && v.i == i && v.rules.fates == fates && HasLeft(v, b, left) && d in left
      modifies `jobs, b`usage, b`heldJobs
      ensures HasLeft(v, b, Without(left, d))
    {
      var relieved := b.heldJobs[i].RemoveDep(d);
      DependencyRemove(b, relieved.id, relieved.deps == [], fates);
      b.heldJobs := b.heldJobs[i := relieved];
    }

    /** If the limit behind d leaves room, the job is relieved of d. */
    method CheckDep(b: Association, i: nat, d: Dep, under: bool, fates: map<nat, State>, ghost k: Key,
                    ghost v: Review, ghost n: nat)
        returns (removed: bool)
      requires v.Valid(k) && v.i == i && v.rules.fates == fates && n < 8 && d == DEPS[n] && Reviewed(v, b, n)
      requires under == Under(d, b.usage, b.limits, queues, v.pending, v.held[i])
      modifies `jobs, b`usage, b`heldJobs
      ensures Reviewed(v, b, n + 1) && removed == v.Removes(d)
    {
      ghost var left := v.LeftAfter(n);
      v.CheckedNext(n);
      UnderThen(v, b, left, d);
      removed := under && b.heldJobs[i].ContainsDep(d);
      if removed {
        RemoveDep(b, i, d, fates, k, v, left);
      }
    }

    /** As long as something is left the counters are those the review began with. */
    lemma UnderThen(v: Review, b: Association, left: seq<Dep>, d: Dep)
      requires v.i < |v.held| && v.held[v.i].id < |v.jobs| && HasLeft(v, b, left)
               && (d in left <==> d in v.held[v.i].deps)
      ensures b.heldJobs[v.i].ContainsDep(d) && Under(d, b.usage, b.limits, queues, v.pending, v.held[v.i])
         <==> v.Removes(d)
    {
    }

    /** The pending amounts grow by what a released job adds to counters that do
        not show it yet. */
    method CommitReleased(pending: Pending, q: string, nnodes: nat, ncores: nat, inSched: bool,
                          queueRun: bool, queueSched: bool, queueSchedNodes: bool, queueSchedCores: bool,
                          assocRun: bool, assocSched: bool, ghost job: Job)
        returns (p: Pending)
      requires q == job.queue && nnodes == job.nnodes && ncores == job.ncores
      requires queueRun == (QueueMRJ in job.deps) && queueSched == (QueueMSJ in job.deps)
      requires queueSchedNodes == (QueueMSN in job.deps) && queueSchedCores == (QueueMSC in job.deps)
      requires assocRun == (AssocMRJ in job.deps) && assocSched == (AssocMSJ in job.deps)
      ensures p == Commit(pending, job, inSched)
    {
      p := pending;
      if !inSched {
        p := p.(assocSched := p.assocSched + One(assocSched));
        p := p.(queueSched := p.queueSched[q := At(p.queueSched, q) + One(queueSched)]);
        p := p.(queueSchedNodes := p.queueSchedNodes[q := At(p.queueSchedNodes, q) + One(queueSchedNodes) * nnodes]);
        p := p.(queueSchedCores := p.queueSchedCores[q := At(p.queueSchedCores, q) + One(queueSchedCores) * ncores]);
      }
      p := p.(assocRun := p.assocRun + One(assocRun));
      p := p.(queueRun := p.queueRun[q := At(p.queueRun, q) + One(queueRun)]);
    }

    /** Check every limit for one held job; the results tell which of its
        dependencies were removed. */
    method CheckDeps(b: Association, i: nat, pending: Pending, fates: map<nat, State>, ghost k: Key, ghost v: Review)
        returns (queueRun: bool, queueSched: bool, queueSchedNodes: bool, queueSchedCores: bool,
                 assocRun: bool, assocSched: bool)
      requires v.Valid(k) && v.i == i && v.rules.fates == fates && v.pending == pending && Reviewed(v, b, 0)
      modifies `jobs, b`usage, b`heldJobs
      ensures Reviewed(v, b, 8)
      ensures queueRun == v.Removes(QueueMRJ) && queueSched == v.Removes(QueueMSJ)
      ensures queueSchedNodes == v.Removes(QueueMSN) && queueSchedCores == v.Removes(QueueMSC)
      ensures assocRun == v.Removes(AssocMRJ) && assocSched == v.Removes(AssocMSJ)
    {
      queueRun, queueSched := CheckQueueJobs(b, i, pending, fates, k, v);
      queueSchedNodes, queueSchedCores := CheckQueueSizes(b, i, pending, fates, k, v);
      assocRun := CheckNodesAndRuns(b, i, pending, fates, k, v);
      assocSched := CheckSchedAndResources(b, i, pending, fates, k, v);
    }

    /** The running jobs and SCHED jobs of the job's queue. */
    method CheckQueueJobs(b: Association, i: nat, pending: Pending, fates: map<nat, State>, ghost k: Key,
                          ghost v: Review)
        returns (queueRun: bool, queueSched: bool)
      requires v.Valid(k) && v.i == i && v.rules.fates == fates && v.pending == pending && Reviewed(v, b, 0)
      modifies `jobs, b`usage, b`heldJobs
      ensures Reviewed(v, b, 2) && queueRun == v.Removes(QueueMRJ) && queueSched == v.Removes(QueueMSJ)
    {
      var q := b.heldJobs[i].queue;
      var under := b.usage.UnderQueueMaxRunJobs(queues, q, At(pending.queueRun, q));
      queueRun := CheckDep(b, i, QueueMRJ, under, fates, k, v, 0);
      under := b.usage.UnderQueueMaxSchedJobs(queues, q, At(pending.queueSched, q));
      queueSched := CheckDep(b, i, QueueMSJ, under, fates, k, v, 1);
    }

    /** The SCHED nodes and cores of the job's queue. */
    method CheckQueueSizes(b: Association, i: nat, pending: Pending, fates: map<nat, State>, ghost k: Key,
                           ghost v: Review)
        returns (queueSchedNodes: bool, queueSchedCores: bool)
      requires v.Valid(k) && v.i == i && v.rules.fates == fates && v.pending == pending && Reviewed(v, b, 2)
      modifies `jobs, b`usage, b`heldJobs
      ensures Reviewed(v, b, 4)
      ensures queueSchedNodes == v.Removes(QueueMSN) && queueSchedCores == v.Removes(QueueMSC)
    {
      var job := b.heldJobs[i];
      var under := b.usage.UnderQueueMaxSchedNodes(queues, job, At(pending.queueSchedNodes, job.queue));
      queueSchedNodes := CheckDep(b, i, QueueMSN, under, fates, k, v, 2);
      under := b.usage.UnderQueueMaxSchedCores(queues, job, At(pending.queueSchedCores, job.queue));
      queueSchedCores := CheckDep(b, i, QueueMSC, under, fates, k, v, 3);
    }

    /** The nodes of the job's queue and the running jobs of the association. */
    method CheckNodesAndRuns(b: Association, i: nat, pending: Pending, fates: map<nat, State>, ghost k: Key,
                             ghost v: Review)
        returns (assocRun: bool)
      requires v.Valid(k) && v.i == i && v.rules.fates == fates && v.pending == pending && Reviewed(v, b, 4)
      modifies `jobs, b`usage, b`heldJobs
      ensures Reviewed(v, b, 6) && assocRun == v.Removes(AssocMRJ)
    {
      var under := b.usage.UnderQueueMaxResources(queues, b.heldJobs[i]);
      var _ := CheckDep(b, i, QueueMRES, under, fates, k, v, 4);
      under := b.usage.UnderMaxRunJobs(b.limits, pending.assocRun);
      assocRun := CheckDep(b, i, AssocMRJ, under, fates, k, v, 5);
    }

    /** The SCHED jobs and resources of the association. */
    method CheckSchedAndResources(b: Association, i: nat, pending: Pending, fates: map<nat, State>, ghost k: Key,
                                  ghost v: Review)
        returns (assocSched: bool)
      requires v.Valid(k) && v.i == i && v.rules.fates == fates && v.pending == pending && Reviewed(v, b, 6)
      modifies `jobs, b`usage, b`heldJobs
      ensures Reviewed(v, b, 8) && assocSched == v.Removes(AssocMSJ)
    {
      var job := b.heldJobs[i];
      var under := b.usage.UnderMaxSchedJobs(b.limits, pending.assocSched);
      assocSched := CheckDep(b, i, AssocMSJ, under, fates, k, v, 6);
      under := b.usage.UnderMaxResources(b.limits, job);
      var _ := CheckDep(b, i, AssocMRES, under, fates, k, v, 7);
    }

    /** Look at held job i: it loses the dependencies whose limits leave room; if
        none is left it is erased, and what it will add is pending. */
    method ReviewHeldJob(b: Association, i: nat, pending: Pending, fates: map<nat, State>, ghost k: Key)
        returns (pending': Pending, gone: bool)
      requires i < |b.heldJobs| && HeldRight(jobs, k, b.heldJobs[i])
      modifies `jobs, b`usage, b`heldJobs
      ensures var rules, job, r := RulesFor(b, fates), old(b.heldJobs)[i], Round(old(b.usage), pending, [], []);
              var s := Visit(rules, r, job);
              && b.usage == s.usage && pending' == s.pending && jobs == VisitMoves(rules, old(jobs), r, job)
              && gone == (s.kept == [])
              && b.heldJobs == old(b.heldJobs)[..i] + s.kept + old(b.heldJobs)[i + 1..]
    {
      ghost var v := Review(RulesFor(b, fates), b.usage, pending, jobs, b.heldJobs, i);
      v.Ends();
      assert b.heldJobs == v.held[i := v.held[i].(deps := v.LeftAfter(0))];
      var job := b.heldJobs[i];
      var queueRun, queueSched, queueSchedNodes, queueSchedCores, assocRun, assocSched :=
        CheckDeps(b, i, pending, fates, k, v);
      gone := b.heldJobs[i].deps == [];
      if gone {
        v.AllRemoved();
        v.Released(b.heldJobs[i]);
        pending' := CommitReleased(pending, job.queue, job.nnodes, job.ncores, jobs[job.id].state == Sched,
                                   queueRun, queueSched, queueSchedNodes, queueSchedCores, assocRun, assocSched, job);
        b.heldJobs := b.heldJobs[..i] + b.heldJobs[i + 1..];
      } else {
        v.Stays();
        pending' := pending;
      }
    }

    /** Where a pass stands: r is the pass so far, i jobs are kept, the rest is
        still to be looked at, and the whole will come out as `end`. */
    ghost predicate Passing(b: Association, k: Key, rules: Rules, start: seq<Record>, r: Round, end: Round, i: nat)
      reads this, b
    {
      && i == |r.kept| <= |b.heldJobs| && b.heldJobs[..i] == r.kept
      && r.usage == b.usage && Pass(rules, r, b.heldJobs[i..]) == end
      && |jobs| == |start| && jobs == Moved(start, rules, r.released)
      && AllHeldRight(jobs, k, b.heldJobs)
    }

    /** One held job further. */
    static lemma PassGoesOn(rules: Rules, start: seq<Record>, k: Key, r: Round, held: seq<Job>, i: nat)
      requires i < |held| && held[..i] == r.kept && AllHeldRight(Moved(start, rules, r.released), k, held)
      requires HeldRight(Moved(start, rules, r.released), k, held[i])
      ensures var jobs, s, one := Moved(start, rules, r.released), Visit(rules, r, held[i]),
                                  Visit(rules, Round(r.usage, r.pending, [], []), held[i]);
              var now := held[..i] + one.kept + held[i + 1..];
              && now[..|s.kept|] == s.kept && now[|s.kept|..] == held[i..][1..]
              && s.usage == one.usage && s.pending == one.pending && |s.kept| == i + |one.kept|
              && Moved(start, rules, s.released) == VisitMoves(rules, jobs, Round(r.usage, r.pending, [], []), held[i])
              && AllHeldRight(Moved(start, rules, s.released), k, now)
    {
      var job, todo := held[i], held[i + 1..];
      var jobs := Moved(start, rules, r.released);
      assert held == r.kept + [job] + todo;
      VisitStaysHeld(rules, jobs, k, r, job, todo);
      MovedSnoc(start, rules, r.released, job);
      var one := Visit(rules, Round(r.usage, r.pending, [], []), job);
      assert Visit(rules, r, job).kept == r.kept + one.kept;
      assert held[i..][1..] == todo;
    }

    /** Go once through the held jobs, letting go of those the limits have room for. */
    method CheckAndReleaseHeldJobs(b: Association, fates: map<nat, State>, ghost k: Key)
      requires AllHeldRight(jobs, k, b.heldJobs)
      modifies `jobs, b`usage, b`heldJobs
      ensures var rules := RulesFor(b, fates);
              var end := Pass(rules, StartPass(old(b.usage)), old(b.heldJobs));
              b.usage == end.usage && b.heldJobs == end.kept && jobs == Moved(old(jobs), rules, end.released)
    {
      ghost var rules := RulesFor(b, fates);
      ghost var r, end := StartPass(b.usage), Pass(rules, StartPass(b.usage), b.heldJobs);
      var i, pending := 0, NOTHING_PENDING;
      assert b.heldJobs[0..] == b.heldJobs;
      while i < |b.heldJobs|
        invariant i <= |b.heldJobs| && Passing(b, k, rules, old(jobs), r, end, i)
        invariant pending == r.pending && RulesFor(b, fates) == rules
        decreases |b.heldJobs| - i
      {
        ghost var held := b.heldJobs;
        PassGoesOn(rules, old(jobs), k, r, held, i);
        r := Visit(rules, r, held[i]);
        var gone;
        pending, gone := ReviewHeldJob(b, i, pending, fates, k);
        if !gone {
          i := i + 1;
        }
      }
      assert b.heldJobs[i..] == [];
    }

    // ----- callbacks -----

    /** If only account k and the records have changed, that is what has become
        of the world. */
    twostate lemma OneChanged(k: Key)
      requires old(Valid()) && k in users && unchanged(`users, `queues, `projects, `denyUnknownQueues)
      requires forall l | l in users && l != k :: users[l].View() == old(users[l].View())
      requires users[k].View() == old(users[k].View()).(usage := users[k].usage, held := users[k].heldJobs)
      ensures Valid() && World() == old(World()).Put(k, users[k].usage, users[k].heldJobs).(jobs := jobs)
    {
    }

    method ReleaseFor(k: Key, b: Association, fates: map<nat, State>, ghost full: bool)
      requires Valid() && k in users && users[k] == b && Sound(full, World())
      modifies `jobs, b`usage, b`heldJobs
      ensures Valid() && World() == Released(old(World()), k, fates)
    {
      assert World().accounts[k] == b.View();
      ReleasedIsPass(World(), k, fates);
      CheckAndReleaseHeldJobs(b, fates, k);
      OneChanged(k);
    }

    /** Whether a submitted job is accepted. */
    method ValidateCb(k: Key, q: string, p: Project, nnodes: nat, ncores: nat) returns (accepted: bool)
      ensures accepted == Accepts(World(), k, q, p, nnodes, ncores)
    {
      if k !in users {
        return false;
      }
      var b := users[k];
      assert World().accounts[k] == b.View();
      if !b.active || (denyUnknownQueues && q != "" && q !in queues) || (q != "" && q in queues && q !in b.queues) {
        return false;
      }
      if p.Named? && (p.project !in projects || p.project !in b.projects) {
        return false;
      }
      if b.limits.maxActiveJobs > 0 && b.usage.curActiveJobs >= b.limits.maxActiveJobs {
        return false;
      }
      accepted := (q in queues ==> nnodes <= queues[q].maxNodesPerAssoc)
                  && nnodes <= b.limits.maxNodes && ncores <= b.limits.maxCores;
    }

    /** A new job is counted as active. */
    method AddJob(k: Key, r: Record)
      requires Valid() && k in users && k in World().accounts
      modifies `jobs, users.Values`usage
      ensures Valid() && k in old(World()).accounts
      ensures var a := old(World()).accounts[k];
              World() == old(World()).Put(k, a.usage.AddActive(), a.held).(jobs := old(jobs) + [r])
    {
      var b := users[k];
      assert World().accounts[k] == b.View();
      b.usage := b.usage.(curActiveJobs := b.usage.curActiveJobs + 1);
      jobs := jobs + [r];
      OneChanged(k);
    }

    /** A job is submitted: validated, and counted as active if accepted. */
    method Submit(k: Key, q: string, p: Project, nnodes: nat, ncores: nat) returns (accepted: bool)
      requires Valid()
      modifies `jobs, users.Values`usage
      ensures Valid() && accepted == Accepts(old(World()), k, q, p, nnodes, ncores)
      ensures World() == Submitted(old(World()), k, q, p, nnodes, ncores)
    {
      accepted := ValidateCb(k, q, p, nnodes, ncores);
      if accepted {
        AddJob(k, Record(k, q, nnodes, ncores, New));
      }
    }

    /** The dependencies a new job gets from the first n checks. */
    ghost function DepsFrom(b: Association, job: Job, n: nat): seq<Dep>
      requires n <= 8
      reads `queues, b
    {
      Kept(Rules(b.limits, queues, map[]), b.usage, NOTHING_PENDING, job, DEPS[..n])
    }

    /** Add a dependency unless its limit leaves room. */
    method AddIfOver(deps: seq<Dep>, d: Dep, under: bool, ghost b: Association, ghost job: Job, ghost n: nat)
        returns (deps': seq<Dep>)
      requires n < 8 && d == DEPS[n] && under == Under(d, b.usage, b.limits, queues, NOTHING_PENDING, job)
      requires deps == DepsFrom(b, job, n)
      ensures deps' == DepsFrom(b, job, n + 1)
    {
      KeptConcat(Rules(b.limits, queues, map[]), b.usage, NOTHING_PENDING, job, DEPS[..n], [d]);
      KeptOne(Rules(b.limits, queues, map[]), b.usage, job, d);
      assert DEPS[..n + 1] == DEPS[..n] + [d];
      deps' := if under then deps else deps + [d];
    }

    static lemma KeptOne(rules: Rules, u: Usage, job: Job, d: Dep)
      ensures Kept(rules, u, NOTHING_PENDING, job, [d])
           == if Under(d, u, rules.limits, rules.queues, NOTHING_PENDING, job) then [] else [d]
    {
      assert [d][1..] == [];
    }

    lemma NoDepsYet(b: Association, job: Job)
      ensures DepsFrom(b, job, 0) == []
    {
      assert DEPS[..0] == [];
    }

    lemma DepsFromAll(b: Association, job: Job)
      ensures DepsFrom(b, job, 8) == Kept(Rules(b.limits, queues, map[]), b.usage, NOTHING_PENDING, job, DEPS)
    {
      assert DEPS[..8] == DEPS;
    }

    method DepsOf(b: Association, job: Job) returns (deps: seq<Dep>)
      ensures deps == Kept(Rules(b.limits, queues, map[]), b.usage, NOTHING_PENDING, job, DEPS)
    {
      DepsFromAll(b, job);
      deps := QueueJobDepsOf(b, job);
      deps := QueueSizeDepsOf(b, job, deps);
      deps := AssocDepsOf(b, job, deps);
    }

    method QueueJobDepsOf(b: Association, job: Job) returns (deps: seq<Dep>)
      ensures deps == DepsFrom(b, job, 2)
    {
      NoDepsYet(b, job);
      deps := AddIfOver([], QueueMRJ, b.usage.UnderQueueMaxRunJobs(queues, job.queue, 0), b, job, 0);
      deps := AddIfOver(deps, QueueMSJ, b.usage.UnderQueueMaxSchedJobs(queues, job.queue, 0), b, job, 1);
    }

    method QueueSizeDepsOf(b: Association, job: Job, sofar: seq<Dep>) returns (deps: seq<Dep>)
      requires sofar == DepsFrom(b, job, 2)
      ensures deps == DepsFrom(b, job, 5)
    {
      deps := AddIfOver(sofar, QueueMSN, b.usage.UnderQueueMaxSchedNodes(queues, job, 0), b, job, 2);
      deps := AddIfOver(deps, QueueMSC, b.usage.UnderQueueMaxSchedCores(queues, job, 0), b, job, 3);
      deps := AddIfOver(deps, QueueMRES, b.usage.UnderQueueMaxResources(queues, job), b, job, 4);
    }

    method AssocDepsOf(b: Association, job: Job, sofar: seq<Dep>) returns (deps: seq<Dep>)
      requires sofar == DepsFrom(b, job, 5)
      ensures deps == DepsFrom(b, job, 8)
    {
      deps := AddIfOver(sofar, AssocMRJ, b.usage.UnderMaxRunJobs(b.limits, 0), b, job, 5);
      deps := AddIfOver(deps, AssocMSJ, b.usage.UnderMaxSchedJobs(b.limits, 0), b, job, 6);
      deps := AddIfOver(deps, AssocMRES, b.usage.UnderMaxResources(b.limits, job), b, job, 7);
    }

    /** A job enters DEPEND: it is held if some limit leaves no room for it. */
    method DependCb(id: nat)
      requires Valid() && id < |jobs| && jobs[id].owner in users
      modifies `jobs, users.Values`heldJobs
      ensures Valid() && World() == Depended(old(World()), id)
    {
      var b := users[jobs[id].owner];
      assert World().accounts[jobs[id].owner] == b.View();
      var job := Job(id, [], jobs[id].nnodes, jobs[id].ncores, jobs[id].queue);
      var deps := DepsOf(b, job);
      if deps != [] {
        b.heldJobs := b.heldJobs + [job.(deps := deps)];
      }
      jobs := jobs[id := jobs[id].(state := Depend)];
      OneChanged(jobs[id].owner);
    }

    /** A scheduled job runs. */
    method RunCb(id: nat, fates: map<nat, State>, ghost full: bool)
      requires Valid() && Sound(full, World()) && id < |jobs| && jobs[id].state == Sched && jobs[id].owner in users
      modifies `jobs, users.Values`usage, users.Values`heldJobs
      ensures Valid() && World() == Started(old(World()), id, fates)
    {
      var r := jobs[id];
      var b := users[r.owner];
      assert World().accounts[r.owner] == b.View();
      MoveToRun(b, id);
      OneChanged(r.owner);
      StartIsSound(full, old(World()), id);
      ReleaseFor(r.owner, b, fates, full);
    }

    method MoveToRun(b: Association, id: nat)
      requires id < |jobs|
      modifies `jobs, b`usage
      ensures var r := old(jobs)[id];
              b.usage == old(b.usage).AddRun(r.queue, r.nnodes, r.ncores).DropSched(r.queue, r.nnodes, r.ncores)
              && jobs == old(jobs)[id := r.(state := Run)]
    {
      var r := jobs[id];
      jobs := jobs[id := r.(state := Run)];
      b.CountRun(r.queue, r.nnodes, r.ncores);
      b.UncountSched(r.queue, r.nnodes, r.ncores);
    }

    /** A job becomes inactive. */
    method InactiveCb(id: nat, fates: map<nat, State>, ghost full: bool)
      requires Valid() && Sound(full, World()) && id < |jobs| && jobs[id].state != Inactive && jobs[id].owner in users
      modifies `jobs, users.Values`usage, users.Values`heldJobs
      ensures Valid() && World() == Finished(old(World()), id, fates)
    {
      var r := jobs[id];
      var b := users[r.owner];
      assert World().accounts[r.owner] == b.View();
      MoveToInactive(b, id);
      OneChanged(r.owner);
      FinishIsSound(full, old(World()), id);
      if r.PriorityPosted() {
        ReleaseFor(r.owner, b, fates, full);
      }
    }

    method MoveToInactive(b: Association, id: nat)
      requires id < |jobs|
      modifies `jobs, b`usage, b`heldJobs
      ensures jobs == old(jobs)[id := old(jobs)[id].(state := Inactive)]
      ensures var r, u := old(jobs)[id], old(b.usage).DropActive();
              && b.usage == (if r.AllocPosted() then u.DropRun(r.queue, r.nnodes, r.ncores)
                             else if r.PriorityPosted() then u.DropSched(r.queue, r.nnodes, r.ncores) else u)
              && b.heldJobs == if r.AllocPosted() then old(b.heldJobs) else NotHeld(old(b.heldJobs), id)
    {
      var r := jobs[id];
      jobs := jobs[id := r.(state := Inactive)];
      b.usage := b.usage.(curActiveJobs := b.usage.curActiveJobs - 1);
      if !r.AllocPosted() {
        b.heldJobs := NotHeld(b.heldJobs, id);
        if r.PriorityPosted() {
          b.UncountSched(r.queue, r.nnodes, r.ncores);
        }
      } else {
        b.UncountRun(r.queue, r.nnodes, r.ncores);
      }
    }

    /** One association of that round. */
    method ReprioritizeOne(k: Key, fates: map<nat, State>, ghost full: bool)
      requires Valid() && Sound(full, World()) && k in World().accounts
      modifies `jobs, users.Values`usage, users.Values`heldJobs
      ensures Valid() && World() == RevisitedOne(old(World()), k, fates)
    {
      var b := users[k];
      assert World().accounts[k] == b.View();
      if b.heldJobs != [] {
        ReleaseFor(k, b, fates, full);
      }
    }

    /** Limits may have changed: go through the held jobs of every association
        that has any. */
    method RepriorCb(order: seq<Key>, fates: map<nat, State>, ghost full: bool)
      requires Valid() && Sound(full, World()) && EachOnce(World(), order)
      modifies `jobs, users.Values`usage, users.Values`heldJobs
      ensures Valid() && World() == Revisited(old(World()), order, fates)
    {
      ghost var w := World();
      for i := 0 to |order|
        invariant Valid() && Visiting(w, order, fates, i, World())
      {
        VisitingIsSound(full, w, order, fates, i, World());
        ReprioritizeOne(order[i], fates, full);
        VisitingNext(w, order, fates, i);
      }
      VisitingDone(w, order, fates, World());
    }

    /** A job leaves DEPEND for PRIORITY. */
    method EnterPriority(id: nat)
      requires Valid() && id < |jobs|
      modifies `jobs
      ensures Valid() && World() == old(World()).SetState(id, Priority)
    {
      jobs := jobs[id := jobs[id].(state := Priority)];
    }

    /** A job leaves PRIORITY for SCHED. */
    method EnterSched(id: nat)
      requires Valid() && id < |jobs| && jobs[id].owner in users
      modifies `jobs, users.Values`usage
      ensures Valid() && World() == Scheduled(old(World()), id)
    {
      var b := users[jobs[id].owner];
      assert World().accounts[jobs[id].owner] == b.View();
      SchedCb(b, id);
      jobs := jobs[id := jobs[id].(state := Sched)];
      OneChanged(jobs[id].owner);
    }

    /** If only account k has changed, or is new, that is what has become of the world. */
    twostate lemma AccountSet(k: Key)
      requires unchanged(`queues, `projects, `denyUnknownQueues, `jobs)
      requires k in users && users.Keys == old(users.Keys) + {k}
      requires forall l | l in old(users) && l != k ::
                 users[l] == old(users[l]) && users[l].View() == old(users[l].View())
      ensures World() == old(World()).(accounts := old(World()).accounts[k := users[k].View()])
    {
    }

    /** The entry of an association, new if there was none. */
    method EntryOf(k: Key) returns (a: Association)
      requires Valid()
      modifies `users
      ensures Valid() && k in users && users[k] == a && (a in old(users.Values) || fresh(a))
      ensures users.Keys == old(users.Keys) + {k} && fresh(users.Values - old(users.Values))
      ensures forall l | l in old(users) :: users[l] == old(users[l])
      ensures k !in old(users) ==> a.View() == NO_ACCOUNT
    {
      if k !in users {
        var entry := new Association(k.bank);
        users := users[k := entry];
      }
      a := users[k];
    }

    /** New data about an association: its limits change, its counters stay. */
    method LoadAssociation(k: Key, active: bool, queues: seq<string>, projects: seq<string>, limits: Limits)
      requires Valid()
      modifies `users, users.Values`active, users.Values`queues, users.Values`projects, users.Values`limits
      ensures Valid() && World() == Loaded(old(World()), k, active, queues, projects, limits)
      ensures fresh(users.Values - old(users.Values))
    {
      ghost var was := if k in users then users[k].View() else NO_ACCOUNT;
      assert k in users ==> World().accounts[k] == was;
      var a := EntryOf(k);
      assert a.View() == was;
      a.active, a.queues, a.projects, a.limits := active, queues, projects, limits;
      AccountSet(k);
    }

    /** New data about the queues replaces all the plugin knew of them. */
    method LoadQueues(known: map<string, Queue>)
      requires Valid()
      modifies `queues
      ensures Valid() && World() == old(World()).(queues := known)
    {
      queues := known;
    }

    /** The projects there are. */
    method LoadProjects(known: seq<string>)
      requires Valid()
      modifies `projects
      ensures Valid() && World() == old(World()).(projects := known)
    {
      projects := known;
    }

    method Configure(deny: bool)
      requires Valid()
      modifies `denyUnknownQueues
      ensures Valid() && World() == old(World()).(denyUnknownQueues := deny)
    {
      denyUnknownQueues := deny;
    }

    /** One less active job of an association. */
    method DropActiveOf(k: Key)
      requires Valid() && k in users
      modifies users.Values`usage
      ensures Valid() && k in old(World()).accounts
      ensures World() == old(World()).Put(k, old(World()).accounts[k].usage.DropActive(), old(World()).accounts[k].held)
    {
      var a := users[k];
      assert World().accounts[k] == a.View();
      a.usage := a.usage.(curActiveJobs := a.usage.curActiveJobs - 1);
      OneChanged(k);
    }

    /** One more. */
    method AddActiveOf(k: Key)
      requires Valid() && k in users
      modifies users.Values`usage
      ensures Valid() && k in old(World()).accounts
      ensures World() == old(World()).Put(k, old(World()).accounts[k].usage.AddActive(), old(World()).accounts[k].held)
    {
      var a := users[k];
      assert World().accounts[k] == a.View();
      a.usage := a.usage.(curActiveJobs := a.usage.curActiveJobs + 1);
      OneChanged(k);
    }

    /** Whether a bank of the user takes another job. */
    method TakesJob(to: Key) returns (ok: bool)
      requires Valid()
      ensures ok == AcceptsMove(World(), to)
    {
      if to !in users {
        return false;
      }
      var a := users[to];
      assert World().accounts[to] == a.View();
      if a.limits.maxActiveJobs > 0 && a.usage.curActiveJobs >= a.limits.maxActiveJobs {
        return false;
      }
      if a.limits.maxRunJobs > 0 && a.usage.curRunJobs == a.limits.maxRunJobs {
        return false;
      }
      ok := true;
    }

    /** A job is moved to another bank of its user, unless that bank is at a limit. */
    method UpdateBank(id: nat, to: Key)
      requires Valid() && id < |jobs| && jobs[id].owner in users
      modifies `jobs, users.Values`usage
      ensures Valid() && World() == BankUpdated(old(World()), id, to)
    {
      var ok := TakesJob(to);
      var from := jobs[id].owner;
      if ok && from != to {
        DropActiveOf(from);
        AddActiveOf(to);
        SetOwner(id, to);
      }
    }

    method SetOwner(id: nat, to: Key)
      requires id < |jobs|
      modifies `jobs
      ensures World() == old(World()).(jobs := old(jobs)[id := old(jobs)[id].(owner := to)])
    {
      jobs := jobs[id := jobs[id].(owner := to)];
    }

    /** Handle one event of the workload manager or of the accounting service. */
    method Handle(e: Event, ghost full: bool)
      requires Valid() && Sound(full, World()) && Possible(full, World(), e)
      modifies this, users.Values
      ensures Valid() && World() == Step(old(World()), e)
      ensures fresh(users.Values - old(users.Values))
    {
      if e.LoadAssociation? || e.LoadQueues? || e.LoadProjects? || e.Configure? {
        HandleUpdate(e);
      } else if e.Start? || e.Finish? || e.Reprioritize? {
        HandleRelease(e, full);
      } else {
        HandleMove(e);
      }
    }

    /** A job or a request after which held jobs are looked at. */
    method HandleRelease(e: Event, ghost full: bool)
      requires Valid() && Sound(full, World()) && Deliverable(World(), e) && (e.Start? || e.Finish? || e.Reprioritize?)
      modifies `jobs, users.Values`usage, users.Values`heldJobs
      ensures Valid() && World() == Step(old(World()), e)
    {
      match e
      case Start(id, fates) => RunCb(id, fates, full);
      case Finish(id, fates) => InactiveCb(id, fates, full);
      case Reprioritize(order, fates) => RepriorCb(order, fates, full);
    }

    /** A job that is submitted, goes on or is moved. */
    method HandleMove(e: Event)
      requires Valid() && Owned(World()) && Deliverable(World(), e)
      requires e.Submit? || e.EnterDepend? || e.EnterPriority? || e.EnterSched? || e.UpdateBank?
      modifies `jobs, users.Values`usage, users.Values`heldJobs
      ensures Valid() && World() == Step(old(World()), e)
    {
      match e
      case Submit(k, q, p, nnodes, ncores) => var _ := Submit(k, q, p, nnodes, ncores);
      case EnterDepend(id) => DependCb(id);
      case EnterPriority(id) => EnterPriority(id);
      case EnterSched(id) => EnterSched(id);
      case UpdateBank(id, to) => UpdateBank(id, to);
    }

    /** New data from the accounting service. */
    method HandleUpdate(e: Event)
      requires Valid() && Owned(World()) && Deliverable(World(), e)
      requires e.LoadAssociation? || e.LoadQueues? || e.LoadProjects? || e.Configure?
      modifies this, users.Values
      ensures Valid() && World() == Step(old(World()), e)
      ensures fresh(users.Values - old(users.Values))
    {
      match e
      case LoadAssociation(k, active, queues, projects, limits) =>
        LoadAssociation(k, active, queues, projects, limits);
      case LoadQueues(known) => LoadQueues(known);
      case LoadProjects(known) => LoadProjects(known);
      case Configure(deny) => Configure(deny);
    }
  }
}
