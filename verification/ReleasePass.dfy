/// One pass over an association's held jobs, as a function of the counters,
/// the limits and what the workload manager does with released jobs.

module ReleasePass {
  import opened JobRecords
  import opened UsageLimits

  /** What stays fixed during a pass.  When its last dependency goes, a job is
      left in DEPEND, PRIORITY or SCHED; `fates` says which. */
  datatype Rules = Rules(limits: Limits, queues: map<string, Queue>, fates: map<nat, State>)
  {
    function Fate(id: nat): (s: State)
      ensures s in {Depend, Priority, Sched}
    {
      if id in fates && fates[id] in {Priority, Sched} then fates[id] else Depend
    }
  }

  /** The state of a pass: counters, pending amounts, jobs kept and jobs
      released (with the dependencies they carried when the pass reached them). */
  datatype Round = Round(usage: Usage, pending: Pending, kept: seq<Job>, released: seq<Job>)

  /** The dependencies that still hold a job back. */
  function Kept(rules: Rules, u: Usage, p: Pending, job: Job, deps: seq<Dep>): (left: seq<Dep>)
    ensures forall d :: d in left <==> d in deps && !Under(d, u, rules.limits, rules.queues, p, job)
  {
    if deps == [] then []
    else (if Under(deps[0], u, rules.limits, rules.queues, p, job) then [] else [deps[0]])
         + Kept(rules, u, p, job, deps[1..])
  }

  lemma {:induction false} KeptConcat(rules: Rules, u: Usage, p: Pending, job: Job, deps: seq<Dep>, more: seq<Dep>)
    ensures Kept(rules, u, p, job, deps + more) == Kept(rules, u, p, job, deps) + Kept(rules, u, p, job, more)
  {
    if deps == [] {
      assert deps + more == more;
    } else {
      assert (deps + more)[1..] == deps[1..] + more;
      KeptConcat(rules, u, p, job, deps[1..], more);
    }
  }

  function One(b: bool): int { if b then 1 else 0 }

  /** Pending amounts once a job is released: run counts always, SCHED amounts
      only if the SCHED counters do not show the job already. */
  function Commit(p: Pending, job: Job, inSched: bool): Pending
  {
    var q := job.queue;
    var p := p.(assocRun := p.assocRun + One(AssocMRJ in job.deps),
                queueRun := p.queueRun[q := At(p.queueRun, q) + One(QueueMRJ in job.deps)]);
    if inSched then p
    else p.(assocSched := p.assocSched + One(AssocMSJ in job.deps),
            queueSched := p.queueSched[q := At(p.queueSched, q) + One(QueueMSJ in job.deps)],
            queueSchedNodes := p.queueSchedNodes[
              q := At(p.queueSchedNodes, q) + One(QueueMSN in job.deps) * job.nnodes],
            queueSchedCores := p.queueSchedCores[
              q := At(p.queueSchedCores, q) + One(QueueMSC in job.deps) * job.ncores])
  }

  /** One held job is looked at. */
  function Visit(rules: Rules, r: Round, job: Job): Round
  {
    var left := Kept(rules, r.usage, r.pending, job, job.deps);
    if left != [] then r.(kept := r.kept + [job.(deps := left)])
    else
      var inSched := rules.Fate(job.id) == Sched;
      Round(if inSched then r.usage.AddSched(job.queue, job.nnodes, job.ncores) else r.usage,
            Commit(r.pending, job, inSched), r.kept, r.released + [job])
  }

  /** The rest of the pass. */
  function Pass(rules: Rules, r: Round, todo: seq<Job>): Round
    decreases |todo|
  {
    if todo == [] then r else Pass(rules, Visit(rules, r, todo[0]), todo[1..])
  }

  function StartPass(u: Usage): Round
  {
    Round(u, NOTHING_PENDING, [], [])
  }

  lemma {:induction false} PassSnoc(rules: Rules, r: Round, todo: seq<Job>, job: Job)
    ensures Pass(rules, r, todo + [job]) == Visit(rules, Pass(rules, r, todo), job)
    decreases |todo|
  {
    if todo == [] {
      assert Pass(rules, Visit(rules, r, job), []) == Visit(rules, r, job);
      assert [job][1..] == [];
      assert [] + [job] == [job];
    } else {
      assert (todo + [job])[1..] == todo[1..] + [job];
      PassSnoc(rules, Visit(rules, r, todo[0]), todo[1..], job);
    }
  }

  // ----- who is kept and who is released -----

  /** The jobs are those kept and those released, in order; a kept job may have
      lost dependencies but not all, a released one has none left. */
  ghost predicate SortedInto(todo: seq<Job>, kept: seq<Job>, released: seq<Job>)
  {
    if todo == [] then kept == [] && released == []
    else
      || (kept != [] && Thinner(todo[0], kept[0]) && SortedInto(todo[1..], kept[1..], released))
      || (released != [] && released[0] == todo[0] && SortedInto(todo[1..], kept, released[1..]))
  }

  /** The same job with fewer, but some, dependencies. */
  ghost predicate Thinner(job: Job, less: Job)
  {
    && less == job.(deps := less.deps)
    && less.deps != [] && forall d | d in less.deps :: d in job.deps
  }

  lemma VisitParts(rules: Rules, r: Round, job: Job)
    ensures var s, s0 := Visit(rules, r, job), Visit(rules, r.(kept := [], released := []), job);
            && s.kept == r.kept + s0.kept && s.released == r.released + s0.released
            && s.(kept := [], released := []) == s0.(kept := [], released := [])
  {
  }

  lemma Regroup<T>(a: seq<T>, b: seq<T>, c: seq<T>)
    ensures (a + b) + c == a + (b + c)
  {
  }

  /** A pass only ever appends to both lists. */
  lemma {:induction false} PassParts(rules: Rules, r: Round, todo: seq<Job>)
    ensures Pass(rules, r, todo).kept == r.kept + Pass(rules, r.(kept := [], released := []), todo).kept
    ensures Pass(rules, r, todo).released == r.released + Pass(rules, r.(kept := [], released := []), todo).released
    decreases |todo|
  {
    if todo != [] {
      var s, s0 := Visit(rules, r, todo[0]), Visit(rules, r.(kept := [], released := []), todo[0]);
      VisitParts(rules, r, todo[0]);
      PassParts(rules, s, todo[1..]);
      PassParts(rules, s0, todo[1..]);
      var rest := Pass(rules, s0.(kept := [], released := []), todo[1..]);
      Regroup(r.kept, s0.kept, rest.kept);
      Regroup(r.released, s0.released, rest.released);
    }
  }

  /** One pass keeps the order of the held jobs, drops exactly the jobs it
      releases, and only shrinks dependency lists. */
  lemma {:induction false} PassSorts(rules: Rules, r: Round, todo: seq<Job>)
    requires r.kept == [] && r.released == []
    ensures SortedInto(todo, Pass(rules, r, todo).kept, Pass(rules, r, todo).released)
    decreases |todo|
  {
    if todo != [] {
      var s := Visit(rules, r, todo[0]);
      var rest := Pass(rules, s.(kept := [], released := []), todo[1..]);
      PassParts(rules, s, todo[1..]);
      PassSorts(rules, s.(kept := [], released := []), todo[1..]);
      var end := Pass(rules, r, todo);
      if s.kept != [] {
        assert end.kept[1..] == rest.kept && end.released == rest.released;
      } else {
        assert end.released[1..] == rest.released && end.kept == rest.kept;
      }
    }
  }
}
