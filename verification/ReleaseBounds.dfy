/// What one release pass guarantees: it never lets more in than the limits
/// allow, and it leaves nobody behind for whom there still is room.

module ReleaseBounds {
  import opened JobRecords
  import opened UsageLimits
  import opened ReleasePass

  /** Dependencies of the whole association, not of one queue. */
  predicate AssocWide(d: Dep) { d in {AssocMRJ, AssocMSJ, AssocMRES} }

  /** Dependencies whose limit is one number against which releases are counted. */
  predicate Counted(d: Dep) { d in {QueueMRJ, QueueMSJ, QueueMSN, QueueMSC, AssocMRJ, AssocMSJ} }

  /** Whether d limits jobs of queue q at all: for a queue the plugin does not
      know, only its running jobs are limited. */
  predicate Limited(d: Dep, queues: map<string, Queue>, q: string)
  {
    AssocWide(d) || d == QueueMRJ || q in queues
  }

  /** The limit behind d, as the largest level it allows. */
  function Limit(d: Dep, rules: Rules, q: string): int
    requires Limited(d, rules.queues, q)
  {
    match d
    case QueueMRJ => if q in rules.queues then rules.queues[q].maxRunningJobs else MAX_INT
    case QueueMSJ => rules.queues[q].maxSchedJobs
    case QueueMSN => rules.queues[q].maxSchedNodesPerAssoc
    case QueueMSC => rules.queues[q].maxSchedCoresPerAssoc
    case QueueMRES => rules.queues[q].maxNodesPerAssoc
    case AssocMRJ => rules.limits.maxRunJobs
    case AssocMSJ => rules.limits.maxSchedJobs
    case AssocMRES => rules.limits.maxNodes
  }

  /** How much of the limit behind d is taken, counting pending releases. */
  function Level(d: Dep, u: Usage, p: Pending, q: string): int
  {
    match d
    case QueueMRJ => u.In(q).curRunJobs + At(p.queueRun, q)
    case QueueMSJ => u.In(q).curSchedJobs + At(p.queueSched, q)
    case QueueMSN => u.In(q).curSchedNodes + At(p.queueSchedNodes, q)
    case QueueMSC => u.In(q).curSchedCores + At(p.queueSchedCores, q)
    case QueueMRES => u.In(q).curNodes + u.In(q).curSchedNodes
    case AssocMRJ => u.curRunJobs + p.assocRun
    case AssocMSJ => u.curSchedJobs + p.assocSched
    case AssocMRES => u.curNodes
  }

  /** What a job takes of the limit behind d. */
  function Weight(d: Dep, job: Job): nat
  {
    match d
    case QueueMSN | QueueMRES | AssocMRES => job.nnodes
    case QueueMSC => job.ncores
    case _ => 1
  }

  /** There is room for a job exactly if its weight fits on top of the level. */
  lemma UnderIsRoom(d: Dep, rules: Rules, u: Usage, p: Pending, job: Job)
    requires d != AssocMRES && Limited(d, rules.queues, job.queue)
    ensures Under(d, u, rules.limits, rules.queues, p, job)
       <==> Level(d, u, p, job.queue) + Weight(d, job) <= Limit(d, rules, job.queue)
  {
  }

  /** Whether a released job counts against the limit behind d in queue q. */
  predicate Counts(job: Job, d: Dep, q: string)
  {
    d in job.deps && (AssocWide(d) || job.queue == q)
  }

  /** What released jobs that had been held by d take of its limit. */
  function Carried(released: seq<Job>, d: Dep, q: string): nat
  {
    if released == [] then 0
    else
      var last := released[|released| - 1];
      Carried(released[..|released| - 1], d, q) + if Counts(last, d, q) then Weight(d, last) else 0
  }

  lemma CarriedSnoc(released: seq<Job>, job: Job, d: Dep, q: string)
    ensures Carried(released + [job], d, q) == Carried(released, d, q) + if Counts(job, d, q) then Weight(d, job) else 0
  {
    assert (released + [job])[..|released|] == released;
  }

  /** A release raises the level of every limit its job counts against, by the
      job's weight; no level ever drops. */
  lemma VisitRaises(rules: Rules, r: Round, job: Job, d: Dep, q: string)
    requires Counted(d)
    ensures var s := Visit(rules, r, job);
            var rise := Level(d, s.usage, s.pending, q) - Level(d, r.usage, r.pending, q);
            0 <= rise && (|s.released| > |r.released| && Counts(job, d, q) ==> Weight(d, job) <= rise)
  {
    var left := Kept(rules, r.usage, r.pending, job, job.deps);
    if left == [] {
      match d
      case QueueMRJ =>
      case QueueMSJ =>
      case QueueMSN =>
      case QueueMSC =>
      case AssocMRJ =>
      case AssocMSJ =>
    }
  }

  /** The level accounts for every release of the pass so far. */
  lemma {:induction false} LevelCovers(rules: Rules, u: Usage, held: seq<Job>, d: Dep, q: string)
    requires Counted(d)
    ensures var r := Pass(rules, StartPass(u), held);
            Level(d, r.usage, r.pending, q) >= Level(d, u, NOTHING_PENDING, q) + Carried(r.released, d, q)
    decreases |held|
  {
    if held != [] {
      var init, job := held[..|held| - 1], held[|held| - 1];
      LevelCovers(rules, u, init, d, q);
      assert held == init + [job];
      PassSnoc(rules, StartPass(u), init, job);
      var r := Pass(rules, StartPass(u), init);
      VisitRaises(rules, r, job, d, q);
      CarriedSnoc(r.released, job, d, q);
    }
  }

  /** A job is only released if the level leaves room for it. */
  lemma ReleasedHadRoom(rules: Rules, r: Round, job: Job, d: Dep)
    requires Counted(d) && d in job.deps && Limited(d, rules.queues, job.queue)
    requires |Visit(rules, r, job).released| > |r.released|
    ensures Level(d, r.usage, r.pending, job.queue) + Weight(d, job) <= Limit(d, rules, job.queue)
  {
    assert d !in Kept(rules, r.usage, r.pending, job, job.deps);
    UnderIsRoom(d, rules, r.usage, r.pending, job);
  }

  /** No over-release: what the counter of a limit showed at the start of the
      pass, plus everything the pass released that this limit had held, is
      within the limit, whichever of the released jobs reached SCHED meanwhile. */
  lemma {:induction false} NoOverRelease(rules: Rules, u: Usage, held: seq<Job>, d: Dep, q: string)
    requires Counted(d) && Limited(d, rules.queues, q)
    ensures var r := Pass(rules, StartPass(u), held);
            (exists i :: 0 <= i < |r.released| && Counts(r.released[i], d, q)) ==>
              Level(d, u, NOTHING_PENDING, q) + Carried(r.released, d, q) <= Limit(d, rules, q)
    decreases |held|
  {
    if held != [] {
      var init, job := held[..|held| - 1], held[|held| - 1];
      NoOverRelease(rules, u, init, d, q);
      assert held == init + [job];
      PassSnoc(rules, StartPass(u), init, job);
      var r := Pass(rules, StartPass(u), init);
      var s := Visit(rules, r, job);
      CarriedSnoc(r.released, job, d, q);
      if |s.released| > |r.released| && Counts(job, d, q) {
        LevelCovers(rules, u, init, d, q);
        SameLimit(rules, r.usage, r.pending, job, d, q);
        ReleasedHadRoom(rules, r, job, d);
      } else if i :| 0 <= i < |s.released| && Counts(s.released[i], d, q) {
        assert r.released[i] == s.released[i];
      }
    }
  }

  /** For an association-wide limit the queue does not matter. */
  lemma SameLimit(rules: Rules, u: Usage, p: Pending, job: Job, d: Dep, q: string)
    requires Counted(d) && Limited(d, rules.queues, q) && Counts(job, d, q)
    ensures Limited(d, rules.queues, job.queue) && Limit(d, rules, job.queue) == Limit(d, rules, q)
    ensures Level(d, u, p, job.queue) == Level(d, u, p, q)
  {
  }

  // ----- nobody is left behind -----

  /** Room that is gone does not come back during a pass. */
  lemma StaysFull(rules: Rules, r: Round, job: Job, d: Dep, waiting: Job)
    requires !Under(d, r.usage, rules.limits, rules.queues, r.pending, waiting)
    ensures var s := Visit(rules, r, job); !Under(d, s.usage, rules.limits, rules.queues, s.pending, waiting)
  {
    if d != AssocMRES {
      var s := Visit(rules, r, job);
      UnderIsRoom(d, rules, r.usage, r.pending, waiting);
      UnderIsRoom(d, rules, s.usage, s.pending, waiting);
      if d != QueueMRES {
        VisitRaises(rules, r, job, d, waiting.queue);
      }
    }
  }

  /** Every dependency still carried is over its limit. */
  ghost predicate AllBlocked(rules: Rules, r: Round)
  {
    forall i, d | 0 <= i < |r.kept| && d in r.kept[i].deps ::
      !Under(d, r.usage, rules.limits, rules.queues, r.pending, r.kept[i])
  }

  lemma VisitBlocks(rules: Rules, r: Round, job: Job)
    requires AllBlocked(rules, r)
    ensures AllBlocked(rules, Visit(rules, r, job))
  {
    var s := Visit(rules, r, job);
    forall i, d | 0 <= i < |s.kept| && d in s.kept[i].deps
      ensures !Under(d, s.usage, rules.limits, rules.queues, s.pending, s.kept[i])
    {
      if i < |r.kept| {
        assert s.kept[i] == r.kept[i];
        StaysFull(rules, r, job, d, r.kept[i]);
      }
    }
  }

  /** A pass is greedy to the end: every dependency still carried is over its
      limit under the counters and pending amounts at the end of the pass. */
  lemma {:induction false} PassIsMaximal(rules: Rules, u: Usage, held: seq<Job>)
    ensures AllBlocked(rules, Pass(rules, StartPass(u), held))
    decreases |held|
  {
    if held != [] {
      var init, job := held[..|held| - 1], held[|held| - 1];
      PassIsMaximal(rules, u, init);
      assert held == init + [job];
      PassSnoc(rules, StartPass(u), init, job);
      VisitBlocks(rules, Pass(rules, StartPass(u), init), job);
    }
  }

  // ----- a single limit, with released jobs scheduled at once -----

  /** The limits on what is in SCHED state, and on what is committed to a queue. */
  predicate OnScheduled(d: Dep) { d in {QueueMSJ, QueueMSN, QueueMSC, QueueMRES, AssocMSJ} }

  /** Nothing is pending against a limit on scheduled jobs. */
  predicate NonePending(p: Pending, q: string)
  {
    p.assocSched == 0 && At(p.queueSched, q) == 0 && At(p.queueSchedNodes, q) == 0 && At(p.queueSchedCores, q) == 0
  }

  lemma VisitKeepsLimit(rules: Rules, r: Round, job: Job, d: Dep, q: string)
    requires OnScheduled(d) && Limited(d, rules.queues, q) && NonePending(r.pending, q)
    requires rules.Fate(job.id) == Sched && d in job.deps
    requires Level(d, r.usage, r.pending, q) <= Limit(d, rules, q)
    ensures var s := Visit(rules, r, job);
            NonePending(s.pending, q) && Level(d, s.usage, s.pending, q) <= Limit(d, rules, q)
  {
    if Kept(rules, r.usage, r.pending, job, job.deps) == [] && Limited(d, rules.queues, job.queue) {
      UnderIsRoom(d, rules, r.usage, r.pending, job);
    }
  }

  /** If one limit alone holds all jobs and released jobs are scheduled at once,
      a pass keeps that limit. */
  lemma {:induction false} PassKeepsLimit(rules: Rules, r: Round, todo: seq<Job>, d: Dep, q: string)
    requires OnScheduled(d) && Limited(d, rules.queues, q) && NonePending(r.pending, q)
    requires forall i | 0 <= i < |todo| :: rules.Fate(todo[i].id) == Sched && d in todo[i].deps
    requires Level(d, r.usage, r.pending, q) <= Limit(d, rules, q)
    ensures Level(d, Pass(rules, r, todo).usage, NOTHING_PENDING, q) <= Limit(d, rules, q)
    decreases |todo|
  {
    if todo != [] {
      VisitKeepsLimit(rules, r, todo[0], d, q);
      PassKeepsLimit(rules, Visit(rules, r, todo[0]), todo[1..], d, q);
    }
  }
}
