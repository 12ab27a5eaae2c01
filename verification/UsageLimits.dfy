/// Usage counters, limits, and the checks of one against the other.

module UsageLimits {
  import opened JobRecords

  const MAX_INT: int := 2147483647

  /** The limits of a queue. */
  datatype Queue = Queue(maxRunningJobs: int, maxNodesPerAssoc: int, maxSchedJobs: int,
                         maxSchedNodesPerAssoc: int, maxSchedCoresPerAssoc: int)

  /** The limits of an association. */
  datatype Limits = Limits(maxRunJobs: int, maxActiveJobs: int, maxSchedJobs: int, maxNodes: int, maxCores: int)

  /** An association's usage of one queue. */
  datatype QueueUsage = QueueUsage(curRunJobs: int, curNodes: int, curSchedJobs: int,
                                   curSchedNodes: int, curSchedCores: int)

  const UNUSED := QueueUsage(0, 0, 0, 0, 0)

  /** The dependencies that hold a job back, in the order they are checked. */
  datatype Dep = QueueMRJ | QueueMSJ | QueueMSN | QueueMSC | QueueMRES | AssocMRJ | AssocMSJ | AssocMRES

  /** A held job. */
  datatype Job = Job(id: nat, deps: seq<Dep>, nnodes: nat, ncores: nat, queue: string)
  {
    predicate ContainsDep(d: Dep) { d in deps }

    function RemoveDep(d: Dep): Job { this.(deps := Without(deps, d)) }
  }

  function Without(deps: seq<Dep>, d: Dep): seq<Dep>
  {
    if deps == [] then []
    else (if deps[0] == d then [] else [deps[0]]) + Without(deps[1..], d)
  }

  /** Amounts per queue, zero where nothing is recorded. */
  function At(m: map<string, int>, q: string): int
  {
    if q in m then m[q] else 0
  }

  /** The counters of an association. */
  datatype Usage = Usage(curRunJobs: int, curActiveJobs: int, curSchedJobs: int, curNodes: int, curCores: int,
                         queueUsage: map<string, QueueUsage>)
  {
    function In(q: string): QueueUsage {
      if q in queueUsage then queueUsage[q] else UNUSED
    }

    /** The counter that keeps a metric. */
    function Count(m: Metric): int {
      match m
      case ActiveJobs => curActiveJobs
      case SchedJobs => curSchedJobs
      case RunJobs => curRunJobs
      case Nodes => curNodes
      case Cores => curCores
      case QueueRunJobs(q) => In(q).curRunJobs
      case QueueNodes(q) => In(q).curNodes
      case QueueSchedJobs(q) => In(q).curSchedJobs
      case QueueSchedNodes(q) => In(q).curSchedNodes
      case QueueSchedCores(q) => In(q).curSchedCores
    }

    predicate UnderMaxRunJobs(l: Limits, pending: int) {
      curRunJobs + pending < l.maxRunJobs
    }

    /** A queue the plugin does not know has the default limit. */
    predicate UnderQueueMaxRunJobs(queues: map<string, Queue>, q: string, pending: int) {
      In(q).curRunJobs + pending < if q in queues then queues[q].maxRunningJobs else MAX_INT
    }

    predicate UnderMaxResources(l: Limits, job: Job) {
      && 0 < l.maxNodes && 0 < l.maxCores
      && curNodes + job.nnodes <= l.maxNodes && curCores + job.ncores <= l.maxCores
    }

    /** Running and scheduled nodes together are what a queue's node limit caps. */
    predicate UnderQueueMaxResources(queues: map<string, Queue>, job: Job) {
      job.queue in queues ==>
        In(job.queue).curNodes + In(job.queue).curSchedNodes + job.nnodes <= queues[job.queue].maxNodesPerAssoc
    }

    predicate UnderMaxSchedJobs(l: Limits, pending: int) {
      curSchedJobs + pending < l.maxSchedJobs
    }

    predicate UnderQueueMaxSchedJobs(queues: map<string, Queue>, q: string, pending: int) {
      q in queues ==> In(q).curSchedJobs + pending < queues[q].maxSchedJobs
    }

    predicate UnderQueueMaxSchedNodes(queues: map<string, Queue>, job: Job, pending: int) {
      job.queue in queues ==>
        In(job.queue).curSchedNodes + job.nnodes + pending <= queues[job.queue].maxSchedNodesPerAssoc
    }

    predicate UnderQueueMaxSchedCores(queues: map<string, Queue>, job: Job, pending: int) {
      job.queue in queues ==>
        In(job.queue).curSchedCores + job.ncores + pending <= queues[job.queue].maxSchedCoresPerAssoc
    }

    /** One more, or one less, active job. */
    function AddActive(): Usage { this.(curActiveJobs := curActiveJobs + 1) }

    function DropActive(): Usage { this.(curActiveJobs := curActiveJobs - 1) }

    /** The counters once a job of this size has entered SCHED. */
    function AddSched(q: string, nnodes: nat, ncores: nat): Usage {
      this.(curSchedJobs := curSchedJobs + 1,
            queueUsage := queueUsage[q := In(q).(curSchedJobs := In(q).curSchedJobs + 1,
                                                 curSchedNodes := In(q).curSchedNodes + nnodes,
                                                 curSchedCores := In(q).curSchedCores + ncores)])
    }

    /** The counters once it has left SCHED. */
    function DropSched(q: string, nnodes: nat, ncores: nat): Usage {
      this.(curSchedJobs := curSchedJobs - 1,
            queueUsage := queueUsage[q := In(q).(curSchedJobs := In(q).curSchedJobs - 1,
                                                 curSchedNodes := In(q).curSchedNodes - nnodes,
                                                 curSchedCores := In(q).curSchedCores - ncores)])
    }

    /** The counters once a job of this size runs; without a queue only the
        association's own counters change. */
    function AddRun(q: string, nnodes: nat, ncores: nat): Usage {
      var u := this.(curRunJobs := curRunJobs + 1, curNodes := curNodes + nnodes, curCores := curCores + ncores);
      if q == "" then u
      else u.(queueUsage := queueUsage[q := In(q).(curRunJobs := In(q).curRunJobs + 1,
                                                   curNodes := In(q).curNodes + nnodes)])
    }

    /** The counters once it has ended; a queue's running jobs are not taken
        below zero. */
    function DropRun(q: string, nnodes: nat, ncores: nat): Usage {
      var u := this.(curRunJobs := curRunJobs - 1, curNodes := curNodes - nnodes, curCores := curCores - ncores);
      if q == "" then u
      else
        var runs := In(q).curRunJobs;
        u.(queueUsage := queueUsage[q := In(q).(curRunJobs := if runs > 0 then runs - 1 else runs,
                                                curNodes := In(q).curNodes - nnodes)])
    }
  }

  const NO_USAGE := Usage(0, 0, 0, 0, 0, map[])

  /** What jobs released in the current pass will add to counters that do not
      show them yet. */
  datatype Pending = Pending(assocRun: int, assocSched: int, queueRun: map<string, int>,
                             queueSched: map<string, int>, queueSchedNodes: map<string, int>,
                             queueSchedCores: map<string, int>)

  const NOTHING_PENDING := Pending(0, 0, map[], map[], map[], map[])

  /** Whether the limit behind a dependency leaves room for the job. */
  predicate Under(d: Dep, u: Usage, l: Limits, queues: map<string, Queue>, p: Pending, job: Job)
  {
    match d
    case QueueMRJ => u.UnderQueueMaxRunJobs(queues, job.queue, At(p.queueRun, job.queue))
    case QueueMSJ => u.UnderQueueMaxSchedJobs(queues, job.queue, At(p.queueSched, job.queue))
    case QueueMSN => u.UnderQueueMaxSchedNodes(queues, job, At(p.queueSchedNodes, job.queue))
    case QueueMSC => u.UnderQueueMaxSchedCores(queues, job, At(p.queueSchedCores, job.queue))
    case QueueMRES => u.UnderQueueMaxResources(queues, job)
    case AssocMRJ => u.UnderMaxRunJobs(l, p.assocRun)
    case AssocMSJ => u.UnderMaxSchedJobs(l, p.assocSched)
    case AssocMRES => u.UnderMaxResources(l, job)
  }
}
