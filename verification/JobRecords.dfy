/// Jobs as the workload manager knows them, and what the jobs of one
/// association add up to.

module JobRecords {

  /** One user in one bank. */
  datatype Key = Key(userid: int, bank: string)

  /** Where a job is.  A job being cleaned up still counts as where it was. */
  datatype State = New | Depend | Priority | Sched | Run | Inactive

  /** A job; the queue name is empty when none was given. */
  datatype Record = Record(owner: Key, queue: string, nnodes: nat, ncores: nat, state: State)
  {
    predicate AllocPosted() { state == Run }

    predicate PriorityPosted() { state == Sched || state == Run }
  }

  /** What the plugin keeps count of, per association and per queue. */
  datatype Metric =
    | ActiveJobs
    | SchedJobs
    | RunJobs
    | Nodes
    | Cores
    | QueueRunJobs(queue: string)
    | QueueNodes(queue: string)
    | QueueSchedJobs(queue: string)
    | QueueSchedNodes(queue: string)
    | QueueSchedCores(queue: string)

  /** What one job adds to a metric.  Running jobs without a queue are in no
      queue's running counts, but scheduled ones are counted under "". */
  function Amount(m: Metric, r: Record): nat
  {
    match m
    case ActiveJobs => if r.state != Inactive then 1 else 0
    case SchedJobs => if r.state == Sched then 1 else 0
    case RunJobs => if r.state == Run then 1 else 0
    case Nodes => if r.state == Run then r.nnodes else 0
    case Cores => if r.state == Run then r.ncores else 0
    case QueueRunJobs(q) => if r.state == Run && r.queue == q != "" then 1 else 0
    case QueueNodes(q) => if r.state == Run && r.queue == q != "" then r.nnodes else 0
    case QueueSchedJobs(q) => if r.state == Sched && r.queue == q then 1 else 0
    case QueueSchedNodes(q) => if r.state == Sched && r.queue == q then r.nnodes else 0
    case QueueSchedCores(q) => if r.state == Sched && r.queue == q then r.ncores else 0
  }

  /** A job's part in the total of association k. */
  function Part(k: Key, m: Metric, r: Record): nat
  {
    if r.owner == k then Amount(m, r) else 0
  }

  /** The total of a metric over all jobs of association k. */
  function Total(jobs: seq<Record>, k: Key, m: Metric): nat
  {
    if jobs == [] then 0 else Total(jobs[..|jobs| - 1], k, m) + Part(k, m, jobs[|jobs| - 1])
  }

  lemma TotalAppend(jobs: seq<Record>, r: Record, k: Key, m: Metric)
    ensures Total(jobs + [r], k, m) == Total(jobs, k, m) + Part(k, m, r)
  {
    assert (jobs + [r])[..|jobs|] == jobs;
  }

  /** When one job changes, the totals change by what it adds less what it added. */
  lemma {:induction false} TotalUpdate(jobs: seq<Record>, id: nat, r: Record, k: Key, m: Metric)
    requires id < |jobs|
    ensures Total(jobs[id := r], k, m) == Total(jobs, k, m) - Part(k, m, jobs[id]) + Part(k, m, r)
    ensures Total(jobs, k, m) >= Part(k, m, jobs[id])
  {
    var last := |jobs| - 1;
    var changed := jobs[id := r];
    if id == last {
      assert changed[..last] == jobs[..last];
    } else {
      TotalUpdate(jobs[..last], id, r, k, m);
      assert changed[..last] == jobs[..last][id := r];
    }
  }

  lemma TotalUpdates(jobs: seq<Record>, id: nat, r: Record)
    requires id < |jobs|
    ensures forall k, m :: Total(jobs[id := r], k, m) == Total(jobs, k, m) - Part(k, m, jobs[id]) + Part(k, m, r)
    ensures forall k, m :: Total(jobs, k, m) >= Part(k, m, jobs[id])
  {
    forall k, m
      ensures Total(jobs[id := r], k, m) == Total(jobs, k, m) - Part(k, m, jobs[id]) + Part(k, m, r)
      ensures Total(jobs, k, m) >= Part(k, m, jobs[id])
    {
      TotalUpdate(jobs, id, r, k, m);
    }
  }

  // ----- conservation of active jobs -----

  /** The jobs that are not inactive. */
  function Live(jobs: seq<Record>): nat
  {
    if jobs == [] then 0
    else Live(jobs[..|jobs| - 1]) + if jobs[|jobs| - 1].state != Inactive then 1 else 0
  }

  /** The active jobs of several associations. */
  ghost function ActiveOf(keys: set<Key>, jobs: seq<Record>): nat
  {
    if keys == {} then 0
    else var k :| k in keys; Total(jobs, k, ActiveJobs) + ActiveOf(keys - {k}, jobs)
  }

  lemma {:induction false} ActiveOfAppend(keys: set<Key>, jobs: seq<Record>, r: Record)
    ensures ActiveOf(keys, jobs + [r]) == ActiveOf(keys, jobs) + if r.owner in keys then Amount(ActiveJobs, r) else 0
    decreases keys
  {
    if keys != {} {
      var k :| k in keys && ActiveOf(keys, jobs) == Total(jobs, k, ActiveJobs) + ActiveOf(keys - {k}, jobs);
      var l :| l in keys
        && ActiveOf(keys, jobs + [r]) == Total(jobs + [r], l, ActiveJobs) + ActiveOf(keys - {l}, jobs + [r]);
      ActiveOfAppend(keys - {l}, jobs, r);
      TotalAppend(jobs, r, l, ActiveJobs);
      ActiveOfPick(keys, jobs, l);
    }
  }

  /** The sum does not depend on which association is taken first. */
  lemma {:induction false} ActiveOfPick(keys: set<Key>, jobs: seq<Record>, l: Key)
    requires l in keys
    ensures ActiveOf(keys, jobs) == Total(jobs, l, ActiveJobs) + ActiveOf(keys - {l}, jobs)
    decreases keys
  {
    var k :| k in keys && ActiveOf(keys, jobs) == Total(jobs, k, ActiveJobs) + ActiveOf(keys - {k}, jobs);
    if k != l {
      ActiveOfPick(keys - {k}, jobs, l);
      ActiveOfPick(keys - {l}, jobs, k);
      assert keys - {k} - {l} == keys - {l} - {k};
    }
  }

  lemma {:induction false} ActiveOfNone(keys: set<Key>)
    ensures ActiveOf(keys, []) == 0
    decreases keys
  {
    if keys != {} {
      var k :| k in keys;
      ActiveOfNone(keys - {k});
      ActiveOfPick(keys, [], k);
    }
  }

  /** If every job belongs to one of the associations, their active jobs are
      exactly the live jobs. */
  lemma {:induction false} ActiveIsLive(keys: set<Key>, jobs: seq<Record>)
    requires forall i | 0 <= i < |jobs| :: jobs[i].owner in keys
    ensures ActiveOf(keys, jobs) == Live(jobs)
  {
    if jobs == [] {
      ActiveOfNone(keys);
    } else {
      var init, r := jobs[..|jobs| - 1], jobs[|jobs| - 1];
      ActiveIsLive(keys, init);
      ActiveOfAppend(keys, init, r);
      assert jobs == init + [r];
    }
  }
}
