/// When an association's counters and held jobs agree with the jobs there are.

module Ledger {
  import opened JobRecords
  import opened UsageLimits
  import opened ReleasePass

  /** Every counter, or at least the count of active jobs, equals the total over
      the association's jobs. */
  ghost predicate Exact(full: bool, jobs: seq<Record>, k: Key, u: Usage)
  {
    forall m | full || m == ActiveJobs :: u.Count(m) == Total(jobs, k, m)
  }

  /** A held job is a job of the association in DEPEND state, with its size and
      queue, and with something to wait for. */
  predicate HeldRight(jobs: seq<Record>, k: Key, job: Job)
  {
    && job.id < |jobs| && job.deps != []
    && jobs[job.id] == Record(k, job.queue, job.nnodes, job.ncores, Depend)
  }

  /** The held jobs are distinct, and each is held rightly. */
  predicate AllHeldRight(jobs: seq<Record>, k: Key, held: seq<Job>)
  {
    && (forall i | 0 <= i < |held| :: HeldRight(jobs, k, held[i]))
    && (forall i, j | 0 <= i < j < |held| :: held[i].id != held[j].id)
  }

  /** One job moves on: counters that change by the job's parts stay exact. */
  lemma StaysExact(full: bool, jobs: seq<Record>, id: nat, r: Record, k: Key, u: Usage, v: Usage)
    requires id < |jobs| && Exact(full, jobs, k, u)
    requires forall m | full || m == ActiveJobs :: v.Count(m) == u.Count(m) - Part(k, m, jobs[id]) + Part(k, m, r)
    ensures Exact(full, jobs[id := r], k, v)
  {
    TotalUpdates(jobs, id, r);
  }

  /** A job of another association does not matter. */
  lemma OthersStayExact(full: bool, jobs: seq<Record>, id: nat, r: Record, k: Key, u: Usage)
    requires id < |jobs| && Exact(full, jobs, k, u) && jobs[id].owner != k && r.owner != k
    ensures Exact(full, jobs[id := r], k, u)
  {
    StaysExact(full, jobs, id, r, k, u, u);
  }

  /** Entering SCHED moves the job's parts into the SCHED counters. */
  lemma SchedCounts(k: Key, r: Record, u: Usage, m: Metric)
    requires r.owner == k && r.state in {Depend, Priority}
    ensures u.AddSched(r.queue, r.nnodes, r.ncores).Count(m)
         == u.Count(m) - Part(k, m, r) + Part(k, m, r.(state := Sched))
  {
  }

  /** The records once the released jobs have gone where their fate takes them. */
  function Moved(jobs: seq<Record>, rules: Rules, released: seq<Job>): (after: seq<Record>)
    ensures |after| == |jobs|
  {
    if released == [] then jobs
    else
      var last := released[|released| - 1];
      var before := Moved(jobs, rules, released[..|released| - 1]);
      if last.id < |jobs| then before[last.id := before[last.id].(state := rules.Fate(last.id))] else before
  }

  lemma MovedSnoc(jobs: seq<Record>, rules: Rules, released: seq<Job>, job: Job)
    requires job.id < |jobs|
    ensures var before := Moved(jobs, rules, released);
            Moved(jobs, rules, released + [job]) == before[job.id := before[job.id].(state := rules.Fate(job.id))]
  {
    assert (released + [job])[..|released|] == released;
  }

  /** The records after a job has been looked at. */
  function VisitMoves(rules: Rules, jobs: seq<Record>, r: Round, job: Job): seq<Record>
    requires job.id < |jobs|
  {
    if Kept(rules, r.usage, r.pending, job, job.deps) == [] then
      jobs[job.id := jobs[job.id].(state := rules.Fate(job.id))]
    else jobs
  }

  /** Looking at one held job keeps the held jobs held rightly. */
  lemma VisitStaysHeld(rules: Rules, jobs: seq<Record>, k: Key, r: Round, job: Job, todo: seq<Job>)
    requires AllHeldRight(jobs, k, r.kept + [job] + todo) && job.id < |jobs|
    ensures AllHeldRight(VisitMoves(rules, jobs, r, job), k, Visit(rules, r, job).kept + todo)
  {
    if Kept(rules, r.usage, r.pending, job, job.deps) == [] {
      DropHeld(jobs, k, r.kept, job, todo, jobs[job.id].(state := rules.Fate(job.id)));
    } else {
      ThinHeld(jobs, k, r.kept, job, Visit(rules, r, job).kept[|r.kept|], todo);
    }
  }

  /** Looking at one held job keeps counters exact. */
  lemma VisitStaysExact(full: bool, rules: Rules, jobs: seq<Record>, k: Key, r: Round, job: Job)
    requires Exact(full, jobs, k, r.usage) && HeldRight(jobs, k, job)
    ensures Exact(full, VisitMoves(rules, jobs, r, job), k, Visit(rules, r, job).usage)
  {
    if Kept(rules, r.usage, r.pending, job, job.deps) == [] {
      var s, moved := Visit(rules, r, job), jobs[job.id].(state := rules.Fate(job.id));
      forall m ensures s.usage.Count(m) == r.usage.Count(m) - Part(k, m, jobs[job.id]) + Part(k, m, moved) {
        if moved.state == Sched {
          SchedCounts(k, jobs[job.id], r.usage, m);
        }
      }
      StaysExact(full, jobs, job.id, moved, k, r.usage, s.usage);
    }
  }

  lemma DropHeld(jobs: seq<Record>, k: Key, kept: seq<Job>, job: Job, todo: seq<Job>, moved: Record)
    requires AllHeldRight(jobs, k, kept + [job] + todo) && job.id < |jobs|
    ensures AllHeldRight(jobs[job.id := moved], k, kept + todo)
  {
    var all, left := kept + [job] + todo, kept + todo;
    var at := (i: int) => if i < |kept| then i else i + 1;
    forall i | 0 <= i < |left| ensures left[i] == all[at(i)] && left[i].id != job.id && HeldRight(jobs, k, left[i]) {
      assert all[|kept|] == job;
    }
    forall i, j | 0 <= i < j < |left| ensures left[i].id != left[j].id {
      assert left[i] == all[at(i)] && left[j] == all[at(j)];
    }
  }

  lemma ThinHeld(jobs: seq<Record>, k: Key, kept: seq<Job>, job: Job, less: Job, todo: seq<Job>)
    requires AllHeldRight(jobs, k, kept + [job] + todo)
    requires less == job.(deps := less.deps) && less.deps != []
    ensures AllHeldRight(jobs, k, kept + [less] + todo)
  {
    var all, now := kept + [job] + todo, kept + [less] + todo;
    assert forall i | 0 <= i < |all| :: now[i] == (if i == |kept| then less else all[i]);
    assert all[|kept|] == job;
  }

  /** A whole pass keeps counters exact and held jobs held rightly. */
  lemma {:induction false} PassStaysExact(full: bool, rules: Rules, jobs: seq<Record>, k: Key, u: Usage,
                                          held: seq<Job>, more: seq<Job>)
    requires Exact(full, jobs, k, u) && AllHeldRight(jobs, k, held + more)
    ensures var end := Pass(rules, StartPass(u), held);
            Exact(full, Moved(jobs, rules, end.released), k, end.usage)
            && AllHeldRight(Moved(jobs, rules, end.released), k, end.kept + more)
    decreases |held|
  {
    if held == [] {
      assert held + more == more == [] + more;
    } else {
      var init, job := held[..|held| - 1], held[|held| - 1];
      assert held + more == init + ([job] + more) && held == init + [job];
      PassStaysExact(full, rules, jobs, k, u, init, [job] + more);
      PassSnoc(rules, StartPass(u), init, job);
      var r := Pass(rules, StartPass(u), init);
      var now := Moved(jobs, rules, r.released);
      assert r.kept + ([job] + more) == r.kept + [job] + more;
      assert (r.kept + [job] + more)[|r.kept|] == job;
      assert HeldRight(now, k, job);
      VisitStaysHeld(rules, now, k, r, job, more);
      VisitStaysExact(full, rules, now, k, r, job);
      MovedSnoc(jobs, rules, r.released, job);
    }
  }

  /** The released jobs are jobs of association k. */
  predicate OwnedBy(jobs: seq<Record>, k: Key, released: seq<Job>)
  {
    forall i | 0 <= i < |released| :: released[i].id < |jobs| && jobs[released[i].id].owner == k
  }

  /** A pass of one association changes the state of some of its jobs, no more. */
  lemma {:induction false} MovedOnlyOwn(jobs: seq<Record>, rules: Rules, released: seq<Job>, k: Key)
    requires OwnedBy(jobs, k, released)
    ensures forall i | 0 <= i < |jobs| ::
              var now := Moved(jobs, rules, released)[i];
              now.(state := jobs[i].state) == jobs[i] && (jobs[i].owner != k ==> now == jobs[i])
  {
    if released != [] {
      MovedOnlyOwn(jobs, rules, released[..|released| - 1], k);
    }
  }

  lemma {:induction false} MovedKeepsOthers(jobs: seq<Record>, rules: Rules, released: seq<Job>, k: Key, l: Key,
                                            m: Metric)
    requires OwnedBy(jobs, k, released) && l != k
    ensures Total(Moved(jobs, rules, released), l, m) == Total(jobs, l, m)
  {
    if released != [] {
      var init, last := released[..|released| - 1], released[|released| - 1];
      MovedKeepsOthers(jobs, rules, init, k, l, m);
      MovedOnlyOwn(jobs, rules, init, k);
      var before := Moved(jobs, rules, init);
      TotalUpdate(before, last.id, before[last.id].(state := rules.Fate(last.id)), l, m);
    }
  }

  /** The other associations stay exact, and so do their held jobs. */
  lemma OthersUntouched(full: bool, jobs: seq<Record>, rules: Rules, released: seq<Job>, k: Key, l: Key, u: Usage,
                        held: seq<Job>)
    requires OwnedBy(jobs, k, released) && l != k
    ensures Exact(full, jobs, l, u) ==> Exact(full, Moved(jobs, rules, released), l, u)
    ensures AllHeldRight(jobs, l, held) ==> AllHeldRight(Moved(jobs, rules, released), l, held)
  {
    forall m ensures Total(Moved(jobs, rules, released), l, m) == Total(jobs, l, m) {
      MovedKeepsOthers(jobs, rules, released, k, l, m);
    }
    MovedOnlyOwn(jobs, rules, released, k);
  }

  lemma {:induction false} ReleasedAreOwn(rules: Rules, jobs: seq<Record>, k: Key, u: Usage, held: seq<Job>)
    requires forall i | 0 <= i < |held| :: HeldRight(jobs, k, held[i])
    ensures OwnedBy(jobs, k, Pass(rules, StartPass(u), held).released)
    decreases |held|
  {
    if held != [] {
      var init, job := held[..|held| - 1], held[|held| - 1];
      ReleasedAreOwn(rules, jobs, k, u, init);
      PassSnoc(rules, StartPass(u), init, job);
      assert held == init + [job];
    }
  }
}
