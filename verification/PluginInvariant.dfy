/// Every callback keeps the plugin's counters exact.

module PluginInvariant {
  import opened JobRecords
  import opened UsageLimits
  import opened ReleasePass
  import opened Ledger
  import opened PluginWorld

  /** One job of association k changes, and with it k's account: the world stays
      sound if the account follows the job. */
  lemma AccountFollows(full: bool, w: World, id: nat, r: Record, k: Key, u: Usage, held: seq<Job>)
    requires Sound(full, w) && id < |w.jobs| && w.jobs[id].owner == k == r.owner
    requires forall m | full || m == ActiveJobs ::
               u.Count(m) == w.accounts[k].usage.Count(m) - Part(k, m, w.jobs[id]) + Part(k, m, r)
    requires AllHeldRight(w.jobs[id := r], k, held)
    ensures Sound(full, w.Put(k, u, held).(jobs := w.jobs[id := r]))
  {
    StaysExact(full, w.jobs, id, r, k, w.accounts[k].usage, u);
    forall l | l in w.accounts && l != k
      ensures Exact(full, w.jobs[id := r], l, w.accounts[l].usage)
      ensures AllHeldRight(w.jobs[id := r], l, w.accounts[l].held)
    {
      OthersStayExact(full, w.jobs, id, r, l, w.accounts[l].usage);
      OthersStayHeld(w.jobs, id, r, l, w.accounts[l].held);
    }
  }

  lemma OthersStayHeld(jobs: seq<Record>, id: nat, r: Record, l: Key, held: seq<Job>)
    requires id < |jobs| && jobs[id].owner != l && AllHeldRight(jobs, l, held)
    ensures AllHeldRight(jobs[id := r], l, held)
  {
    forall i | 0 <= i < |held| ensures HeldRight(jobs[id := r], l, held[i]) {
      assert HeldRight(jobs, l, held[i]);
    }
  }

  /** Held jobs stay held rightly when another job changes. */
  lemma HeldStays(jobs: seq<Record>, id: nat, r: Record, k: Key, held: seq<Job>)
    requires id < |jobs| && AllHeldRight(jobs, k, held)
    requires forall i | 0 <= i < |held| :: held[i].id != id
    ensures AllHeldRight(jobs[id := r], k, held)
  {
    forall i | 0 <= i < |held| ensures HeldRight(jobs[id := r], k, held[i]) {
      assert HeldRight(jobs, k, held[i]);
    }
  }

  /** A job that is not in DEPEND is not held. */
  lemma OnlyDependHeld(jobs: seq<Record>, id: nat, k: Key, held: seq<Job>)
    requires id < |jobs| && AllHeldRight(jobs, k, held) && jobs[id].state != Depend
    ensures forall i | 0 <= i < |held| :: held[i].id != id
  {
    forall i | 0 <= i < |held| ensures held[i].id != id {
      assert HeldRight(jobs, k, held[i]);
    }
  }

  /** Dropping a job from the held jobs. */
  lemma {:induction false} NotHeldKeeps(jobs: seq<Record>, k: Key, held: seq<Job>, id: nat)
    requires AllHeldRight(jobs, k, held)
    ensures var rest := NotHeld(held, id);
            AllHeldRight(jobs, k, rest) && (forall i | 0 <= i < |rest| :: rest[i].id != id && rest[i] in held)
  {
    if held != [] {
      assert HeldRight(jobs, k, held[0]);
      assert forall i | 0 <= i < |held| - 1 :: held[1..][i] == held[i + 1];
      NotHeldKeeps(jobs, k, held[1..], id);
      var rest := NotHeld(held[1..], id);
      forall i | 0 <= i < |rest| ensures rest[i].id != held[0].id {
        assert rest[i] in held[1..];
        var j :| 0 <= j < |held[1..]| && held[1..][j] == rest[i];
        assert held[j + 1] == rest[i];
      }
    }
  }

  lemma SubmitIsSound(full: bool, w: World, k: Key, q: string, p: Project, nnodes: nat, ncores: nat)
    requires Sound(full, w)
    ensures Sound(full, Submitted(w, k, q, p, nnodes, ncores))
  {
    if Accepts(w, k, q, p, nnodes, ncores) {
      var r := Record(k, q, nnodes, ncores, New);
      forall l, m ensures Total(w.jobs + [r], l, m) == Total(w.jobs, l, m) + Part(l, m, r) {
        TotalAppend(w.jobs, r, l, m);
      }
      forall l | l in w.accounts ensures AllHeldRight(w.jobs + [r], l, w.accounts[l].held) {
        forall i | 0 <= i < |w.accounts[l].held| ensures HeldRight(w.jobs + [r], l, w.accounts[l].held[i]) {
          assert HeldRight(w.jobs, l, w.accounts[l].held[i]);
        }
      }
    }
  }

  lemma DependIsSound(full: bool, w: World, id: nat)
    requires Sound(full, w) && id < |w.jobs| && w.jobs[id].state == New
    ensures Sound(full, Depended(w, id))
  {
    var k := w.jobs[id].owner;
    var a, deps, r := w.accounts[k], NewDeps(w, id), w.jobs[id].(state := Depend);
    OnlyDependHeld(w.jobs, id, k, a.held);
    HeldStays(w.jobs, id, r, k, a.held);
    if deps == [] {
      AccountFollows(full, w, id, r, k, a.usage, a.held);
    } else {
      HeldNext(w.jobs[id := r], k, a.held, HeldJob(w, id, deps));
      AccountFollows(full, w, id, r, k, a.usage, a.held + [HeldJob(w, id, deps)]);
    }
  }

  /** One more job is held. */
  lemma HeldNext(jobs: seq<Record>, k: Key, held: seq<Job>, job: Job)
    requires AllHeldRight(jobs, k, held) && HeldRight(jobs, k, job)
    requires forall i | 0 <= i < |held| :: held[i].id != job.id
    ensures AllHeldRight(jobs, k, held + [job])
  {
  }

  lemma PriorityIsSound(full: bool, w: World, id: nat)
    requires Sound(full, w) && id < |w.jobs| && w.jobs[id].state == Depend && !IsHeld(w, id)
    ensures Sound(full, w.SetState(id, Priority))
  {
    var k := w.jobs[id].owner;
    var a, r := w.accounts[k], w.jobs[id].(state := Priority);
    assert !Holds(a, id);
    HeldStays(w.jobs, id, r, k, a.held);
    AccountFollows(full, w, id, r, k, a.usage, a.held);
    assert w.Put(k, a.usage, a.held).accounts == w.accounts;
  }

  lemma SchedIsSound(full: bool, w: World, id: nat)
    requires Sound(full, w) && id < |w.jobs| && w.jobs[id].state == Priority
    ensures Sound(full, Scheduled(w, id))
  {
    var r, k := w.jobs[id], w.jobs[id].owner;
    var a, r' := w.accounts[k], r.(state := Sched);
    OnlyDependHeld(w.jobs, id, k, a.held);
    HeldStays(w.jobs, id, r', k, a.held);
    forall m ensures a.usage.AddSched(r.queue, r.nnodes, r.ncores).Count(m)
                  == a.usage.Count(m) - Part(k, m, r) + Part(k, m, r') {
      SchedCounts(k, r, a.usage, m);
    }
    AccountFollows(full, w, id, r', k, a.usage.AddSched(r.queue, r.nnodes, r.ncores), a.held);
  }

  /** What a pass of association k does to the records disturbs no other account. */
  lemma PassSparesOthers(full: bool, w: World, rules: Rules, released: seq<Job>, k: Key)
    requires Sound(full, w) && OwnedBy(w.jobs, k, released)
    ensures forall l | l in w.accounts && l != k ::
              && Exact(full, Moved(w.jobs, rules, released), l, w.accounts[l].usage)
              && AllHeldRight(Moved(w.jobs, rules, released), l, w.accounts[l].held)
  {
    forall l | l in w.accounts && l != k
      ensures Exact(full, Moved(w.jobs, rules, released), l, w.accounts[l].usage)
      ensures AllHeldRight(Moved(w.jobs, rules, released), l, w.accounts[l].held)
    {
      OthersUntouched(full, w.jobs, rules, released, k, l, w.accounts[l].usage, w.accounts[l].held);
    }
  }

  lemma PassKeepsOwners(w: World, rules: Rules, released: seq<Job>, k: Key)
    requires Owned(w) && OwnedBy(w.jobs, k, released)
    ensures Owned(w.(jobs := Moved(w.jobs, rules, released)))
  {
    MovedOnlyOwn(w.jobs, rules, released, k);
    var after := Moved(w.jobs, rules, released);
    forall i | 0 <= i < |after| ensures after[i].owner in w.accounts {
      assert after[i].(state := w.jobs[i].state).owner == w.jobs[i].owner;
    }
  }

  lemma PassOfAccount(full: bool, w: World, k: Key, rules: Rules)
    requires Sound(full, w) && k in w.accounts
    ensures var end := Pass(rules, StartPass(w.accounts[k].usage), w.accounts[k].held);
            && OwnedBy(w.jobs, k, end.released)
            && Exact(full, Moved(w.jobs, rules, end.released), k, end.usage)
            && AllHeldRight(Moved(w.jobs, rules, end.released), k, end.kept)
  {
    var a := w.accounts[k];
    var end := Pass(rules, StartPass(a.usage), a.held);
    assert a.held + [] == a.held && end.kept + [] == end.kept;
    PassStaysExact(full, rules, w.jobs, k, a.usage, a.held, []);
    ReleasedAreOwn(rules, w.jobs, k, a.usage, a.held);
  }

  /** A held job that waits is let go. */
  lemma LetGoIsVisit(w: World, k: Key, rules: Rules, r: Round, job: Job)
    requires k in w.accounts && w.accounts[k].usage == r.usage && HeldRight(w.jobs, k, job)
    requires Kept(rules, r.usage, r.pending, job, job.deps) == []
    ensures Waits(w, job.id)
    ensures var w' := LetGo(w, job.id, rules.Fate(job.id));
            && w' == w.Put(k, Visit(rules, r, job).usage, w.accounts[k].held)
                    .(jobs := VisitMoves(rules, w.jobs, r, job))
            && Commit(r.pending, job, rules.Fate(job.id) == Sched) == Visit(rules, r, job).pending
  {
    if rules.Fate(job.id) != Sched {
      assert w.Put(k, r.usage, w.accounts[k].held).accounts == w.accounts;
    }
  }

  /** Where a pass in terms of the association alone stands, as a world. */
  ghost predicate Stands(w: World, k: Key, rules: Rules, start: World, r: Round, todo: seq<Job>)
  {
    && k in start.accounts && rules == Rules(start.accounts[k].limits, start.queues, rules.fates)
    && w == start.Put(k, r.usage, start.accounts[k].held).(jobs := Moved(start.jobs, rules, r.released))
    && AllHeldRight(w.jobs, k, r.kept + todo)
  }

  lemma StandsNext(w: World, k: Key, rules: Rules, start: World, r: Round, todo: seq<Job>) returns (w': World)
    requires Stands(w, k, rules, start, r, todo) && todo != []
    ensures HeldRight(w.jobs, k, todo[0]) && Stands(w', k, rules, start, Visit(rules, r, todo[0]), todo[1..])
    ensures w' == if Kept(rules, r.usage, r.pending, todo[0], todo[0].deps) != [] then w
                  else w.Put(k, Visit(rules, r, todo[0]).usage, w.accounts[k].held).(
                         jobs := VisitMoves(rules, w.jobs, r, todo[0]))
  {
    var job := todo[0];
    assert r.kept + todo == r.kept + [job] + todo[1..] && (r.kept + todo)[|r.kept|] == job;
    assert HeldRight(w.jobs, k, job);
    VisitStaysHeld(rules, w.jobs, k, r, job, todo[1..]);
    MovedSnoc(start.jobs, rules, r.released, job);
    var s := Visit(rules, r, job);
    w' := start.Put(k, s.usage, start.accounts[k].held).(jobs := VisitMoves(rules, w.jobs, r, job));
    PutTwice(start, k, r.usage, s.usage, start.accounts[k].held);
  }

  lemma PutTwice(w: World, k: Key, u: Usage, v: Usage, held: seq<Job>)
    requires k in w.accounts
    ensures w.Put(k, u, held).Put(k, v, held) == w.Put(k, v, held)
  {
  }

  /** While all held jobs are held rightly, a pass concerns only the association's
      own counters and ends where all of them have been looked at. */
  lemma {:induction false} PassOverIsPass(w: World, k: Key, rules: Rules, start: World, r: Round, todo: seq<Job>)
    requires Stands(w, k, rules, start, r, todo)
    ensures PassOver(w, k, rules.fates, r.pending, r.kept, todo) == AfterPass(start, k, rules, Pass(rules, r, todo))
    decreases |todo|
  {
    if todo != [] {
      var job, left := todo[0], Kept(rules, r.usage, r.pending, todo[0], todo[0].deps);
      var w' := StandsNext(w, k, rules, start, r, todo);
      PassOverIsPass(w', k, rules, start, Visit(rules, r, job), todo[1..]);
      if left == [] {
        LetGoIsVisit(w, k, rules, r, job);
      } else {
        assert left == job.deps ==> job.(deps := left) == job;
      }
    } else {
      PutTwice(start, k, r.usage, r.usage, start.accounts[k].held);
    }
  }

  lemma ReleasedIsPass(w: World, k: Key, fates: map<nat, State>)
    requires k in w.accounts && AllHeldRight(w.jobs, k, w.accounts[k].held)
    ensures var rules := Rules(w.accounts[k].limits, w.queues, fates);
            Released(w, k, fates)
            == AfterPass(w, k, rules, Pass(rules, StartPass(w.accounts[k].usage), w.accounts[k].held))
  {
    var a, rules := w.accounts[k], Rules(w.accounts[k].limits, w.queues, fates);
    assert w == w.Put(k, a.usage, a.held).(jobs := Moved(w.jobs, rules, [])) && [] + a.held == a.held;
    PassOverIsPass(w, k, rules, w, StartPass(a.usage), a.held);
  }

  lemma ReleaseIsSound(full: bool, w: World, k: Key, fates: map<nat, State>)
    requires Sound(full, w) && k in w.accounts
    ensures Sound(full, Released(w, k, fates))
  {
    var rules := Rules(w.accounts[k].limits, w.queues, fates);
    var end := Pass(rules, StartPass(w.accounts[k].usage), w.accounts[k].held);
    ReleasedIsPass(w, k, fates);
    PassOfAccount(full, w, k, rules);
    PassSparesOthers(full, w, rules, end.released, k);
    PassKeepsOwners(w, rules, end.released, k);
  }

  lemma {:induction false} RevisitIsSound(full: bool, w: World, order: seq<Key>, fates: map<nat, State>)
    requires Sound(full, w) && forall i | 0 <= i < |order| :: order[i] in w.accounts
    ensures Sound(full, Revisited(w, order, fates))
  {
    if order != [] {
      var init, k := order[..|order| - 1], order[|order| - 1];
      RevisitIsSound(full, w, init, fates);
      ReleaseIsSound(full, Revisited(w, init, fates), k, fates);
    }
  }

  lemma StartCounts(k: Key, r: Record, u: Usage, m: Metric)
    requires r.owner == k && r.state == Sched
    ensures u.AddRun(r.queue, r.nnodes, r.ncores).DropSched(r.queue, r.nnodes, r.ncores).Count(m)
         == u.Count(m) - Part(k, m, r) + Part(k, m, r.(state := Run))
  {
  }

  lemma StartIsSound(full: bool, w: World, id: nat)
    requires Sound(full, w) && id < |w.jobs| && w.jobs[id].state == Sched
    ensures Sound(full, StartedOnly(w, id))
  {
    var r, k := w.jobs[id], w.jobs[id].owner;
    var a, r' := w.accounts[k], r.(state := Run);
    var u := a.usage.AddRun(r.queue, r.nnodes, r.ncores).DropSched(r.queue, r.nnodes, r.ncores);
    OnlyDependHeld(w.jobs, id, k, a.held);
    HeldStays(w.jobs, id, r', k, a.held);
    forall m ensures u.Count(m) == a.usage.Count(m) - Part(k, m, r) + Part(k, m, r') {
      StartCounts(k, r, a.usage, m);
    }
    AccountFollows(full, w, id, r', k, u, a.held);
  }

  /** The guard on a queue's running jobs never fails: while a job of the queue
      runs, the counter is positive. */
  lemma GuardHolds(w: World, id: nat)
    requires Sound(true, w) && id < |w.jobs| && w.jobs[id].state == Run && w.jobs[id].queue != ""
    ensures w.accounts[w.jobs[id].owner].usage.In(w.jobs[id].queue).curRunJobs > 0
  {
    var k, q := w.jobs[id].owner, w.jobs[id].queue;
    TotalUpdate(w.jobs, id, w.jobs[id], k, QueueRunJobs(q));
    assert w.accounts[k].usage.Count(QueueRunJobs(q)) == Total(w.jobs, k, QueueRunJobs(q));
  }

  lemma EndCounts(k: Key, r: Record, u: Usage, m: Metric)
    requires r.owner == k && r.state == Run && (r.queue != "" ==> u.In(r.queue).curRunJobs > 0)
    ensures u.DropActive().DropRun(r.queue, r.nnodes, r.ncores).Count(m)
         == u.Count(m) - Part(k, m, r) + Part(k, m, r.(state := Inactive))
  {
  }

  lemma CancelCounts(k: Key, r: Record, u: Usage, m: Metric)
    requires r.owner == k && r.state in {New, Depend, Priority, Sched}
    ensures var v := u.DropActive();
            (if r.state == Sched then v.DropSched(r.queue, r.nnodes, r.ncores) else v).Count(m)
            == u.Count(m) - Part(k, m, r) + Part(k, m, r.(state := Inactive))
  {
  }

  lemma FinishIsSound(full: bool, w: World, id: nat)
    requires Sound(full, w) && id < |w.jobs| && w.jobs[id].state != Inactive
    ensures Sound(full, FinishedOnly(w, id))
  {
    var r, k := w.jobs[id], w.jobs[id].owner;
    var a, r' := w.accounts[k], r.(state := Inactive);
    var after := FinishedOnly(w, id).accounts[k];
    forall m | full || m == ActiveJobs
      ensures after.usage.Count(m) == a.usage.Count(m) - Part(k, m, r) + Part(k, m, r')
    {
      if r.state != Run {
        CancelCounts(k, r, a.usage, m);
      } else if full {
        if r.queue != "" {
          GuardHolds(w, id);
        }
        EndCounts(k, r, a.usage, m);
      }
    }
    if r.state == Run {
      OnlyDependHeld(w.jobs, id, k, a.held);
    } else {
      NotHeldKeeps(w.jobs, k, a.held, id);
    }
    HeldStays(w.jobs, id, r', k, after.held);
    AccountFollows(full, w, id, r', k, after.usage, after.held);
  }

  lemma LoadIsSound(full: bool, w: World, k: Key, active: bool, queues: seq<string>, projects: seq<string>,
                    limits: Limits)
    requires Sound(full, w)
    ensures Sound(full, Loaded(w, k, active, queues, projects, limits))
  {
    if k !in w.accounts {
      forall m ensures NO_USAGE.Count(m) == Total(w.jobs, k, m) {
        NoJobsNoTotal(w.jobs, k, m);
      }
    }
  }

  lemma {:induction false} NoJobsNoTotal(jobs: seq<Record>, k: Key, m: Metric)
    requires forall i | 0 <= i < |jobs| :: jobs[i].owner != k
    ensures Total(jobs, k, m) == 0
  {
    if jobs != [] {
      NoJobsNoTotal(jobs[..|jobs| - 1], k, m);
    }
  }

  /** Moving a job that is not held to another bank. */
  lemma MoveIsSound(full: bool, w: World, id: nat, to: Key)
    requires Sound(full, w) && Possible(full, w, UpdateBank(id, to))
    ensures Sound(full, BankUpdated(w, id, to))
  {
    var from := w.jobs[id].owner;
    if AcceptsMove(w, to) && from != to {
      var r' := w.jobs[id].(owner := to);
      var w' := BankUpdated(w, id, to);
      forall k | k in w.accounts
        ensures Exact(full, w'.jobs, k, w'.accounts[k].usage) && AllHeldRight(w'.jobs, k, w'.accounts[k].held)
      {
        MovedStaysExact(full, w, id, to, k);
        MovedStaysHeld(w, id, r', k);
      }
    }
  }

  lemma MovedStaysExact(full: bool, w: World, id: nat, to: Key, k: Key)
    requires Owned(w) && id < |w.jobs| && AcceptsMove(w, to) && w.jobs[id].owner != to && k in w.accounts
    requires Exact(full, w.jobs, k, w.accounts[k].usage)
    requires w.jobs[id].state != Inactive && (full ==> w.jobs[id].state in {New, Depend, Priority})
    ensures var w' := BankUpdated(w, id, to); Exact(full, w'.jobs, k, w'.accounts[k].usage)
  {
    var r, w' := w.jobs[id].(owner := to), BankUpdated(w, id, to);
    StaysExact(full, w.jobs, id, r, k, w.accounts[k].usage, w'.accounts[k].usage);
  }

  lemma MovedStaysHeld(w: World, id: nat, r: Record, k: Key)
    requires id < |w.jobs| && k in w.accounts && AllHeldRight(w.jobs, k, w.accounts[k].held) && !IsHeld(w, id)
    ensures AllHeldRight(w.jobs[id := r], k, w.accounts[k].held)
  {
    assert !Holds(w.accounts[k], id);
    HeldStays(w.jobs, id, r, k, w.accounts[k].held);
  }

  /** Counters are exact after every event. */
  lemma StepIsSound(full: bool, w: World, e: Event)
    requires Sound(full, w) && Possible(full, w, e)
    ensures Sound(full, Step(w, e))
  {
    match e
    case Submit(k, q, p, nnodes, ncores) => SubmitIsSound(full, w, k, q, p, nnodes, ncores);
    case EnterDepend(id) => DependIsSound(full, w, id);
    case EnterPriority(id) => PriorityIsSound(full, w, id);
    case EnterSched(id) => SchedIsSound(full, w, id);
    case Start(id, fates) =>
      StartIsSound(full, w, id);
      ReleaseIsSound(full, StartedOnly(w, id), w.jobs[id].owner, fates);
    case Finish(id, fates) =>
      FinishIsSound(full, w, id);
      if w.jobs[id].PriorityPosted() {
        ReleaseIsSound(full, FinishedOnly(w, id), w.jobs[id].owner, fates);
      }
    case Reprioritize(order, fates) => RevisitIsSound(full, w, order, fates);
    case LoadAssociation(k, active, queues, projects, limits) =>
      LoadIsSound(full, w, k, active, queues, projects, limits);
    case LoadQueues(_) | LoadProjects(_) | Configure(_) =>
    case UpdateBank(id, to) => MoveIsSound(full, w, id, to);
  }
}
