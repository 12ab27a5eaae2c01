/// Whole-run safety of a single limit on what an association has scheduled.
///
/// The setting: one limit alone holds jobs back, and a job that nothing holds
/// back reaches SCHED at once.

module SingleLimit {
  import opened JobRecords
  import opened UsageLimits
  import opened ReleasePass
  import opened ReleaseBounds
  import opened Ledger
  import opened PluginWorld
  import opened PluginInvariant
  import opened PluginRuns

  datatype Move =
    | Submission(k: Key, q: string, p: Project, nnodes: nat, ncores: nat)
    | Arrival(id: nat)                        // enters DEPEND and, if nothing holds it, SCHED
    | Begin(id: nat, fates: map<nat, State>)
    | End(id: nat, fates: map<nat, State>)
    | Recheck(order: seq<Key>, fates: map<nat, State>)

  function Events(w: World, v: Move): seq<Event>
    requires Owned(w) && (v.Arrival? ==> v.id < |w.jobs|)
  {
    match v
    case Submission(k, q, p, nnodes, ncores) => [Submit(k, q, p, nnodes, ncores)]
    case Arrival(id) =>
      if NewDeps(w, id) == [] then [EnterDepend(id), EnterPriority(id), EnterSched(id)] else [EnterDepend(id)]
    case Begin(id, fates) => [Start(id, fates)]
    case End(id, fates) => [Finish(id, fates)]
    case Recheck(order, fates) => [Reprioritize(order, fates)]
  }

  /** Every job would be scheduled at once. */
  predicate AllAtOnce(w: World, fates: map<nat, State>)
  {
    forall i | 0 <= i < |w.jobs| :: i in fates && fates[i] == Sched
  }

  /** The move can happen, schedules released jobs at once, and brings no
      dependency but d. */
  predicate Allowed(d: Dep, w: World, v: Move)
  {
    && Owned(w)
    && match v
       case Submission(_, _, _, _, _) => true
       case Arrival(id) => id < |w.jobs| && w.jobs[id].state == New && forall e | e in NewDeps(w, id) :: e == d
       case Begin(id, fates) => id < |w.jobs| && w.jobs[id].state == Sched && AllAtOnce(w, fates)
       case End(id, fates) => id < |w.jobs| && w.jobs[id].state != Inactive && AllAtOnce(w, fates)
       case Recheck(order, fates) => EachOnce(w, order) && AllAtOnce(w, fates)
  }

  function Result(w: World, v: Move): World
    requires Owned(w) && (v.Arrival? || v.Begin? || v.End? ==> v.id < |w.jobs|)
    requires v.Recheck? ==> EachOnce(w, v.order)
  {
    match v
    case Submission(k, q, p, nnodes, ncores) => Submitted(w, k, q, p, nnodes, ncores)
    case Arrival(id) =>
      var w' := Depended(w, id);
      if NewDeps(w, id) == [] then Scheduled(w', id) else w'
    case Begin(id, fates) => Started(w, id, fates)
    case End(id, fates) => Finished(w, id, fates)
    case Recheck(order, fates) => Revisited(w, order, fates)
  }

  /** A move is a run of the plugin's events. */
  lemma MoveIsRun(d: Dep, w: World, v: Move)
    requires Sound(true, w) && Allowed(d, w, v)
    ensures CanHappen(true, w, Events(w, v)) && After(true, w, Events(w, v)) == Result(w, v)
  {
    if v.Arrival? && NewDeps(w, v.id) == [] {
      ArrivalIsRun(w, v.id);
    } else {
      var e := Events(w, v)[0];
      assert Events(w, v)[1..] == [];
      assert CanHappen(true, Step(w, e), []);
    }
  }

  /** A new job is held nowhere, and still is not when it has met no limit. */
  lemma NotHeldAnywhere(w: World, w1: World, id: nat)
    requires Sound(true, w) && id < |w.jobs| && w.jobs[id].state == New && w1.accounts.Keys == w.accounts.Keys
    requires forall l | l in w.accounts :: w1.accounts[l].held == w.accounts[l].held
    ensures !IsHeld(w1, id)
  {
    forall l | l in w.accounts ensures !Holds(w1.accounts[l], id) {
      OnlyDependHeld(w.jobs, id, l, w.accounts[l].held);
    }
  }

  lemma ArrivalIsRun(w: World, id: nat)
    requires Sound(true, w) && id < |w.jobs| && w.jobs[id].state == New && NewDeps(w, id) == []
    ensures var es := [EnterDepend(id), EnterPriority(id), EnterSched(id)];
            CanHappen(true, w, es) && After(true, w, es) == Scheduled(Depended(w, id), id)
  {
    var k := w.jobs[id].owner;
    var w1 := Depended(w, id);
    DependIsSound(true, w, id);
    OnlyDependHeld(w.jobs, id, k, w.accounts[k].held);
    assert w1.accounts[k].held == w.accounts[k].held;
    NotHeldAnywhere(w, w1, id);
    var w2 := w1.SetState(id, Priority);
    PriorityIsSound(true, w1, id);
    var w3 := Scheduled(w2, id);
    assert w3.jobs == Scheduled(w1, id).jobs && w3.accounts == Scheduled(w1, id).accounts;
    var es := [EnterDepend(id), EnterPriority(id), EnterSched(id)];
    assert es == [EnterDepend(id)] + ([EnterPriority(id)] + ([EnterSched(id)] + []));
    OneEventMore(w2, EnterSched(id), []);
    OneEventMore(w1, EnterPriority(id), [EnterSched(id)] + []);
    OneEventMore(w, EnterDepend(id), [EnterPriority(id)] + ([EnterSched(id)] + []));
  }

  lemma OneEventMore(w: World, e: Event, es: seq<Event>)
    requires Owned(w) && Possible(true, w, e) && CanHappen(true, Step(w, e), es)
    ensures CanHappen(true, w, [e] + es) && After(true, w, [e] + es) == After(true, Step(w, e), es)
  {
    assert ([e] + es)[1..] == es;
  }

  /** The level of the limit behind d in account k and queue q. */
  function LevelOf(d: Dep, a: Account, q: string): int
  {
    Level(d, a.usage, NOTHING_PENDING, q)
  }

  function RulesOf(w: World, a: Account): Rules
  {
    Rules(a.limits, w.queues, map[])
  }

  /** Account a keeps the limit behind d, and only d holds its jobs. */
  ghost predicate Keeps(d: Dep, w: World, a: Account)
  {
    && (forall q | Limited(d, w.queues, q) :: LevelOf(d, a, q) <= Limit(d, RulesOf(w, a), q))
    && (forall i, e | 0 <= i < |a.held| && e in a.held[i].deps :: e == d)
  }

  ghost predicate Guarded(d: Dep, w: World)
  {
    forall k | k in w.accounts :: Keeps(d, w, w.accounts[k])
  }

  /** When one account changes, only that one needs to be looked at. */
  lemma OneAccountChanges(d: Dep, w: World, w': World, k: Key, a: Account)
    requires Guarded(d, w) && w'.queues == w.queues && w'.accounts == w.accounts[k := a]
    requires Keeps(d, w', a)
    ensures Guarded(d, w')
  {
    forall l | l in w'.accounts ensures Keeps(d, w', w'.accounts[l]) {
      if l != k {
        assert Keeps(d, w, w.accounts[l]);
      }
    }
  }

  /** Levels of limits on scheduled jobs do not depend on active jobs. */
  lemma SubmissionGuarded(d: Dep, w: World, v: Move)
    requires OnScheduled(d) && v.Submission? && Allowed(d, w, v) && Guarded(d, w)
    ensures Guarded(d, Result(w, v))
  {
    if Accepts(w, v.k, v.q, v.p, v.nnodes, v.ncores) {
      var a := w.accounts[v.k];
      assert Keeps(d, w, a);
      var a' := a.(usage := a.usage.AddActive());
      assert forall q :: LevelOf(d, a', q) == LevelOf(d, a, q);
      assert Keeps(d, Result(w, v), a');
      OneAccountChanges(d, w, Result(w, v), v.k, a');
    }
  }

  /** A job that meets no dependency fits under the limit. */
  lemma ArrivalKeeps(d: Dep, w: World, id: nat, q: string)
    requires OnScheduled(d) && Owned(w) && id < |w.jobs| && NewDeps(w, id) == [] && Limited(d, w.queues, q)
    requires LevelOf(d, w.accounts[w.jobs[id].owner], q) <= Limit(d, RulesOf(w, w.accounts[w.jobs[id].owner]), q)
    ensures var r := w.jobs[id]; var a := w.accounts[r.owner];
            Level(d, a.usage.AddSched(r.queue, r.nnodes, r.ncores), NOTHING_PENDING, q) <= Limit(d, RulesOf(w, a), q)
  {
    var r := w.jobs[id];
    var a := w.accounts[r.owner];
    assert d in DEPS && d !in NewDeps(w, id);
    if Limited(d, w.queues, r.queue) {
      UnderIsRoom(d, RulesOf(w, a), a.usage, NOTHING_PENDING, HeldJob(w, id, []));
    }
  }

  lemma ArrivalGuarded(d: Dep, w: World, id: nat)
    requires OnScheduled(d) && Allowed(d, w, Arrival(id)) && Guarded(d, w)
    ensures Guarded(d, Result(w, Arrival(id)))
  {
    var r, w' := w.jobs[id], Result(w, Arrival(id));
    var a, a' := w.accounts[r.owner], w'.accounts[r.owner];
    assert Keeps(d, w, a);
    if NewDeps(w, id) == [] {
      assert a' == a.(usage := a.usage.AddSched(r.queue, r.nnodes, r.ncores));
      forall q | Limited(d, w.queues, q) ensures LevelOf(d, a', q) <= Limit(d, RulesOf(w, a'), q) {
        ArrivalKeeps(d, w, id, q);
      }
    }
    assert Keeps(d, w', a');
    OneAccountChanges(d, w, w', r.owner, a');
  }

  /** Leaving SCHED, for RUN or for good, raises no level. */
  lemma LeavingLowers(d: Dep, u: Usage, r: Record, q: string)
    requires OnScheduled(d)
    ensures Level(d, u.AddRun(r.queue, r.nnodes, r.ncores).DropSched(r.queue, r.nnodes, r.ncores), NOTHING_PENDING, q)
         <= Level(d, u, NOTHING_PENDING, q)
    ensures Level(d, u.DropActive().DropRun(r.queue, r.nnodes, r.ncores), NOTHING_PENDING, q)
         <= Level(d, u, NOTHING_PENDING, q)
    ensures Level(d, u.DropActive().DropSched(r.queue, r.nnodes, r.ncores), NOTHING_PENDING, q)
         <= Level(d, u, NOTHING_PENDING, q)
    ensures Level(d, u.DropActive(), NOTHING_PENDING, q) == Level(d, u, NOTHING_PENDING, q)
  {
  }

  lemma StartGuarded(d: Dep, w: World, id: nat)
    requires OnScheduled(d) && Owned(w) && id < |w.jobs| && Guarded(d, w)
    ensures Guarded(d, StartedOnly(w, id))
  {
    var r := w.jobs[id];
    var a, a' := w.accounts[r.owner], StartedOnly(w, id).accounts[r.owner];
    assert Keeps(d, w, a);
    forall q | Limited(d, w.queues, q) ensures LevelOf(d, a', q) <= Limit(d, RulesOf(w, a'), q) {
      LeavingLowers(d, a.usage, r, q);
    }
    assert Keeps(d, StartedOnly(w, id), a');
    OneAccountChanges(d, w, StartedOnly(w, id), r.owner, a');
  }

  lemma {:induction false} NotHeldMembers(held: seq<Job>, id: nat)
    ensures forall i | 0 <= i < |NotHeld(held, id)| :: NotHeld(held, id)[i] in held
  {
    if held != [] {
      NotHeldMembers(held[1..], id);
    }
  }

  lemma FinishGuarded(d: Dep, w: World, id: nat)
    requires OnScheduled(d) && Owned(w) && id < |w.jobs| && Guarded(d, w)
    ensures Guarded(d, FinishedOnly(w, id))
  {
    var r := w.jobs[id];
    var a, a' := w.accounts[r.owner], FinishedOnly(w, id).accounts[r.owner];
    assert Keeps(d, w, a);
    forall q | Limited(d, w.queues, q) ensures LevelOf(d, a', q) <= Limit(d, RulesOf(w, a'), q) {
      LeavingLowers(d, a.usage, r, q);
    }
    NotHeldMembers(a.held, id);
    forall i, e | 0 <= i < |a'.held| && e in a'.held[i].deps ensures e == d {
      assert a'.held[i] in a.held;
    }
    assert Keeps(d, FinishedOnly(w, id), a');
    OneAccountChanges(d, w, FinishedOnly(w, id), r.owner, a');
  }

  /** A kept job's dependencies are among those it had. */
  lemma {:induction false} KeptDeps(rules: Rules, r: Round, todo: seq<Job>, d: Dep)
    requires forall i, e | 0 <= i < |r.kept| && e in r.kept[i].deps :: e == d
    requires forall i, e | 0 <= i < |todo| && e in todo[i].deps :: e == d
    ensures forall i, e | 0 <= i < |Pass(rules, r, todo).kept| && e in Pass(rules, r, todo).kept[i].deps :: e == d
    decreases |todo|
  {
    if todo != [] {
      KeptDeps(rules, Visit(rules, r, todo[0]), todo[1..], d);
    }
  }

  lemma ReleaseGuarded(d: Dep, w: World, k: Key, fates: map<nat, State>)
    requires OnScheduled(d) && Sound(true, w) && k in w.accounts && Guarded(d, w) && AllAtOnce(w, fates)
    ensures Guarded(d, Released(w, k, fates))
  {
    var a := w.accounts[k];
    var rules := Rules(a.limits, w.queues, fates);
    assert Keeps(d, w, a);
    forall i | 0 <= i < |a.held| ensures rules.Fate(a.held[i].id) == Sched && d in a.held[i].deps {
      assert HeldRight(w.jobs, k, a.held[i]);
      assert a.held[i].deps[0] in a.held[i].deps;
    }
    var w' := Released(w, k, fates);
    ReleasedIsPass(w, k, fates);
    forall q | Limited(d, w.queues, q) ensures LevelOf(d, w'.accounts[k], q) <= Limit(d, RulesOf(w, a), q) {
      SameLimits(d, rules, RulesOf(w, a), q);
      PassKeepsLimit(rules, StartPass(a.usage), a.held, d, q);
    }
    KeptDeps(rules, StartPass(a.usage), a.held, d);
    assert Keeps(d, w', w'.accounts[k]);
    OneAccountChanges(d, w, w', k, w'.accounts[k]);
  }

  lemma {:induction false} RevisitGuarded(d: Dep, w: World, order: seq<Key>, fates: map<nat, State>)
    requires OnScheduled(d) && Sound(true, w) && Guarded(d, w) && AllAtOnce(w, fates)
    requires forall i | 0 <= i < |order| :: order[i] in w.accounts
    ensures Guarded(d, Revisited(w, order, fates))
  {
    if order != [] {
      var init, k := order[..|order| - 1], order[|order| - 1];
      RevisitGuarded(d, w, init, fates);
      RevisitIsSound(true, w, init, fates);
      ReleaseGuarded(d, Revisited(w, init, fates), k, fates);
    }
  }

  lemma SameLimits(d: Dep, rules: Rules, other: Rules, q: string)
    requires other == rules.(fates := other.fates) && Limited(d, rules.queues, q)
    ensures Limit(d, rules, q) == Limit(d, other, q)
  {
  }

  lemma MoveGuarded(d: Dep, w: World, v: Move)
    requires OnScheduled(d) && Sound(true, w) && Guarded(d, w) && Allowed(d, w, v)
    ensures Guarded(d, Result(w, v))
  {
    match v
    case Submission(_, _, _, _, _) => SubmissionGuarded(d, w, v);
    case Arrival(id) => ArrivalGuarded(d, w, id);
    case Begin(id, fates) =>
      StartIsSound(true, w, id);
      StartGuarded(d, w, id);
      ReleaseGuarded(d, StartedOnly(w, id), w.jobs[id].owner, fates);
    case End(id, fates) =>
      FinishIsSound(true, w, id);
      FinishGuarded(d, w, id);
      if w.jobs[id].PriorityPosted() {
        ReleaseGuarded(d, FinishedOnly(w, id), w.jobs[id].owner, fates);
      }
    case Recheck(order, fates) => RevisitGuarded(d, w, order, fates);
  }

  ghost predicate AllAllowed(d: Dep, w: World, vs: seq<Move>)
    decreases |vs|
  {
    vs == [] || (Allowed(d, w, vs[0]) && AllAllowed(d, Result(w, vs[0]), vs[1..]))
  }

  ghost function Outcome(d: Dep, w: World, vs: seq<Move>): World
    requires AllAllowed(d, w, vs)
    decreases |vs|
  {
    if vs == [] then w else Outcome(d, Result(w, vs[0]), vs[1..])
  }

  /** In terms of jobs: what the limit behind d caps, for association k in queue q. */
  function Committed(d: Dep, jobs: seq<Record>, k: Key, q: string): nat
    requires OnScheduled(d)
  {
    match d
    case QueueMSJ => Total(jobs, k, QueueSchedJobs(q))
    case QueueMSN => Total(jobs, k, QueueSchedNodes(q))
    case QueueMSC => Total(jobs, k, QueueSchedCores(q))
    case QueueMRES => Total(jobs, k, QueueNodes(q)) + Total(jobs, k, QueueSchedNodes(q))
    case AssocMSJ => Total(jobs, k, SchedJobs)
  }

  lemma LevelIsCommitted(d: Dep, w: World, k: Key, q: string)
    requires OnScheduled(d) && Sound(true, w) && k in w.accounts
    ensures LevelOf(d, w.accounts[k], q) == Committed(d, w.jobs, k, q)
  {
    var u := w.accounts[k].usage;
    assert Exact(true, w.jobs, k, u);
    assert u.Count(QueueSchedJobs(q)) == Total(w.jobs, k, QueueSchedJobs(q));
    assert u.Count(QueueSchedNodes(q)) == Total(w.jobs, k, QueueSchedNodes(q));
    assert u.Count(QueueSchedCores(q)) == Total(w.jobs, k, QueueSchedCores(q));
    assert u.Count(QueueNodes(q)) == Total(w.jobs, k, QueueNodes(q));
    assert u.Count(SchedJobs) == Total(w.jobs, k, SchedJobs);
  }

  lemma {:induction false} StaysGuarded(d: Dep, w: World, vs: seq<Move>)
    requires OnScheduled(d) && Sound(true, w) && Guarded(d, w) && AllAllowed(d, w, vs)
    ensures Sound(true, Outcome(d, w, vs)) && Guarded(d, Outcome(d, w, vs))
    decreases |vs|
  {
    if vs != [] {
      MoveIsRun(d, w, vs[0]);
      CountersStayExact(true, w, Events(w, vs[0]));
      MoveGuarded(d, w, vs[0]);
      StaysGuarded(d, Result(w, vs[0]), vs[1..]);
    }
  }

  /** Whole-run safety: in every reachable state the jobs themselves keep the
      limit, for every association and every queue it limits. */
  lemma LimitHoldsThroughout(d: Dep, w: World, vs: seq<Move>, k: Key, q: string)
    requires OnScheduled(d) && Sound(true, w) && Guarded(d, w) && AllAllowed(d, w, vs)
    requires var end := Outcome(d, w, vs); k in end.accounts && Limited(d, end.queues, q)
    ensures var end := Outcome(d, w, vs);
            Committed(d, end.jobs, k, q) <= Limit(d, RulesOf(end, end.accounts[k]), q)
  {
    StaysGuarded(d, w, vs);
    var end := Outcome(d, w, vs);
    assert Keeps(d, end, end.accounts[k]);
    LevelIsCommitted(d, end, k, q);
  }

  // ----- two limits at once -----

  const SOMEBODY := Key(1, "bank")

  function SmallJob(s: State): Record
  {
    Record(SOMEBODY, "", 1, 1, s)
  }

  function WaitingJob(id: nat): Job
  {
    Job(id, [AssocMRJ], 1, 1, "")
  }

  /** Up to two running jobs and one scheduled job. */
  const TWO_AND_ONE := Limits(2, 0, 1, 100, 100)

  function OnlyAccount(u: Usage, held: seq<Job>, jobs: seq<Record>): World
  {
    World(map[SOMEBODY := Account(true, [], [], TWO_AND_ONE, u, held)], map[], [], false, jobs)
  }

  /** Two jobs run, two wait for one of them to end. */
  function TwoWaiting(u: Usage): World
  {
    OnlyAccount(u, [WaitingJob(2), WaitingJob(3)], Four(Run, Run, Depend, Depend))
  }

  /** Usage once one job has ended and another has reached SCHED. */
  function Next(u: Usage): Usage
  {
    u.DropActive().DropRun("", 1, 1).AddSched("", 1, 1)
  }

  function Four(a: State, b: State, c: State, d: State): seq<Record>
  {
    [SmallJob(a), SmallJob(b), SmallJob(c), SmallJob(d)]
  }

  const AT_ONCE: map<nat, State> := map[0 := Sched, 1 := Sched, 2 := Sched, 3 := Sched]

  lemma TotalOfFour(a: Record, b: Record, c: Record, d: Record, k: Key, m: Metric)
    ensures Total([a, b, c, d], k, m) == Part(k, m, a) + Part(k, m, b) + Part(k, m, c) + Part(k, m, d)
  {
    assert [] + [a] == [a] && [a] + [b] == [a, b] && [a, b] + [c] == [a, b, c] && [a, b, c] + [d] == [a, b, c, d];
    TotalAppend([], a, k, m);
    TotalAppend([a], b, k, m);
    TotalAppend([a, b], c, k, m);
    TotalAppend([a, b, c], d, k, m);
  }

  lemma TwoWaitingIsSound(u: Usage)
    requires u == Usage(2, 4, 0, 2, 2, map[])
    ensures Sound(true, TwoWaiting(u))
  {
    var w := TwoWaiting(u);
    forall m ensures u.Count(m) == Total(w.jobs, SOMEBODY, m) {
      TotalOfFour(SmallJob(Run), SmallJob(Run), SmallJob(Depend), SmallJob(Depend), SOMEBODY, m);
    }
    assert AllHeldRight(w.jobs, SOMEBODY, w.accounts[SOMEBODY].held);
  }

  lemma OnlyAccountPut(u: Usage, held: seq<Job>, jobs: seq<Record>, u': Usage, held': seq<Job>)
    ensures OnlyAccount(u, held, jobs).Put(SOMEBODY, u', held') == OnlyAccount(u', held', jobs)
  {
  }

  /** A job ends, and held jobs are looked at. */
  lemma JobEnds(u: Usage, held: seq<Job>, jobs: seq<Record>, id: nat)
    requires id < |jobs| && jobs[id] == SmallJob(Run) && forall i | 0 <= i < |jobs| :: jobs[i].owner == SOMEBODY
    ensures Result(OnlyAccount(u, held, jobs), End(id, AT_ONCE))
         == PassOver(OnlyAccount(u.DropActive().DropRun("", 1, 1), held, jobs[id := SmallJob(Inactive)]), SOMEBODY,
                     AT_ONCE, NOTHING_PENDING, [], held)
  {
    OnlyAccountPut(u, held, jobs, u.DropActive().DropRun("", 1, 1), held);
  }

  /** A held job reaches SCHED at once if fewer than two jobs run or are about to. */
  lemma HeldJobGoes(u: Usage, held: seq<Job>, jobs: seq<Record>, p: Pending, kept: seq<Job>, id: nat, rest: seq<Job>)
    requires id < |jobs| && jobs[id] == SmallJob(Depend) && id in AT_ONCE && u.curRunJobs + p.assocRun < 2
    ensures PassOver(OnlyAccount(u, held, jobs), SOMEBODY, AT_ONCE, p, kept, [WaitingJob(id)] + rest)
         == PassOver(OnlyAccount(u.AddSched("", 1, 1), held, jobs[id := SmallJob(Sched)]), SOMEBODY, AT_ONCE,
                     Commit(p, WaitingJob(id), true), kept, rest)
  {
    var w, rules := OnlyAccount(u, held, jobs), Rules(TWO_AND_ONE, map[], AT_ONCE);
    assert Kept(rules, u, p, WaitingJob(id), [AssocMRJ][1..]) == [];
    assert ([WaitingJob(id)] + rest)[1..] == rest;
    assert AT_ONCE[id] == Sched;
    OnlyAccountPut(u, held, jobs, u.AddSched("", 1, 1), held);
  }

  /** Otherwise it stays. */
  lemma HeldJobStays(u: Usage, held: seq<Job>, jobs: seq<Record>, p: Pending, kept: seq<Job>, id: nat, rest: seq<Job>)
    requires u.curRunJobs + p.assocRun >= 2
    ensures PassOver(OnlyAccount(u, held, jobs), SOMEBODY, AT_ONCE, p, kept, [WaitingJob(id)] + rest)
         == PassOver(OnlyAccount(u, held, jobs), SOMEBODY, AT_ONCE, p, kept + [WaitingJob(id)], rest)
  {
    var rules := Rules(TWO_AND_ONE, map[], AT_ONCE);
    assert Kept(rules, u, p, WaitingJob(id), [AssocMRJ][1..]) == [];
    assert Kept(rules, u, p, WaitingJob(id), [AssocMRJ]) == [AssocMRJ];
    assert ([WaitingJob(id)] + rest)[1..] == rest;
  }

  lemma PassEnds(u: Usage, held: seq<Job>, jobs: seq<Record>, p: Pending, kept: seq<Job>)
    ensures PassOver(OnlyAccount(u, held, jobs), SOMEBODY, AT_ONCE, p, kept, []) == OnlyAccount(u, kept, jobs)
  {
    OnlyAccountPut(u, held, jobs, u, kept);
  }

  lemma OneGoes(u: Usage, held: seq<Job>, jobs: seq<Record>)
    requires u.curRunJobs == 1 && held == [WaitingJob(2), WaitingJob(3)] && jobs == Four(Inactive, Run, Depend, Depend)
    ensures PassOver(OnlyAccount(u, held, jobs), SOMEBODY, AT_ONCE, NOTHING_PENDING, [], held)
         == OnlyAccount(u.AddSched("", 1, 1), [WaitingJob(3)], Four(Inactive, Run, Sched, Depend))
  {
    var v, after, p := u.AddSched("", 1, 1), jobs[2 := SmallJob(Sched)], Commit(NOTHING_PENDING, WaitingJob(2), true);
    assert held == [WaitingJob(2)] + [WaitingJob(3)] && [WaitingJob(3)] == [WaitingJob(3)] + [] == [] + [WaitingJob(3)];
    HeldJobGoes(u, held, jobs, NOTHING_PENDING, [], 2, [WaitingJob(3)]);
    HeldJobStays(v, held, after, p, [], 3, []);
    PassEnds(v, held, after, p, [WaitingJob(3)]);
    assert after == Four(Inactive, Run, Sched, Depend);
  }

  lemma OtherGoes(u: Usage, held: seq<Job>, jobs: seq<Record>)
    requires u.curRunJobs == 0 && held == [WaitingJob(3)] && jobs == Four(Inactive, Inactive, Sched, Depend)
    ensures PassOver(OnlyAccount(u, held, jobs), SOMEBODY, AT_ONCE, NOTHING_PENDING, [], held)
         == OnlyAccount(u.AddSched("", 1, 1), [], Four(Inactive, Inactive, Sched, Sched))
  {
    var after := jobs[3 := SmallJob(Sched)];
    assert held == [WaitingJob(3)] + [];
    HeldJobGoes(u, held, jobs, NOTHING_PENDING, [], 3, []);
    PassEnds(u.AddSched("", 1, 1), held, after, Commit(NOTHING_PENDING, WaitingJob(3), true), []);
    assert after == Four(Inactive, Inactive, Sched, Sched);
  }

  /** An allowed move leads from one world to the other. */
  ghost predicate Leads(d: Dep, w: World, v: Move, w': World)
  {
    Allowed(d, w, v) && Result(w, v) == w'
  }

  lemma EndIsAllowed(u: Usage, held: seq<Job>, jobs: seq<Record>, id: nat)
    requires |jobs| == 4 && (forall i | 0 <= i < 4 :: jobs[i].owner == SOMEBODY) && id < 4 && jobs[id].state != Inactive
    ensures Allowed(AssocMSJ, OnlyAccount(u, held, jobs), End(id, AT_ONCE))
  {
  }

  /** The first job ends: one held job gets its place. */
  lemma FirstEnds(u: Usage) returns (leads: bool)
    requires u.curRunJobs == 2
    ensures leads && leads
         == Leads(AssocMSJ, OnlyAccount(u, [WaitingJob(2), WaitingJob(3)], Four(Run, Run, Depend, Depend)),
                  End(0, AT_ONCE), OnlyAccount(Next(u), [WaitingJob(3)], Four(Inactive, Run, Sched, Depend)))
  {
    var held, jobs := [WaitingJob(2), WaitingJob(3)], Four(Run, Run, Depend, Depend);
    EndIsAllowed(u, held, jobs, 0);
    JobEnds(u, held, jobs, 0);
    assert jobs[0 := SmallJob(Inactive)] == Four(Inactive, Run, Depend, Depend);
    OneGoes(u.DropActive().DropRun("", 1, 1), held, jobs[0 := SmallJob(Inactive)]);
    leads := Leads(AssocMSJ, OnlyAccount(u, held, jobs), End(0, AT_ONCE),
                   OnlyAccount(Next(u), [WaitingJob(3)], Four(Inactive, Run, Sched, Depend)));
  }

  /** The second job ends: the other one does too, while the first is still in SCHED. */
  lemma SecondEnds(u: Usage) returns (leads: bool)
    requires u.curRunJobs == 1
    ensures leads && leads
         == Leads(AssocMSJ, OnlyAccount(u, [WaitingJob(3)], Four(Inactive, Run, Sched, Depend)), End(1, AT_ONCE),
                  OnlyAccount(Next(u), [], Four(Inactive, Inactive, Sched, Sched)))
  {
    var held, jobs := [WaitingJob(3)], Four(Inactive, Run, Sched, Depend);
    EndIsAllowed(u, held, jobs, 1);
    JobEnds(u, held, jobs, 1);
    assert jobs[1 := SmallJob(Inactive)] == Four(Inactive, Inactive, Sched, Depend);
    OtherGoes(u.DropActive().DropRun("", 1, 1), held, jobs[1 := SmallJob(Inactive)]);
    leads := Leads(AssocMSJ, OnlyAccount(u, held, jobs), End(1, AT_ONCE),
                   OnlyAccount(Next(u), [], Four(Inactive, Inactive, Sched, Sched)));
  }

  lemma TwoMoves(d: Dep, w: World, v: Move, w1: World, v1: Move, w2: World, first: bool, second: bool)
      returns (run: bool)
    requires first && first == Leads(d, w, v, w1) && second && second == Leads(d, w1, v1, w2)
    ensures run && run == LeadsTo(d, w, [v, v1], w2)
  {
    assert [v, v1][1..] == [v1] && [v1][1..] == [];
    assert AllAllowed(d, w2, []) && AllAllowed(d, w1, [v1]);
    assert Outcome(d, w2, []) == w2 && Outcome(d, w1, [v1]) == w2;
    run := LeadsTo(d, w, [v, v1], w2);
  }

  /** Allowed moves lead from one world to the other. */
  ghost predicate LeadsTo(d: Dep, w: World, vs: seq<Move>, w': World)
  {
    AllAllowed(d, w, vs) && Outcome(d, w, vs) == w'
  }

  lemma BothEnd(u: Usage) returns (run: bool)
    requires u.curRunJobs == 2
    ensures run && run
         == LeadsTo(AssocMSJ, OnlyAccount(u, [WaitingJob(2), WaitingJob(3)], Four(Run, Run, Depend, Depend)),
                    [End(0, AT_ONCE), End(1, AT_ONCE)],
                    OnlyAccount(Next(Next(u)), [], Four(Inactive, Inactive, Sched, Sched)))
  {
    var first := FirstEnds(u);
    var second := SecondEnds(Next(u));
    run := TwoMoves(AssocMSJ, OnlyAccount(u, [WaitingJob(2), WaitingJob(3)], Four(Run, Run, Depend, Depend)),
                    End(0, AT_ONCE), OnlyAccount(Next(u), [WaitingJob(3)], Four(Inactive, Run, Sched, Depend)),
                    End(1, AT_ONCE), OnlyAccount(Next(Next(u)), [], Four(Inactive, Inactive, Sched, Sched)), first,
                    second);
  }

  lemma SchedOfFour(a: State, b: State, c: State, d: State)
    ensures Total(Four(a, b, c, d), SOMEBODY, SchedJobs)
            == One(a == Sched) + One(b == Sched) + One(c == Sched) + One(d == Sched)
  {
    TotalOfFour(SmallJob(a), SmallJob(b), SmallJob(c), SmallJob(d), SOMEBODY, SchedJobs);
  }

  /** Association k has more jobs in SCHED than it may. */
  predicate TooManyScheduled(w: World, k: Key)
  {
    k in w.accounts && Total(w.jobs, k, SchedJobs) > w.accounts[k].limits.maxSchedJobs
  }

  lemma TooManyOf(u: Usage, held: seq<Job>, jobs: seq<Record>)
    ensures TooManyScheduled(OnlyAccount(u, held, jobs), SOMEBODY) <==> Total(jobs, SOMEBODY, SchedJobs) > 1
  {
  }

  lemma TooManyOfFour(u: Usage, held: seq<Job>, a: State, b: State, c: State, d: State)
    ensures TooManyScheduled(OnlyAccount(u, held, Four(a, b, c, d)), SOMEBODY)
       <==> One(a == Sched) + One(b == Sched) + One(c == Sched) + One(d == Sched) > 1
  {
    TooManyOf(u, held, Four(a, b, c, d));
    SchedOfFour(a, b, c, d);
  }

  /** A sound state within both limits. */
  lemma TwoLimitsStart(u: Usage)
    requires u == Usage(2, 4, 0, 2, 2, map[])
    ensures Sound(true, TwoWaiting(u)) && !TooManyScheduled(TwoWaiting(u), SOMEBODY)
  {
    TwoWaitingIsSound(u);
    TooManyOfFour(u, [WaitingJob(2), WaitingJob(3)], Run, Run, Depend, Depend);
  }

  lemma TooManyInTheEnd(u: Usage)
    ensures TooManyScheduled(OnlyAccount(u, [], Four(Inactive, Inactive, Sched, Sched)), SOMEBODY)
  {
    TooManyOfFour(u, [], Inactive, Inactive, Sched, Sched);
  }

  lemma BothEndThere(u: Usage, w: World, end: World)
    requires u.curRunJobs == 2 && w == TwoWaiting(u)
    requires end == OnlyAccount(Next(Next(u)), [], Four(Inactive, Inactive, Sched, Sched))
    ensures LeadsTo(AssocMSJ, w, [End(0, AT_ONCE), End(1, AT_ONCE)], end)
  {
    var run := BothEnd(u);
  }

  /** With two limits the theorem is false: held jobs that carry only the dependency
      on running jobs leave two jobs in SCHED where one is allowed. */
  lemma TwoLimitsFail(u: Usage) returns (end: World)
    requires u == Usage(2, 4, 0, 2, 2, map[])
    ensures LeadsTo(AssocMSJ, TwoWaiting(u), [End(0, AT_ONCE), End(1, AT_ONCE)], end) && TooManyScheduled(end, SOMEBODY)
  {
    end := OnlyAccount(Next(Next(u)), [], Four(Inactive, Inactive, Sched, Sched));
    BothEndThere(u, TwoWaiting(u), end);
    TooManyInTheEnd(Next(Next(u)));
  }
}
