/// The priority plugin as a state machine: the accounts it keeps, the jobs of
/// the workload manager, and what each callback makes of them.

module PluginWorld {
  import opened JobRecords
  import opened UsageLimits
  import opened ReleasePass
  import opened Ledger

  /** What the plugin knows of an association. */
  datatype Account = Account(active: bool, queues: seq<string>, projects: seq<string>, limits: Limits, usage: Usage,
                             held: seq<Job>)

  const NO_ACCOUNT := Account(true, [], [], Limits(0, 0, 0, 0, 0), NO_USAGE, [])

  datatype World = World(accounts: map<Key, Account>, queues: map<string, Queue>, projects: seq<string>,
                         denyUnknownQueues: bool, jobs: seq<Record>)
  {
    /** Account k with new usage and held jobs. */
    function Put(k: Key, u: Usage, held: seq<Job>): World
      requires k in accounts
    {
      this.(accounts := accounts[k := accounts[k].(usage := u, held := held)])
    }

    function SetState(id: nat, s: State): World
      requires id < |jobs|
    {
      this.(jobs := jobs[id := jobs[id].(state := s)])
    }
  }

  /** All dependencies, in the order in which a new job is checked. */
  const DEPS: seq<Dep> := [QueueMRJ, QueueMSJ, QueueMSN, QueueMSC, QueueMRES, AssocMRJ, AssocMSJ, AssocMRES]

  // ----- callbacks -----

  /** Whether the association may use the queue; a queue the plugin does not
      know, or none at all, is no obstacle. */
  predicate QueueAllowed(w: World, a: Account, q: string)
  {
    q != "" && q in w.queues ==> q in a.queues
  }

  /** The project a job names, if it names one. */
  datatype Project = Unnamed | Named(project: string)

  /** A named project must be known and one of the association's. */
  predicate ProjectAllowed(w: World, a: Account, p: Project)
  {
    p.Named? ==> p.project in w.projects && p.project in a.projects
  }

  predicate BelowActiveLimit(a: Account)
  {
    !(a.limits.maxActiveJobs > 0 && a.usage.curActiveJobs >= a.limits.maxActiveJobs)
  }

  /** Whether a submitted job is accepted. */
  predicate Accepts(w: World, k: Key, q: string, p: Project, nnodes: nat, ncores: nat)
  {
    && k in w.accounts
    && var a := w.accounts[k];
    && a.active
    && (w.denyUnknownQueues && q != "" ==> q in w.queues)
    && QueueAllowed(w, a, q) && ProjectAllowed(w, a, p)
    && BelowActiveLimit(a)
    && (q in w.queues ==> nnodes <= w.queues[q].maxNodesPerAssoc)
    && nnodes <= a.limits.maxNodes && ncores <= a.limits.maxCores
  }

  /** A job is submitted: validated and, if accepted, counted as active. */
  function Submitted(w: World, k: Key, q: string, p: Project, nnodes: nat, ncores: nat): World
  {
    if !Accepts(w, k, q, p, nnodes, ncores) then w
    else
      var a := w.accounts[k];
      w.Put(k, a.usage.AddActive(), a.held).(jobs := w.jobs + [Record(k, q, nnodes, ncores, New)])
  }

  /** A held job's entry. */
  function HeldJob(w: World, id: nat, deps: seq<Dep>): Job
    requires id < |w.jobs|
  {
    Job(id, deps, w.jobs[id].nnodes, w.jobs[id].ncores, w.jobs[id].queue)
  }

  /** The dependencies a job gets when it enters DEPEND. */
  function NewDeps(w: World, id: nat): seq<Dep>
    requires id < |w.jobs| && w.jobs[id].owner in w.accounts
  {
    var a := w.accounts[w.jobs[id].owner];
    Kept(Rules(a.limits, w.queues, map[]), a.usage, NOTHING_PENDING, HeldJob(w, id, []), DEPS)
  }

  function Depended(w: World, id: nat): World
    requires id < |w.jobs| && w.jobs[id].owner in w.accounts
  {
    var k := w.jobs[id].owner;
    var a, deps := w.accounts[k], NewDeps(w, id);
    w.Put(k, a.usage, if deps == [] then a.held else a.held + [HeldJob(w, id, deps)]).SetState(id, Depend)
  }

  function Scheduled(w: World, id: nat): World
    requires id < |w.jobs| && w.jobs[id].owner in w.accounts
  {
    var r := w.jobs[id];
    var a := w.accounts[r.owner];
    w.Put(r.owner, a.usage.AddSched(r.queue, r.nnodes, r.ncores), a.held).SetState(id, Sched)
  }

  /** The job is there and waits in DEPEND; only such a job can be relieved of a
      dependency. */
  predicate Waits(w: World, id: nat)
  {
    id < |w.jobs| && w.jobs[id].state == Depend && w.jobs[id].owner in w.accounts
  }

  /** Its last dependency is gone: the job goes where its fate takes it.  In SCHED
      it counts for the association it belongs to now. */
  function LetGo(w: World, id: nat, fate: State): World
    requires Waits(w, id)
  {
    if fate == Sched then Scheduled(w, id) else w.SetState(id, fate)
  }

  /** The rest of a pass over the held jobs of association k.  The pass ends where
      a job would lose a dependency that cannot be removed. */
  function PassOver(w: World, k: Key, fates: map<nat, State>, p: Pending, kept: seq<Job>, todo: seq<Job>): (w': World)
    requires k in w.accounts
    ensures w'.accounts.Keys == w.accounts.Keys && |w'.jobs| == |w.jobs|
    decreases |todo|
  {
    if todo == [] then w.Put(k, w.accounts[k].usage, kept)
    else
      var job, u, rules := todo[0], w.accounts[k].usage, Rules(w.accounts[k].limits, w.queues, fates);
      var left := Kept(rules, u, p, job, job.deps);
      if left == job.deps then PassOver(w, k, fates, p, kept + [job], todo[1..])
      else if !Waits(w, job.id) then w.Put(k, u, kept + todo)
      else if left != [] then PassOver(w, k, fates, p, kept + [job.(deps := left)], todo[1..])
      else
        var fate := rules.Fate(job.id);
        PassOver(LetGo(w, job.id, fate), k, fates, Commit(p, job, fate == Sched), kept, todo[1..])
  }

  /** One pass over the held jobs of association k. */
  function Released(w: World, k: Key, fates: map<nat, State>): (w': World)
    requires k in w.accounts
    ensures w'.accounts.Keys == w.accounts.Keys && |w'.jobs| == |w.jobs|
  {
    PassOver(w, k, fates, NOTHING_PENDING, [], w.accounts[k].held)
  }

  /** The same for held jobs that are held rightly, in terms of the association's
      own counters. */
  function AfterPass(w: World, k: Key, rules: Rules, end: Round): World
    requires k in w.accounts
  {
    w.Put(k, end.usage, end.kept).(jobs := Moved(w.jobs, rules, end.released))
  }

  /** One pass over the held jobs of each association in turn that has any. */
  function Revisited(w: World, order: seq<Key>, fates: map<nat, State>): (w': World)
    requires forall i | 0 <= i < |order| :: order[i] in w.accounts
    ensures w'.accounts.Keys == w.accounts.Keys && |w'.jobs| == |w.jobs|
  {
    if order == [] then w else RevisitedOne(Revisited(w, order[..|order| - 1], fates), order[|order| - 1], fates)
  }

  function RevisitedOne(w: World, k: Key, fates: map<nat, State>): World
    requires k in w.accounts
  {
    if w.accounts[k].held == [] then w else Released(w, k, fates)
  }

  /** A scheduled job starts: its resources move from SCHED to RUN, then held
      jobs are looked at. */
  function Started(w: World, id: nat, fates: map<nat, State>): World
    requires id < |w.jobs| && w.jobs[id].owner in w.accounts
  {
    Released(StartedOnly(w, id), w.jobs[id].owner, fates)
  }

  function StartedOnly(w: World, id: nat): World
    requires id < |w.jobs| && w.jobs[id].owner in w.accounts
  {
    var r := w.jobs[id];
    var a := w.accounts[r.owner];
    var u := a.usage.AddRun(r.queue, r.nnodes, r.ncores).DropSched(r.queue, r.nnodes, r.ncores);
    w.Put(r.owner, u, a.held).SetState(id, Run)
  }

  function NotHeld(held: seq<Job>, id: nat): seq<Job>
  {
    if held == [] then [] else (if held[0].id == id then [] else [held[0]]) + NotHeld(held[1..], id)
  }

  /** A job becomes inactive: a running one gives its resources back, a scheduled
      one its place in SCHED, and either lets held jobs be looked at; any other
      one is no longer held. */
  function Finished(w: World, id: nat, fates: map<nat, State>): World
    requires id < |w.jobs| && w.jobs[id].owner in w.accounts
  {
    var r := w.jobs[id];
    var w' := FinishedOnly(w, id);
    if r.PriorityPosted() then Released(w', r.owner, fates) else w'
  }

  function FinishedOnly(w: World, id: nat): World
    requires id < |w.jobs| && w.jobs[id].owner in w.accounts
  {
    var r := w.jobs[id];
    var a := w.accounts[r.owner];
    var u := a.usage.DropActive();
    (if r.AllocPosted() then w.Put(r.owner, u.DropRun(r.queue, r.nnodes, r.ncores), a.held)
     else if r.PriorityPosted() then w.Put(r.owner, u.DropSched(r.queue, r.nnodes, r.ncores), NotHeld(a.held, id))
     else w.Put(r.owner, u, NotHeld(a.held, id))).SetState(id, Inactive)
  }

  /** New data about an association: limits change, counters stay. */
  function Loaded(w: World, k: Key, active: bool, queues: seq<string>, projects: seq<string>, limits: Limits): World
  {
    var a := if k in w.accounts then w.accounts[k] else NO_ACCOUNT;
    w.(accounts := w.accounts[k := a.(active := active, queues := queues, projects := projects, limits := limits)])
  }

  /** Whether a job may be moved to another bank of its user. */
  predicate AcceptsMove(w: World, to: Key)
  {
    && to in w.accounts && BelowActiveLimit(w.accounts[to])
    && !(w.accounts[to].limits.maxRunJobs > 0 && w.accounts[to].usage.curRunJobs == w.accounts[to].limits.maxRunJobs)
  }

  /** A job is moved to another bank: only the counts of active jobs follow. */
  function BankUpdated(w: World, id: nat, to: Key): World
    requires id < |w.jobs| && w.jobs[id].owner in w.accounts
  {
    var from := w.jobs[id].owner;
    if !AcceptsMove(w, to) || from == to then w
    else
      var w1 := w.Put(from, w.accounts[from].usage.DropActive(), w.accounts[from].held);
      var w2 := w1.Put(to, w1.accounts[to].usage.AddActive(), w1.accounts[to].held);
      w2.(jobs := w.jobs[id := w.jobs[id].(owner := to)])
  }

  // ----- events -----

  datatype Event =
    | Submit(k: Key, q: string, p: Project, nnodes: nat, ncores: nat)
    | EnterDepend(id: nat)
    | EnterPriority(id: nat)
    | EnterSched(id: nat)
    | Start(id: nat, fates: map<nat, State>)
    | Finish(id: nat, fates: map<nat, State>)
    | Reprioritize(order: seq<Key>, fates: map<nat, State>)
    | LoadAssociation(k: Key, active: bool, queues: seq<string>, projects: seq<string>, limits: Limits)
    | LoadQueues(known: map<string, Queue>)
    | LoadProjects(projects: seq<string>)
    | Configure(denyUnknownQueues: bool)
    | UpdateBank(id: nat, to: Key)

  predicate Holds(a: Account, id: nat)
  {
    exists i :: 0 <= i < |a.held| && a.held[i].id == id
  }

  /** Some association holds the job. */
  ghost predicate IsHeld(w: World, id: nat)
  {
    exists k :: k in w.accounts && Holds(w.accounts[k], id)
  }

  /** The order names every association once. */
  predicate EachOnce(w: World, order: seq<Key>)
  {
    && (forall i | 0 <= i < |order| :: order[i] in w.accounts)
    && (forall i, j | 0 <= i < j < |order| :: order[i] != order[j])
    && (forall k | k in w.accounts :: k in order)
  }

  /** When the workload manager can deliver an event.  A job that carries a
      dependency does not leave DEPEND. */
  ghost predicate Deliverable(w: World, e: Event)
  {
    match e
    case Submit(_, _, _, _, _) | LoadAssociation(_, _, _, _, _) => true
    case LoadQueues(_) | LoadProjects(_) | Configure(_) => true
    case Reprioritize(order, _) => EachOnce(w, order)
    case EnterDepend(id) => id < |w.jobs| && w.jobs[id].state == New
    case EnterPriority(id) =>
      id < |w.jobs| && w.jobs[id].state == Depend && !IsHeld(w, id)
    case EnterSched(id) => id < |w.jobs| && w.jobs[id].state == Priority
    case Start(id, _) => id < |w.jobs| && w.jobs[id].state == Sched
    case Finish(id, _) => id < |w.jobs| && w.jobs[id].state != Inactive
    case UpdateBank(id, _) => id < |w.jobs| && w.jobs[id].state != Inactive
  }

  /** The events under which held jobs stay held rightly: bank updates of held
      jobs are excluded, and, when all counters are at stake, those of scheduled
      or running jobs. */
  ghost predicate Possible(full: bool, w: World, e: Event)
  {
    && Deliverable(w, e)
    && (e.UpdateBank? ==> !IsHeld(w, e.id) && (full ==> w.jobs[e.id].state in {New, Depend, Priority}))
  }

  /** Every job's association has an account. */
  predicate Owned(w: World)
  {
    forall i | 0 <= i < |w.jobs| :: w.jobs[i].owner in w.accounts
  }

  function Step(w: World, e: Event): World
    requires Owned(w) && Deliverable(w, e)
  {
    match e
    case Submit(k, q, p, nnodes, ncores) => Submitted(w, k, q, p, nnodes, ncores)
    case EnterDepend(id) => Depended(w, id)
    case EnterPriority(id) => w.SetState(id, Priority)
    case EnterSched(id) => Scheduled(w, id)
    case Start(id, fates) => Started(w, id, fates)
    case Finish(id, fates) => Finished(w, id, fates)
    case Reprioritize(order, fates) => Revisited(w, order, fates)
    case LoadAssociation(k, active, queues, projects, limits) => Loaded(w, k, active, queues, projects, limits)
    case LoadQueues(known) => w.(queues := known)
    case LoadProjects(known) => w.(projects := known)
    case Configure(deny) => w.(denyUnknownQueues := deny)
    case UpdateBank(id, to) => BankUpdated(w, id, to)
  }

  /** Counters agree with the jobs, and held jobs are held rightly.  With `full`
      this is about every counter, otherwise about active jobs only. */
  ghost predicate Sound(full: bool, w: World)
  {
    && Owned(w)
    && (forall k | k in w.accounts :: Exact(full, w.jobs, k, w.accounts[k].usage))
    && (forall k | k in w.accounts :: AllHeldRight(w.jobs, k, w.accounts[k].held))
  }
}
