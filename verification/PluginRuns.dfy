/// What holds over whole runs of the plugin.

module PluginRuns {
  import opened JobRecords
  import opened UsageLimits
  import opened Ledger
  import opened PluginWorld
  import opened PluginInvariant

  /** The events can happen one after the other. */
  ghost predicate CanHappen(full: bool, w: World, es: seq<Event>)
    decreases |es|
  {
    es == [] || (Owned(w) && Possible(full, w, es[0]) && CanHappen(full, Step(w, es[0]), es[1..]))
  }

  ghost function After(full: bool, w: World, es: seq<Event>): World
    requires CanHappen(full, w, es)
    decreases |es|
  {
    if es == [] then w else After(full, Step(w, es[0]), es[1..])
  }

  /** Over every run, in whatever order the events come, every counter of every
      association equals the total over its jobs, and held jobs are distinct jobs
      in DEPEND state with something to wait for. */
  lemma {:induction false} CountersStayExact(full: bool, w: World, es: seq<Event>)
    requires Sound(full, w) && CanHappen(full, w, es)
    ensures Sound(full, After(full, w, es))
    decreases |es|
  {
    if es != [] {
      StepIsSound(full, w, es[0]);
      CountersStayExact(full, Step(w, es[0]), es[1..]);
    }
  }

  // ----- which bank updates do harm -----

  /** A held job's entry stays with the association that held it. */
  lemma HeldMoveHarms(w: World, id: nat, to: Key)
    requires Sound(true, w) && id < |w.jobs| && IsHeld(w, id) && AcceptsMove(w, to) && w.jobs[id].owner != to
    ensures !Sound(true, BankUpdated(w, id, to))
  {
    var k :| k in w.accounts && Holds(w.accounts[k], id);
    var held := w.accounts[k].held;
    var i :| 0 <= i < |held| && held[i].id == id;
    assert HeldRight(w.jobs, k, held[i]);
    assert !HeldRight(BankUpdated(w, id, to).jobs, k, held[i]);
    assert BankUpdated(w, id, to).accounts[k].held == held;
  }

  /** What a scheduled or running job adds up to stays with its old association. */
  lemma CountedMoveHarms(w: World, id: nat, to: Key)
    requires Sound(true, w) && id < |w.jobs| && w.jobs[id].PriorityPosted()
    requires AcceptsMove(w, to) && w.jobs[id].owner != to
    ensures !Sound(true, BankUpdated(w, id, to))
  {
    var w', m := BankUpdated(w, id, to), if w.jobs[id].state == Run then RunJobs else SchedJobs;
    TotalUpdate(w.jobs, id, w'.jobs[id], to, m);
    assert w.accounts[to].usage.Count(m) == Total(w.jobs, to, m);
    assert w'.accounts[to].usage.Count(m) != Total(w'.jobs, to, m);
    assert !Exact(true, w'.jobs, to, w'.accounts[to].usage);
  }

  /** A bank update leaves counters and held jobs right exactly if it changes
      nothing, or the job is neither held nor scheduled nor running. */
  lemma BankUpdateExactly(w: World, id: nat, to: Key)
    requires Sound(true, w) && Deliverable(w, UpdateBank(id, to))
    ensures Sound(true, BankUpdated(w, id, to))
       <==> BankUpdated(w, id, to) == w || (!IsHeld(w, id) && !w.jobs[id].PriorityPosted())
  {
    if AcceptsMove(w, to) && w.jobs[id].owner != to {
      assert BankUpdated(w, id, to).jobs[id] != w.jobs[id];
      if IsHeld(w, id) {
        HeldMoveHarms(w, id, to);
      } else if w.jobs[id].PriorityPosted() {
        CountedMoveHarms(w, id, to);
      } else {
        MoveIsSound(true, w, id, to);
      }
    }
  }

  /** The events after which counters and held jobs still are right are exactly the
      possible ones and those that change nothing. */
  lemma SoundExactly(w: World, e: Event)
    requires Sound(true, w) && Deliverable(w, e)
    ensures Sound(true, Step(w, e)) <==> Possible(true, w, e) || Step(w, e) == w
  {
    if Possible(true, w, e) {
      StepIsSound(true, w, e);
    } else {
      BankUpdateExactly(w, e.id, e.to);
    }
  }
}
