/// The usage update as it works on the tables.

module UsageTables {
  import opened UsageDecay
  import opened JobUsage

  function ListFor(byKey: map<Key, seq<JobRecord>>, k: Key): seq<JobRecord>
  {
    if k in byKey then byKey[k] else []
  }

  /** The new jobs among the first n records, by association. */
  function Grouped(t: Tables, n: nat): map<Key, seq<JobRecord>>
    requires n <= |t.jobs|
  {
    if n == 0 then map[]
    else
      var byKey, r := Grouped(t, n - 1), t.jobs[n - 1];
      if IsNew(t, r) then byKey[r.key := ListFor(byKey, r.key) + [r]] else byKey
  }

  lemma GroupedNext(t: Tables, k: Key, n: nat)
    requires n < |t.jobs|
    ensures ListFor(Grouped(t, n + 1), k)
         == if t.jobs[n].key == k && IsNew(t, t.jobs[n]) then ListFor(Grouped(t, n), k) + [t.jobs[n]]
            else ListFor(Grouped(t, n), k)
  {
  }

  lemma {:induction false} GroupsAreNewJobs(t: Tables, k: Key, n: nat)
    requires n <= |t.jobs|
    ensures ListFor(Grouped(t, n), k) == NewJobs(t, k, n)
  {
    if n != 0 {
      GroupsAreNewJobs(t, k, n - 1);
      GroupedNext(t, k, n - 1);
      NewJobsSnoc(t, k, n - 1);
    }
  }

  datatype Option<T> = None | Some(value: T)

  function Clearing(b: string, cutoff: Option<int>, now: real): Event
  {
    Clear(b, if cutoff.Some? then cutoff.value else now.Floor)
  }

  /** Clearing several banks, each at its time. */
  function Clearings(banks: seq<string>, cutoff: Option<int>, clock: seq<real>): (es: seq<Event>)
    requires |clock| == |banks|
    ensures |es| == |banks| && forall i | 0 <= i < |banks| :: es[i] == Clearing(banks[i], cutoff, clock[i])
  {
    seq(|banks|, i requires 0 <= i < |banks| => Clearing(banks[i], cutoff, clock[i]))
  }

  lemma ClearingsNext(banks: seq<string>, cutoff: Option<int>, clock: seq<real>, i: nat)
    requires |clock| == |banks| && i < |banks|
    ensures Clearings(banks[..i + 1], cutoff, clock[..i + 1])
         == Clearings(banks[..i], cutoff, clock[..i]) + [Clearing(banks[i], cutoff, clock[i])]
  {
  }

  lemma {:induction false} RunSnoc(t: Tables, es: seq<Event>, e: Event)
    requires HasBins(t)
    ensures Run(t, es + [e]) == Step(Run(t, es), e)
    decreases |es|
  {
    if es == [] {
      assert [] + [e] == [e] && [e][1..] == [];
    } else {
      assert (es + [e])[0] == es[0] && (es + [e])[1..] == es[1..] + [e];
      RunSnoc(Step(t, es[0]), es[1..], e);
    }
  }

  class UsageDb {
    var jobs: seq<JobRecord>
    var accounts: map<Key, Account>
    var ignoreOlderThan: map<string, real>
    const reconfigured: real
    const weights: Weights

    constructor (accounts: map<Key, Account>, ignoreOlderThan: map<string, real>, reconfigured: real,
                 weights: Weights)
      ensures this.accounts == accounts && jobs == [] && this.ignoreOlderThan == ignoreOlderThan
      ensures this.reconfigured == reconfigured && this.weights == weights
    {
      this.jobs, this.accounts := [], accounts;
      this.ignoreOlderThan, this.reconfigured, this.weights := ignoreOlderThan, reconfigured, weights;
    }

    ghost function View(): Tables
      reads this
    {
      Tables(jobs, accounts, ignoreOlderThan, reconfigured, Tariff(weights))
    }

    /** A job record comes in. */
    method InsertJob(r: JobRecord)
      requires HasBins(View())
      modifies `jobs
      ensures View() == Step(old(View()), Insert(r))
    {
      jobs := jobs + [r];
    }

    method SetBin(k: Key, i: nat, v: real)
      requires k in accounts && i < |accounts[k].bins|
      modifies `accounts
      ensures accounts == old(accounts)[k := old(accounts)[k].(bins := old(accounts)[k].bins[i := v])]
    {
      accounts := accounts[k := accounts[k].(bins := accounts[k].bins[i := v])];
    }

    method SetJobUsage(k: Key, v: real)
      requires k in accounts
      modifies `accounts
      ensures accounts == old(accounts)[k := old(accounts)[k].(jobUsage := v)]
    {
      accounts := accounts[k := accounts[k].(jobUsage := v)];
    }

    /** Move every bin on by one half-life, from the oldest to the most recent;
        the oldest is dropped and the current one emptied.  The result is what is
        left in all but the current one. */
    method ApplyDecayFactor(k: Key, decay: real) returns (past: real)
      requires k in accounts && accounts[k].bins != []
      modifies `accounts
      ensures accounts == old(accounts)[k := old(accounts)[k].(bins := Shifted(old(accounts)[k].bins, decay))]
      ensures past == Sum(accounts[k].bins[1..])
    {
      var periods := accounts[k].bins;
      ghost var target := Shifted(periods, decay);
      var i := |periods|;
      while i > 0
        invariant 0 <= i <= |periods| && k in accounts && |accounts[k].bins| == |periods|
        invariant accounts == old(accounts)[k := old(accounts)[k].(bins := accounts[k].bins)]
        invariant forall j | 0 <= j < |periods| :: accounts[k].bins[j] == if i < j then target[j] else periods[j]
      {
        i := i - 1;
        if i + 1 < |periods| {
          var value := periods[i] * decay;
          assert value == target[i + 1];
          SetBin(k, i + 1, value);
        }
      }
      SetBin(k, 0, 0.0);
      assert accounts[k].bins == target;
      past := SumBins(accounts[k].bins[1..]);
    }

    method SumBins(bins: seq<real>) returns (total: real)
      ensures total == Sum(bins)
    {
      total := 0.0;
      for i := 0 to |bins|
        invariant total == Sum(bins[..i])
      {
        assert bins[..i + 1][..i] == bins[..i];
        total := total + bins[i];
      }
      assert bins[..|bins|] == bins;
    }

    /** What new jobs are charged, and when the latest of them ended. */
    method ChargeJobs(userJobs: seq<JobRecord>, watermark: real) returns (charges: real, latest: real)
      ensures charges == Charges(Tariff(weights), userJobs) && latest == Latest(userJobs, watermark)
    {
      charges, latest := 0.0, watermark;
      for i := 0 to |userJobs|
        invariant charges == Charges(Tariff(weights), userJobs[..i]) && latest == Latest(userJobs[..i], watermark)
      {
        assert userJobs[..i + 1][..i] == userJobs[..i];
        charges := charges + Rounded(WeightedTime(weights, userJobs[i]));
        if userJobs[i].tInactive > latest {
          latest := userJobs[i].tInactive;
        }
      }
      assert userJobs[..|userJobs|] == userJobs;
    }

    /** No new jobs in a new half-life. */
    method Decay(k: Key, decay: real)
      requires k in accounts && accounts[k].bins != []
      modifies `accounts
      ensures accounts == old(accounts)[k := Updated(old(accounts)[k], Decayed, 0.0, decay)]
    {
      var past := ApplyDecayFactor(k, decay);
      SetBin(k, 0, 0.0);
      SetJobUsage(k, past);
    }

    /** New jobs in a new half-life. */
    method AddAfterDecay(k: Key, current: real, decay: real)
      requires k in accounts && accounts[k].bins != []
      modifies `accounts
      ensures accounts == old(accounts)[k := Updated(old(accounts)[k], GrownAfterDecay, current, decay)]
    {
      var past := ApplyDecayFactor(k, decay);
      SetBin(k, 0, current + past);
      SetJobUsage(k, current + past);
    }

    /** New jobs in the current half-life go into the current bin. */
    method AddToCurrent(k: Key, current: real, ghost decay: real)
      requires k in accounts && accounts[k].bins != []
      modifies `accounts
      ensures accounts == old(accounts)[k := Updated(old(accounts)[k], Grown, current, decay)]
    {
      var bins := accounts[k].bins;
      var older := SumBins(bins[1..]);
      SetBin(k, 0, current + bins[0]);
      SetJobUsage(k, current + bins[0] + older);
    }

    /** Update one association from its new jobs. */
    method CalcUsageFactor(k: Key, userJobs: seq<JobRecord>, h: HalfLife, now: Clock)
      requires k in accounts && accounts[k].bins != []
      modifies `accounts
      ensures accounts == old(accounts)[k := Outcome(old(accounts)[k], Tariff(weights), userJobs, h, now)]
    {
      var current, latest := ChargeJobs(userJobs, accounts[k].watermark);
      accounts := accounts[k := accounts[k].(watermark := latest)];
      if userJobs == [] && h.end > now.first - h.period {
        return;
      } else if userJobs == [] && h.end < now.second - h.period {
        Decay(k, h.decay);
      } else if (if userJobs != [] then latest else 0.0) - h.end < h.period {
        AddToCurrent(k, current, h.decay);
      } else {
        AddAfterDecay(k, current, h.decay);
      }
    }

    /** Whether a job is new. */
    method Selects(r: JobRecord) returns (ok: bool)
      ensures ok == IsNew(View(), r)
    {
      if r.key !in accounts || r.key.bank !in ignoreOlderThan || r.resources.Unreadable? {
        return false;
      }
      ok := r.tInactive > accounts[r.key].watermark && r.tInactive > ignoreOlderThan[r.key.bank]
            && r.tInactive > reconfigured;
    }

    /** Sort the new jobs by association. */
    method NewJobsByAssociation() returns (byKey: map<Key, seq<JobRecord>>)
      ensures byKey == Grouped(View(), |jobs|)
    {
      byKey := map[];
      for i := 0 to |jobs|
        invariant byKey == Grouped(View(), i)
      {
        var r := jobs[i];
        var isNew := Selects(r);
        if isNew {
          byKey := byKey[r.key := ListFor(byKey, r.key) + [r]];
        }
      }
    }

    /** Update one association from the lists of new jobs. */
    method UpdateOne(k: Key, byKey: map<Key, seq<JobRecord>>, h: HalfLife, now: Clock, ghost t: Tables)
      requires k in accounts && k in t.accounts && accounts[k] == t.accounts[k] && t.accounts[k].bins != []
      requires t.charge == Tariff(weights) && byKey == Grouped(t, |t.jobs|)
      modifies `accounts
      ensures accounts == old(accounts)[k := UpdatedAccount(t, k, h, now)]
    {
      GroupsAreNewJobs(t, k, |t.jobs|);
      CalcUsageFactor(k, ListFor(byKey, k), h, now);
    }

    /** Update every association. */
    method UpdateJobUsage(h: HalfLife, clock: Key -> Clock)
      requires HasBins(View())
      modifies `accounts
      ensures View() == Step(old(View()), Update(h, clock))
    {
      ghost var t := View();
      var byKey := NewJobsByAssociation();
      var left := accounts.Keys;
      while left != {}
        invariant left <= accounts.Keys == t.accounts.Keys
        invariant forall k | k in left :: accounts[k] == t.accounts[k]
        invariant forall k | k in t.accounts.Keys - left :: accounts[k] == UpdatedAccount(t, k, h, clock(k))
        decreases left
      {
        var k :| k in left;
        UpdateOne(k, byKey, h, clock(k), t);
        left := left - {k};
      }
      assert accounts == Step(t, Update(h, clock)).accounts;
    }

    /** One association of a cleared bank starts over. */
    method ClearAccount(k: Key)
      requires k in accounts
      modifies `accounts
      ensures accounts == old(accounts)[k := Reset(old(accounts)[k])]
    {
      var n := |accounts[k].bins|;
      accounts := accounts[k := accounts[k].(jobUsage := 0.0)];
      accounts := accounts[k := accounts[k].(fairshare := 0.5)];
      accounts := accounts[k := accounts[k].(bins := seq(n, _ => 0.0))];
      accounts := accounts[k := accounts[k].(watermark := 0.0)];
    }

    /** Clear one bank: its associations start over, and jobs that ended by the
        cutoff are ignored from now on. */
    method ClearBank(b: string, cutoff: int)
      requires HasBins(View())
      modifies `accounts, `ignoreOlderThan
      ensures View() == Step(old(View()), Clear(b, cutoff))
    {
      var left := accounts.Keys;
      while left != {}
        invariant left <= accounts.Keys == old(accounts).Keys && ignoreOlderThan == old(ignoreOlderThan)
        invariant forall k | k in old(accounts) ::
          accounts[k] == if k.bank == b && k !in left then Reset(old(accounts)[k]) else old(accounts)[k]
        decreases left
      {
        var k :| k in left;
        if k.bank == b {
          ClearAccount(k);
        }
        left := left - {k};
      }
      if b in ignoreOlderThan {
        ignoreOlderThan := ignoreOlderThan[b := cutoff as real];
      }
      assert accounts == Step(old(View()), Clear(b, cutoff)).accounts;
    }

    /** Clear a list of banks.  The cutoff is the given one, or each time the time
        of the day. */
    method ClearUsage(banks: seq<string>, cutoff: Option<int>, clock: seq<real>)
      requires HasBins(View()) && |clock| == |banks|
      modifies `accounts, `ignoreOlderThan
      ensures View() == Run(old(View()), Clearings(banks, cutoff, clock))
    {
      assert Clearings(banks[..0], cutoff, clock[..0]) == [];
      for i := 0 to |banks|
        invariant HasBins(View()) && View() == Run(old(View()), Clearings(banks[..i], cutoff, clock[..i]))
      {
        ClearingsNext(banks, cutoff, clock, i);
        RunSnoc(old(View()), Clearings(banks[..i], cutoff, clock[..i]), Clearing(banks[i], cutoff, clock[i]));
        ClearBank(banks[i], if cutoff.Some? then cutoff.value else clock[i].Floor);
      }
      assert banks[..|banks|] == banks && clock[..|banks|] == clock;
    }
  }
}
