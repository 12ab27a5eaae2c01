/// Charging job records to associations: each association has a watermark, the
/// end of the latest job charged to it, and only later jobs are new.  Clearing a
/// bank makes its associations start over from a cutoff time.

module JobUsage {
  import opened UsageDecay

  datatype Key = Key(userid: int, bank: string)

  /** What a job used; nothing is known if its resource set cannot be read. */
  datatype Resources = Unreadable | Used(nnodes: nat, ncores: nat, ngpus: nat)

  datatype JobRecord = JobRecord(key: Key, tRun: real, tInactive: real, resources: Resources)

  datatype Weights = Weights(node: real, core: real, gpu: real)

  /** An association's rows: its usage bins, its job usage, its watermark and its
      fairshare. */
  datatype Account = Account(bins: seq<real>, jobUsage: real, watermark: real, fairshare: real)

  /** The half-life settings. */
  datatype HalfLife = HalfLife(period: real, end: real, decay: real)

  /** The tables, and what a job is charged; a bank without a row charges nothing. */
  datatype Tables = Tables(jobs: seq<JobRecord>, accounts: map<Key, Account>, ignoreOlderThan: map<string, real>,
                           reconfigured: real, charge: JobRecord -> real)

  /** The nearest integer, and the even one of two that are equally near. */
  function Nearest(x: real): (n: int)
    ensures -0.5 <= n as real - x <= 0.5
    ensures n as real - x in {-0.5, 0.5} ==> n % 2 == 0
    ensures x == x.Floor as real ==> n as real == x
  {
    var n := x.Floor;
    if x - n as real < 0.5 || (x - n as real == 0.5 && n % 2 == 0) then n else n + 1
  }

  /** Rounded to five decimals. */
  function Rounded(x: real): (r: real)
    ensures -0.000005 <= r - x <= 0.000005
  {
    Nearest(x * 100000.0) as real / 100000.0
  }

  /** A job's weighted resources for as long as it ran. */
  function WeightedTime(w: Weights, r: JobRecord): real
  {
    if r.resources.Unreadable? then 0.0
    else (r.resources.nnodes as real * w.node + r.resources.ncores as real * w.core + r.resources.ngpus as real * w.gpu)
         * (r.tInactive - r.tRun)
  }

  /** The charge for a job. */
  function Tariff(w: Weights): JobRecord -> real
  {
    r => Rounded(WeightedTime(w, r))
  }

  /** Neither a bank's cutoff nor a reconfiguration hides the job. */
  predicate NotFiltered(t: Tables, r: JobRecord)
  {
    && r.resources.Used?
    && r.key.bank in t.ignoreOlderThan && r.tInactive > t.ignoreOlderThan[r.key.bank]
    && r.tInactive > t.reconfigured
  }

  /** Whether the next update charges the job. */
  predicate IsNew(t: Tables, r: JobRecord)
  {
    r.key in t.accounts && r.tInactive > t.accounts[r.key].watermark && NotFiltered(t, r)
  }

  /** The new jobs of k among the first n records. */
  function NewJobs(t: Tables, k: Key, n: nat): (js: seq<JobRecord>)
    requires n <= |t.jobs|
    ensures forall i | 0 <= i < |js| :: js[i].key == k && IsNew(t, js[i])
  {
    if n == 0 then []
    else NewJobs(t, k, n - 1) + if t.jobs[n - 1].key == k && IsNew(t, t.jobs[n - 1]) then [t.jobs[n - 1]] else []
  }

  /** What several jobs are charged. */
  function Charges(charge: JobRecord -> real, js: seq<JobRecord>): real
  {
    if js == [] then 0.0 else Charges(charge, js[..|js| - 1]) + charge(js[|js| - 1])
  }

  /** The latest end among several jobs, or m if that is later. */
  function Latest(js: seq<JobRecord>, m: real): (l: real)
    ensures m <= l && forall i | 0 <= i < |js| :: js[i].tInactive <= l
  {
    if js == [] then m
    else
      var l, r := Latest(js[..|js| - 1], m), js[|js| - 1].tInactive;
      if r > l then r else l
  }

  /** The four cases of an update of one association. */
  datatype Phase = Unchanged | Decayed | Grown | GrownAfterDecay

  /** What the clock says when an association's update looks at it, first and
      again. */
  datatype Clock = Clock(first: real, second: real)

  function PhaseOf(hasNew: bool, latest: real, h: HalfLife, now: Clock): Phase
  {
    if !hasNew && h.end > now.first - h.period then Unchanged
    else if !hasNew && h.end < now.second - h.period then Decayed
    else if (if hasNew then latest else 0.0) - h.end < h.period then Grown
    else GrownAfterDecay
  }

  /** An association's rows after an update with the given new charges. */
  function Updated(a: Account, phase: Phase, charges: real, decay: real): (b: Account)
    requires a.bins != []
    ensures |b.bins| == |a.bins|
  {
    var past := Shifted(a.bins, decay);
    match phase
    case Unchanged => a
    case Decayed => a.(bins := past[0 := 0.0], jobUsage := Sum(past[1..]))
    case Grown => a.(bins := a.bins[0 := charges + a.bins[0]], jobUsage := charges + a.bins[0] + Sum(a.bins[1..]))
    case GrownAfterDecay =>
      a.(bins := past[0 := charges + Sum(past[1..])], jobUsage := charges + Sum(past[1..]))
  }

  /** An association's rows after an update with these new jobs. */
  function Outcome(a: Account, charge: JobRecord -> real, js: seq<JobRecord>, h: HalfLife, now: Clock): (b: Account)
    requires a.bins != []
    ensures |b.bins| == |a.bins|
  {
    var latest := Latest(js, a.watermark);
    Updated(a, PhaseOf(js != [], latest, h, now), Charges(charge, js), h.decay).(watermark := latest)
  }

  /** Account k after an update. */
  function UpdatedAccount(t: Tables, k: Key, h: HalfLife, now: Clock): (b: Account)
    requires k in t.accounts && t.accounts[k].bins != []
    ensures |b.bins| == |t.accounts[k].bins|
  {
    Outcome(t.accounts[k], t.charge, NewJobs(t, k, |t.jobs|), h, now)
  }

  /** Every association has its bins. */
  predicate HasBins(t: Tables)
  {
    forall k | k in t.accounts :: t.accounts[k].bins != []
  }

  /** An association's rows once its bank is cleared. */
  function Reset(a: Account): (b: Account)
    ensures |b.bins| == |a.bins| && forall i | 0 <= i < |b.bins| :: b.bins[i] == 0.0
  {
    Account(seq(|a.bins|, _ => 0.0), 0.0, 0.0, 0.5)
  }

  /** The cutoffs once one bank's is set; a bank without a row gets none. */
  function WithCutoff(cutoffs: map<string, real>, b: string, cutoff: int): (r: map<string, real>)
    ensures r.Keys == cutoffs.Keys
    ensures forall c | c in r :: r[c] == if c == b then cutoff as real else cutoffs[c]
  {
    if b in cutoffs then cutoffs[b := cutoff as real] else cutoffs
  }

  /** A record comes in, all associations are updated, or one bank is cleared: its
      associations start over, and jobs that ended by the cutoff are ignored. */
  datatype Event = Insert(r: JobRecord) | Update(h: HalfLife, clock: Key -> Clock) | Clear(bank: string, cutoff: int)

  function Step(t: Tables, e: Event): (s: Tables)
    requires HasBins(t)
    ensures HasBins(s) && t.jobs <= s.jobs && s.accounts.Keys == t.accounts.Keys && s.charge == t.charge
  {
    match e
    case Insert(r) => t.(jobs := t.jobs + [r])
    case Update(h, clock) => t.(accounts := map k | k in t.accounts :: UpdatedAccount(t, k, h, clock(k)))
    case Clear(b, cutoff) =>
      t.(accounts := map k | k in t.accounts :: if k.bank == b then Reset(t.accounts[k]) else t.accounts[k],
         ignoreOlderThan := WithCutoff(t.ignoreOlderThan, b, cutoff))
  }

  function Run(t: Tables, es: seq<Event>): (s: Tables)
    requires HasBins(t)
    ensures HasBins(s) && t.jobs <= s.jobs && s.accounts.Keys == t.accounts.Keys && s.charge == t.charge
    decreases |es|
  {
    if es == [] then t else Run(Step(t, es[0]), es[1..])
  }

  // ----- how often a job is charged -----

  /** Whether event e charges record id. */
  predicate ChargedBy(t: Tables, e: Event, id: nat)
  {
    e.Update? && id < |t.jobs| && IsNew(t, t.jobs[id])
  }

  predicate Clears(e: Event, b: string)
  {
    e.Clear? && e.bank == b
  }

  /** Whether bank b is cleared in a run. */
  predicate ClearedIn(es: seq<Event>, b: string)
  {
    es != [] && (Clears(es[0], b) || ClearedIn(es[1..], b))
  }

  /** Whether the first event of a run charges record id, and the charge is not
      cleared later. */
  predicate ChargedFirst(t: Tables, es: seq<Event>, id: nat)
  {
    es != [] && ChargedBy(t, es[0], id) && !ClearedIn(es[1..], t.jobs[id].key.bank)
  }

  /** How often record id is charged in a run, not counting charges that are
      cleared later. */
  function TimesCharged(t: Tables, es: seq<Event>, id: nat): nat
    requires HasBins(t)
    decreases |es|
  {
    if es == [] then 0
    else (if ChargedFirst(t, es, id) then 1 else 0) + TimesCharged(Step(t, es[0]), es[1..], id)
  }

  /** A new job is among the new jobs. */
  lemma {:induction false} NewJobListed(t: Tables, k: Key, n: nat, id: nat)
    requires n <= |t.jobs| && id < n && t.jobs[id].key == k && IsNew(t, t.jobs[id])
    ensures t.jobs[id] in NewJobs(t, k, n)
  {
    if id < n - 1 {
      NewJobListed(t, k, n - 1, id);
    }
  }

  /** After an update no job is new any more. */
  lemma NothingNewAfterUpdate(t: Tables, e: Event, id: nat)
    requires HasBins(t) && e.Update? && id < |t.jobs|
    ensures !IsNew(Step(t, e), t.jobs[id])
  {
    var r := t.jobs[id];
    if r.key in t.accounts && IsNew(t, r) {
      NewJobListed(t, r.key, |t.jobs|, id);
    }
  }

  /** Unless its bank is cleared, a job that is not new never becomes new. */
  lemma {:induction false} NeverNew(t: Tables, es: seq<Event>, id: nat)
    requires HasBins(t) && id < |t.jobs| && !IsNew(t, t.jobs[id]) && !ClearedIn(es, t.jobs[id].key.bank)
    ensures TimesCharged(t, es, id) == 0
    decreases |es|
  {
    if es != [] {
      StaysOld(t, es[0], t.jobs[id]);
      NeverNew(Step(t, es[0]), es[1..], id);
    }
  }

  lemma StaysOld(t: Tables, e: Event, r: JobRecord)
    requires HasBins(t) && !IsNew(t, r) && !Clears(e, r.key.bank)
    ensures !IsNew(Step(t, e), r)
  {
  }

  /** Over any interleaving of inserts, updates and clearings no job is charged
      twice, unless its bank was cleared in between. */
  lemma {:induction false} ChargedAtMostOnce(t: Tables, es: seq<Event>, id: nat)
    requires HasBins(t)
    ensures TimesCharged(t, es, id) <= 1
    decreases |es|
  {
    if es != [] {
      if ChargedFirst(t, es, id) {
        NothingNewAfterUpdate(t, es[0], id);
        NeverNew(Step(t, es[0]), es[1..], id);
      } else {
        ChargedAtMostOnce(Step(t, es[0]), es[1..], id);
      }
    }
  }

  /** How many events of a run there are up to the last that clears bank b. */
  function UpToLastClear(es: seq<Event>, b: string): (n: nat)
    ensures n <= |es| && (n != 0 ==> Clears(es[n - 1], b))
    ensures forall i | n <= i < |es| :: !Clears(es[i], b)
  {
    if es == [] then 0
    else if Clears(es[|es| - 1], b) then |es|
    else UpToLastClear(es[..|es| - 1], b)
  }

  /** Whether a job of an association that starts over with this cutoff is new. */
  predicate NewAfterCutoff(t: Tables, r: JobRecord, cutoff: int)
  {
    && r.resources.Used? && r.key in t.accounts && r.key.bank in t.ignoreOlderThan
    && r.tInactive > 0.0 && r.tInactive > cutoff as real && r.tInactive > t.reconfigured
  }

  predicate HasUpdate(es: seq<Event>)
  {
    exists i :: 0 <= i < |es| && es[i].Update?
  }

  /** Whether a recorded job ends up charged: there is an update after the last
      clearing of its bank, and the job is new then. */
  predicate EndsUpCharged(t: Tables, r: JobRecord, es: seq<Event>)
  {
    var n := UpToLastClear(es, r.key.bank);
    HasUpdate(es[n..]) && if n == 0 then IsNew(t, r) else NewAfterCutoff(t, r, es[n - 1].cutoff)
  }

  lemma {:induction false} NotClearedFrom(es: seq<Event>, b: string, n: nat)
    requires n <= |es| && forall i | n <= i < |es| :: !Clears(es[i], b)
    ensures !ClearedIn(es[n..], b)
    decreases |es| - n
  {
    if n < |es| {
      assert es[n..][1..] == es[n + 1..];
      NotClearedFrom(es, b, n + 1);
    }
  }

  lemma {:induction false} ClearedFrom(es: seq<Event>, b: string, i: nat)
    requires i < |es| && Clears(es[i], b)
    ensures ClearedIn(es, b)
  {
    if i != 0 {
      ClearedFrom(es[1..], b, i - 1);
    }
  }

  /** Until its bank is cleared, a new job is charged by the first update. */
  lemma {:induction false} ChargedUnlessCleared(t: Tables, es: seq<Event>, id: nat)
    requires HasBins(t) && id < |t.jobs| && !ClearedIn(es, t.jobs[id].key.bank)
    ensures TimesCharged(t, es, id) == if IsNew(t, t.jobs[id]) && HasUpdate(es) then 1 else 0
    decreases |es|
  {
    if !IsNew(t, t.jobs[id]) {
      NeverNew(t, es, id);
    } else if es != [] {
      if es[0].Update? {
        NothingNewAfterUpdate(t, es[0], id);
        NeverNew(Step(t, es[0]), es[1..], id);
      } else {
        UpdateLater(es);
        ChargedUnlessCleared(Step(t, es[0]), es[1..], id);
      }
    }
  }

  lemma UpdateLater(es: seq<Event>)
    requires es != [] && !es[0].Update?
    ensures HasUpdate(es) <==> HasUpdate(es[1..])
  {
    if i :| 0 <= i < |es| && es[i].Update? {
      assert es[1..][i - 1].Update?;
    }
    if i :| 0 <= i < |es[1..]| && es[1..][i].Update? {
      assert es[i + 1].Update?;
    }
  }

  lemma NewOnceCleared(t: Tables, e: Event, r: JobRecord)
    requires HasBins(t) && Clears(e, r.key.bank)
    ensures IsNew(Step(t, e), r) == NewAfterCutoff(t, r, e.cutoff)
  {
  }

  lemma SameCutoffs(t: Tables, e: Event, r: JobRecord, cutoff: int)
    requires HasBins(t)
    ensures NewAfterCutoff(Step(t, e), r, cutoff) == NewAfterCutoff(t, r, cutoff)
  {
  }

  lemma RunPrefix(t: Tables, es: seq<Event>, n: nat)
    requires HasBins(t) && 0 < n <= |es|
    ensures Run(t, es[..n]) == Run(Step(t, es[0]), es[1..][..n - 1]) && es[1..][n - 1..] == es[n..]
  {
    assert es[..n][1..] == es[1..][..n - 1];
  }

  /** What happened before the last clearing of its bank makes no difference to a
      job. */
  lemma {:induction false} StartsOver(t: Tables, es: seq<Event>, id: nat, n: nat)
    requires HasBins(t) && id < |t.jobs| && 0 < n <= |es| && Clears(es[n - 1], t.jobs[id].key.bank)
    ensures id < |Run(t, es[..n]).jobs| && Run(t, es[..n]).jobs[id] == t.jobs[id]
    ensures TimesCharged(t, es, id) == TimesCharged(Run(t, es[..n]), es[n..], id)
    ensures IsNew(Run(t, es[..n]), t.jobs[id]) == NewAfterCutoff(t, t.jobs[id], es[n - 1].cutoff)
    decreases n
  {
    RunPrefix(t, es, n);
    RunFirst(t, es, id);
    if n == 1 {
      NewOnceCleared(t, es[0], t.jobs[id]);
    } else {
      ClearedFrom(es[1..], t.jobs[id].key.bank, n - 2);
      StartsOver(Step(t, es[0]), es[1..], id, n - 1);
      SameCutoffs(t, es[0], t.jobs[id], es[n - 1].cutoff);
    }
  }

  /** Whether a recorded job ends up charged is plain to see from the run. */
  lemma WhoIsCharged(t: Tables, es: seq<Event>, id: nat)
    requires HasBins(t) && id < |t.jobs|
    ensures TimesCharged(t, es, id) == if EndsUpCharged(t, t.jobs[id], es) then 1 else 0
  {
    var b := t.jobs[id].key.bank;
    var n := UpToLastClear(es, b);
    NotClearedFrom(es, b, n);
    if n == 0 {
      assert es[0..] == es;
      ChargedUnlessCleared(t, es, id);
    } else {
      StartsOver(t, es, id, n);
      ChargedUnlessCleared(Run(t, es[..n]), es[n..], id);
    }
  }

  /** So right after it is inserted: it is charged, once, exactly if there is an
      update after the last clearing of its bank, and the job is readable, of a
      known association, not filtered and past its watermark then. */
  lemma InsertedIsCharged(t: Tables, r: JobRecord, es: seq<Event>)
    requires HasBins(t)
    ensures TimesCharged(Step(t, Insert(r)), es, |t.jobs|) == if EndsUpCharged(t, r, es) then 1 else 0
  {
    WhoIsCharged(Step(t, Insert(r)), es, |t.jobs|);
    InsertHidesNothing(t, r, es);
  }

  lemma InsertHidesNothing(t: Tables, r: JobRecord, es: seq<Event>)
    requires HasBins(t)
    ensures EndsUpCharged(Step(t, Insert(r)), r, es) == EndsUpCharged(t, r, es)
  {
    var n := UpToLastClear(es, r.key.bank);
    if n != 0 {
      SameCutoffs(t, Insert(r), r, es[n - 1].cutoff);
    }
  }

  /** Clearing a bank without a cutoff takes the current time in whole seconds,
      to ignore all jobs that have ended.  A job that had ended is charged again
      exactly if it ended within the current second. */
  lemma ClearedNow(t: Tables, now: real, es: seq<Event>, id: nat)
    requires HasBins(t) && id < |t.jobs| && 0.0 <= now && t.jobs[id].tInactive <= now
    requires IsKnown(t, t.jobs[id]) && t.reconfigured < t.jobs[id].tInactive && t.jobs[id].tInactive > 0.0
    requires HasUpdate(es) && !ClearedIn(es, t.jobs[id].key.bank)
    ensures TimesCharged(t, [Clear(t.jobs[id].key.bank, now.Floor)] + es, id)
         == if t.jobs[id].tInactive > now.Floor as real then 1 else 0
  {
    var e := Clear(t.jobs[id].key.bank, now.Floor);
    assert ([e] + es)[1..] == es;
    ChargedUnlessCleared(Step(t, e), es, id);
  }

  /** A readable job of an association and a bank with rows. */
  predicate IsKnown(t: Tables, r: JobRecord)
  {
    r.resources.Used? && r.key in t.accounts && r.key.bank in t.ignoreOlderThan
  }

  // ----- what the charges add up to -----

  /** The job usage of k is the sum of its bins. */
  predicate InStep(t: Tables, k: Key)
    requires k in t.accounts
  {
    t.accounts[k].jobUsage == Sum(t.accounts[k].bins)
  }

  /** No update of the run lets account k decay. */
  predicate NoDecay(t: Tables, es: seq<Event>, k: Key)
    requires HasBins(t) && k in t.accounts
    decreases |es|
  {
    es == []
    || ((es[0].Update? ==> StepPhase(t, es[0], k) in {Unchanged, Grown}) && NoDecay(Step(t, es[0]), es[1..], k))
  }

  function StepPhase(t: Tables, e: Event, k: Key): Phase
    requires e.Update? && k in t.accounts
  {
    var js := NewJobs(t, k, |t.jobs|);
    PhaseOf(js != [], Latest(js, t.accounts[k].watermark), e.h, e.clock(k))
  }

  function Times(n: nat, c: real): real
  {
    if n == 0 then 0.0 else c + Times(n - 1, c)
  }

  /** The charges to k of record id, as often as it is charged and not cleared. */
  function ChargesFor(t: Tables, es: seq<Event>, k: Key, id: nat): real
    requires HasBins(t) && id < |Run(t, es).jobs|
  {
    var r := Run(t, es).jobs[id];
    if r.key == k then Times(TimesCharged(t, es, id), t.charge(r)) else 0.0
  }

  /** The charges to k, job by job, each as often as it is charged. */
  function ChargesMade(t: Tables, es: seq<Event>, k: Key): (cs: seq<real>)
    requires HasBins(t)
    ensures |cs| == |Run(t, es).jobs|
    ensures forall id | 0 <= id < |cs| :: cs[id] == ChargesFor(t, es, k, id)
  {
    seq(|Run(t, es).jobs|, id requires 0 <= id < |Run(t, es).jobs| => ChargesFor(t, es, k, id))
  }

  lemma ChargesSnoc(charge: JobRecord -> real, js: seq<JobRecord>, r: JobRecord)
    ensures Charges(charge, js + [r]) == Charges(charge, js) + charge(r)
  {
    assert (js + [r])[..|js|] == js;
  }

  /** What one event charges to k for record id. */
  function ChargeOf(t: Tables, e: Event, k: Key, id: nat): real
  {
    if ChargedBy(t, e, id) && t.jobs[id].key == k then t.charge(t.jobs[id]) else 0.0
  }

  /** What one event charges to k, for the first n records. */
  function ChargesOf(t: Tables, e: Event, k: Key, n: nat): (cs: seq<real>)
    ensures |cs| == n && forall id | 0 <= id < n :: cs[id] == ChargeOf(t, e, k, id)
  {
    seq(n, id requires 0 <= id < n => ChargeOf(t, e, k, id))
  }

  lemma ChargesOfNext(t: Tables, e: Event, k: Key, id: nat)
    ensures Sum(ChargesOf(t, e, k, id + 1)) == Sum(ChargesOf(t, e, k, id)) + ChargeOf(t, e, k, id)
  {
    assert ChargesOf(t, e, k, id + 1)[..id] == ChargesOf(t, e, k, id);
  }

  /** An update charges its new jobs among the first n records, and each of them once. */
  lemma {:induction false} UpdateCharges(t: Tables, e: Event, k: Key, n: nat)
    requires e.Update? && n <= |t.jobs|
    ensures Sum(ChargesOf(t, e, k, n)) == Charges(t.charge, NewJobs(t, k, n))
  {
    if n != 0 {
      UpdateCharges(t, e, k, n - 1);
      RecordCharged(t, e, k, n - 1);
    }
  }

  /** Records that come later are not charged by the update. */
  lemma {:induction false} LaterRecordsUncharged(t: Tables, e: Event, k: Key, n: nat)
    requires |t.jobs| <= n
    ensures Sum(ChargesOf(t, e, k, n)) == Sum(ChargesOf(t, e, k, |t.jobs|))
  {
    if |t.jobs| < n {
      LaterRecordsUncharged(t, e, k, n - 1);
      ChargesOfNext(t, e, k, n - 1);
    }
  }

  lemma NewJobsSnoc(t: Tables, k: Key, id: nat)
    requires id < |t.jobs|
    ensures NewJobs(t, k, id + 1)
         == if t.jobs[id].key == k && IsNew(t, t.jobs[id]) then NewJobs(t, k, id) + [t.jobs[id]]
                                     else NewJobs(t, k, id)
  {
  }

  lemma NewJobsNext(t: Tables, k: Key, id: nat)
    requires id < |t.jobs|
    ensures Charges(t.charge, NewJobs(t, k, id + 1)) == Charges(t.charge, NewJobs(t, k, id))
              + if t.jobs[id].key == k && IsNew(t, t.jobs[id]) then t.charge(t.jobs[id]) else 0.0
  {
    ChargesSnoc(t.charge, NewJobs(t, k, id), t.jobs[id]);
    assert NewJobs(t, k, id) + [] == NewJobs(t, k, id);
  }

  /** One more record makes the same difference to both sums. */
  lemma RecordCharged(t: Tables, e: Event, k: Key, id: nat)
    requires e.Update? && id < |t.jobs|
    ensures Sum(ChargesOf(t, e, k, id + 1)) - Sum(ChargesOf(t, e, k, id))
         == Charges(t.charge, NewJobs(t, k, id + 1)) - Charges(t.charge, NewJobs(t, k, id))
  {
    ChargesOfNext(t, e, k, id);
    NewJobsNext(t, k, id);
  }

  lemma {:induction false} OtherEventCharges(t: Tables, e: Event, k: Key, n: nat)
    requires !e.Update?
    ensures Sum(ChargesOf(t, e, k, n)) == 0.0
  {
    SumOfZeros(ChargesOf(t, e, k, n));
  }

  lemma RunFirst(t: Tables, es: seq<Event>, id: nat)
    requires HasBins(t) && es != []
    ensures Run(t, es) == Run(Step(t, es[0]), es[1..])
    ensures id < |t.jobs| ==> id < |Run(t, es).jobs| && Run(t, es).jobs[id] == t.jobs[id]
    ensures TimesCharged(t, es, id)
         == (if ChargedFirst(t, es, id) then 1 else 0) + TimesCharged(Step(t, es[0]), es[1..], id)
  {
  }

  /** What the first event of a run charges to k for record id, unless it is
      cleared later. */
  function Kept(t: Tables, es: seq<Event>, k: Key, id: nat): real
    requires es != []
  {
    if ClearedIn(es[1..], k.bank) then 0.0 else ChargeOf(t, es[0], k, id)
  }

  lemma FirstEventCharge(t: Tables, es: seq<Event>, k: Key, id: nat)
    requires HasBins(t) && es != [] && id < |Run(t, es).jobs|
    ensures ChargesFor(t, es, k, id) == Kept(t, es, k, id) + ChargesFor(Step(t, es[0]), es[1..], k, id)
  {
    RunFirst(t, es, id);
    var s, r, b := Step(t, es[0]), Run(t, es).jobs[id], ChargedFirst(t, es, id);
    var n, m, c := TimesCharged(t, es, id), TimesCharged(s, es[1..], id), t.charge(r);
    var x, y, z := ChargesFor(t, es, k, id), ChargesFor(s, es[1..], k, id), Kept(t, es, k, id);
    assert x == if r.key == k then Times(n, c) else 0.0;
    assert y == if r.key == k then Times(m, c) else 0.0;
    assert z == if b && r.key == k then c else 0.0;
    TimesSplit(r.key == k, b, n, m, c, x, y, z);
  }

  lemma TimesSplit(own: bool, b: bool, n: nat, m: nat, c: real, x: real, y: real, z: real)
    requires n == (if b then 1 else 0) + m
    requires x == (if own then Times(n, c) else 0.0) && y == (if own then Times(m, c) else 0.0)
    requires z == if b && own then c else 0.0
    ensures x == z + y
  {
  }

  /** The charges of a run are those of its first event, unless they are cleared,
      and those of the rest. */
  lemma FirstEventCharges(t: Tables, es: seq<Event>, k: Key)
    requires HasBins(t) && es != []
    ensures Sum(ChargesMade(t, es, k))
         == (if ClearedIn(es[1..], k.bank) then 0.0 else Sum(ChargesOf(t, es[0], k, |Run(t, es).jobs|)))
            + Sum(ChargesMade(Step(t, es[0]), es[1..], k))
  {
    var n, cleared := |Run(t, es).jobs|, ClearedIn(es[1..], k.bank);
    var x, z := ChargesMade(t, es, k), ChargesMade(Step(t, es[0]), es[1..], k);
    var y := if cleared then seq(n, _ => 0.0) else ChargesOf(t, es[0], k, n);
    forall id | 0 <= id < |x| ensures x[id] == y[id] + z[id] {
      FirstEventCharge(t, es, k, id);
    }
    SumAdds(x, y, z);
    if cleared {
      SumOfZeros(y);
    }
  }

  /** Without decay an update adds exactly the new charges. */
  lemma UpdateAddsCharges(t: Tables, e: Event, k: Key)
    requires HasBins(t) && e.Update? && k in t.accounts && InStep(t, k) && StepPhase(t, e, k) in {Unchanged, Grown}
    ensures InStep(Step(t, e), k)
    ensures Step(t, e).accounts[k].jobUsage
         == t.accounts[k].jobUsage + Charges(t.charge, NewJobs(t, k, |t.jobs|))
  {
    var a, b := t.accounts[k], Step(t, e).accounts[k];
    SumFirst(a.bins);
    SumFirst(b.bins);
  }

  /** Another event but an update leaves an association as it is or starts it
      over. */
  lemma OtherEventUsage(t: Tables, e: Event, k: Key)
    requires HasBins(t) && !e.Update? && k in t.accounts && InStep(t, k)
    ensures InStep(Step(t, e), k)
    ensures Step(t, e).accounts[k].jobUsage == if Clears(e, k.bank) then 0.0 else t.accounts[k].jobUsage
  {
    SumOfZeros(Reset(t.accounts[k]).bins);
  }

  /** Without decay the job usage of an association is what it was, or nothing if
      its bank was cleared meanwhile, and exactly the charges of its jobs, each as
      often as it is charged since. */
  lemma {:induction false} UsageGrowsByCharges(t: Tables, es: seq<Event>, k: Key)
    requires HasBins(t) && k in t.accounts && InStep(t, k) && NoDecay(t, es, k)
    ensures InStep(Run(t, es), k)
    ensures Run(t, es).accounts[k].jobUsage
         == (if ClearedIn(es, k.bank) then 0.0 else t.accounts[k].jobUsage) + Sum(ChargesMade(t, es, k))
    decreases |es|
  {
    if es == [] {
      SumOfZeros(ChargesMade(t, es, k));
    } else {
      FirstEventCharges(t, es, k);
      if es[0].Update? {
        UpdateAddsCharges(t, es[0], k);
        UpdateCharges(t, es[0], k, |t.jobs|);
        LaterRecordsUncharged(t, es[0], k, |Run(t, es).jobs|);
      } else {
        OtherEventUsage(t, es[0], k);
        OtherEventCharges(t, es[0], k, |Run(t, es).jobs|);
      }
      UsageGrowsByCharges(Step(t, es[0]), es[1..], k);
    }
  }

  /** Rounding each charge to five decimals moves the sum by no more than half a
      unit of the fifth decimal for each job. */
  lemma {:induction false} RoundingIsSmall(w: Weights, js: seq<JobRecord>)
    ensures var exact := Charges(r => WeightedTime(w, r), js);
            -0.000005 * |js| as real <= Charges(Tariff(w), js) - exact <= 0.000005 * |js| as real
  {
    if js != [] {
      RoundingIsSmall(w, js[..|js| - 1]);
    }
  }

  // ----- the four cases -----

  /** What is left of the bins after one half-life. */
  function Older(a: Account, decay: real): real
    requires a.bins != []
  {
    Sum(a.bins[..|a.bins| - 1]) * decay
  }

  /** No new jobs in a new half-life: bins move on and decay, and the job usage
      is what is left. */
  lemma DecayedState(a: Account, decay: real)
    requires a.bins != []
    ensures var b := Updated(a, Decayed, 0.0, decay);
            b.bins == Shifted(a.bins, decay) && b.jobUsage == Older(a, decay) && Sum(b.bins) == Older(a, decay)
  {
    ShiftedSum(a.bins, decay);
    SumFirst(Shifted(a.bins, decay));
    assert Updated(a, Decayed, 0.0, decay).bins == Shifted(a.bins, decay);
  }

  /** New jobs in the current half-life go on top of all bins. */
  lemma GrownState(a: Account, charges: real, decay: real)
    requires a.bins != []
    ensures var b := Updated(a, Grown, charges, decay);
            b.jobUsage == charges + Sum(a.bins) && Sum(b.bins) == b.jobUsage
  {
    SumFirst(a.bins);
    SumFirst(Updated(a, Grown, charges, decay).bins);
  }

  /** New jobs in a new half-life: the job usage is right, but the current bin
      then holds all of it, so that the bins sum to more by what is left of the
      older ones. */
  lemma GrownAfterDecayState(a: Account, charges: real, decay: real)
    requires a.bins != []
    ensures var b := Updated(a, GrownAfterDecay, charges, decay);
            && b.jobUsage == charges + Older(a, decay) && b.bins[0] == b.jobUsage
            && Sum(b.bins) == b.jobUsage + Older(a, decay)
  {
    var b := Updated(a, GrownAfterDecay, charges, decay);
    ShiftedSum(a.bins, decay);
    SumFirst(Shifted(a.bins, decay));
    SumFirst(b.bins);
    assert b.bins[1..] == Shifted(a.bins, decay)[1..];
  }

  /** In that case the job usage is the sum of the bins exactly if nothing is
      left of the older ones. */
  lemma GrownAfterDecayInStep(a: Account, charges: real, decay: real)
    requires a.bins != []
    ensures var b := Updated(a, GrownAfterDecay, charges, decay);
            b.jobUsage == Sum(b.bins) <==> Older(a, decay) == 0.0
  {
    GrownAfterDecayState(a, charges, decay);
  }

  /** One unit left of the last half-life, one unit of new charges: the job usage
      is one and a half, the bins sum to two. */
  lemma GrownAfterDecayOutOfStep()
    ensures var b := Updated(Account([1.0, 0.0], 1.0, 0.0, 0.5), GrownAfterDecay, 1.0, 0.5);
            b.jobUsage == 1.5 && Sum(b.bins) == 2.0
  {
    var a := Account([1.0, 0.0], 1.0, 0.0, 0.5);
    GrownAfterDecayState(a, 1.0, 0.5);
    assert a.bins[..1] == [1.0] && Sum([1.0]) == 1.0;
  }

  /** Without new jobs neither comparison of times holds exactly if one period
      after the end of the half-life lies between the second look at the clock and
      the first: if the clock did not move, the update comes at that very moment.
      Then only the job usage is brought in line with the bins. */
  lemma BoundaryCase(a: Account, h: HalfLife, now: Clock, latest: real)
    requires a.bins != [] && 0.0 < h.end + h.period
    ensures PhaseOf(false, latest, h, now) == Grown <==> now.second <= h.end + h.period <= now.first
    ensures PhaseOf(false, latest, h, now) != GrownAfterDecay
    ensures Updated(a, Grown, 0.0, h.decay) == a.(jobUsage := Sum(a.bins))
  {
    SumFirst(a.bins);
  }

  /** Several half-lives without new jobs: after k of them the bins are those k
      times shifted, and the job usage is their sum. */
  function Idle(a: Account, decay: real, k: nat): (b: Account)
    requires a.bins != []
    ensures b.bins != []
  {
    if k == 0 then a else Updated(Idle(a, decay, k - 1), Decayed, 0.0, decay)
  }

  /** The job usage follows the bins, and nothing is left once there have been
      as many half-lives as bins. */
  lemma IdleUsage(a: Account, decay: real, k: nat)
    requires a.bins != [] && 1 <= k
    ensures Idle(a, decay, k).jobUsage == Sum(Idle(a, decay, k).bins)
    ensures |a.bins| <= k ==> Idle(a, decay, k).jobUsage == 0.0
  {
    IdleRollsOver(a, decay, k);
    DecayedState(Idle(a, decay, k - 1), decay);
    if |a.bins| <= k {
      NothingLeft(a.bins, decay, k);
    }
  }

  /** Decay in closed form: after k >= 1 half-lives without new jobs bin i holds
      decay^k times what bin i - k held, the first k bins are empty, the job usage
      is the sum of the bins, and nothing is left once k reaches their number. */
  lemma IdleClosedForm(a: Account, decay: real, k: nat)
    requires a.bins != [] && 1 <= k
    ensures |Idle(a, decay, k).bins| == |a.bins|
    ensures forall i | 0 <= i < |a.bins| :: Idle(a, decay, k).bins[i] == Closed(a.bins, decay, k, i)
    ensures Idle(a, decay, k).jobUsage == Sum(Idle(a, decay, k).bins)
    ensures |a.bins| <= k ==> Idle(a, decay, k).jobUsage == 0.0
  {
    IdleUsage(a, decay, k);
    IdleRollsOver(a, decay, k);
    RolloversClosedForm(a.bins, decay, k);
  }

  lemma {:induction false} IdleRollsOver(a: Account, decay: real, k: nat)
    requires a.bins != []
    ensures Idle(a, decay, k).bins == Rollovers(a.bins, decay, k)
  {
    if k != 0 {
      IdleRollsOver(a, decay, k - 1);
      DecayedState(Idle(a, decay, k - 1), decay);
    }
  }

  // ----- idle associations in a run -----

  function Updates(es: seq<Event>): nat
  {
    if es == [] then 0 else if es[0].Update? then Updates(es[1..]) + 1 else Updates(es[1..])
  }

  predicate IdleEvent(t: Tables, e: Event, k: Key, decay: real)
    requires k in t.accounts
  {
    !Clears(e, k.bank) && (e.Update? ==> StepPhase(t, e, k) == Decayed && e.h.decay == decay)
  }

  /** Every update of the run finds that a half-life has passed without new jobs
      of k, with the same decay factor, and the bank of k is not cleared.  Jobs may
      be recorded meanwhile. */
  predicate StaysIdle(t: Tables, es: seq<Event>, k: Key, decay: real)
    requires HasBins(t) && k in t.accounts
    decreases |es|
  {
    es == []
    || (IdleEvent(t, es[0], k, decay) && StaysIdle(Step(t, es[0]), es[1..], k, decay))
  }

  /** One half-life first or last makes no difference. */
  lemma {:induction false} IdleFirst(a: Account, decay: real, k: nat)
    requires a.bins != []
    ensures Idle(Idle(a, decay, 1), decay, k) == Idle(a, decay, k + 1)
  {
    if k != 0 {
      IdleFirst(a, decay, k - 1);
    }
  }

  /** A run that leaves k idle takes its rows through as many half-lives as it has
      updates. */
  lemma {:induction false} IdleRun(t: Tables, es: seq<Event>, k: Key, decay: real)
    requires HasBins(t) && k in t.accounts && StaysIdle(t, es, k, decay)
    ensures Run(t, es).accounts[k] == Idle(t.accounts[k], decay, Updates(es))
    decreases |es|
  {
    if es == [] {
      NotYetIdle(t.accounts[k], decay);
    } else {
      RunAccount(t, es, k);
      IdleFirstEvent(t, es, k, decay);
      IdleRun(Step(t, es[0]), es[1..], k, decay);
    }
  }

  lemma NotYetIdle(a: Account, decay: real)
    requires a.bins != []
    ensures Idle(a, decay, Updates([])) == a
  {
  }

  lemma RunAccount(t: Tables, es: seq<Event>, k: Key)
    requires HasBins(t) && k in t.accounts && es != []
    ensures Run(t, es).accounts[k] == Run(Step(t, es[0]), es[1..]).accounts[k]
  {
  }

  lemma IdleFirstEvent(t: Tables, es: seq<Event>, k: Key, decay: real)
    requires HasBins(t) && k in t.accounts && es != []
    requires IdleEvent(t, es[0], k, decay)
    ensures Idle(Step(t, es[0]).accounts[k], decay, Updates(es[1..])) == Idle(t.accounts[k], decay, Updates(es))
  {
    var n := Updates(es[1..]);
    IdleOneMore(t, es[0], k, decay, n);
    SameIdle(t.accounts[k], decay, if es[0].Update? then n + 1 else n, Updates(es));
  }

  lemma SameIdle(a: Account, decay: real, m: nat, n: nat)
    requires a.bins != [] && m == n
    ensures Idle(a, decay, m) == Idle(a, decay, n)
  {
  }

  lemma IdleOneMore(t: Tables, e: Event, k: Key, decay: real, n: nat)
    requires HasBins(t) && k in t.accounts
    requires IdleEvent(t, e, k, decay)
    ensures Idle(Step(t, e).accounts[k], decay, n) == Idle(t.accounts[k], decay, if e.Update? then n + 1 else n)
  {
    if e.Update? {
      IdleStep(t, e, k);
      IdleFirst(t.accounts[k], decay, n);
    }
  }

  lemma IdleStep(t: Tables, e: Event, k: Key)
    requires HasBins(t) && k in t.accounts && e.Update? && StepPhase(t, e, k) == Decayed
    ensures Step(t, e).accounts[k] == Idle(t.accounts[k], e.h.decay, 1)
  {
    var a := t.accounts[k];
    assert NewJobs(t, k, |t.jobs|) == [];
    assert Idle(a, e.h.decay, 1) == Updated(Idle(a, e.h.decay, 0), Decayed, 0.0, e.h.decay);
  }

  /** In a run that leaves k idle, bin i ends up with decay^n times what bin i - n
      held, n being the number of updates; the job usage is the sum of the bins
      from the first update on, and nothing once there are as many as bins. */
  lemma IdleRunClosedForm(t: Tables, es: seq<Event>, k: Key, decay: real)
    requires HasBins(t) && k in t.accounts && StaysIdle(t, es, k, decay) && 1 <= Updates(es)
    ensures var a, b, n := t.accounts[k], Run(t, es).accounts[k], Updates(es);
            && |b.bins| == |a.bins| && (forall i | 0 <= i < |a.bins| :: b.bins[i] == Closed(a.bins, decay, n, i))
            && b.jobUsage == Sum(b.bins) && (|a.bins| <= n ==> b.jobUsage == 0.0)
  {
    IdleRun(t, es, k, decay);
    IdleClosedForm(t.accounts[k], decay, Updates(es));
  }
}
