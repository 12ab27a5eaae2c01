/// The whole usage update and the clearing of banks: what jobs are charged, the
/// stored usage of banks, and the end of the half-life.

module UsageUpdate {
  import opened BankUsage
  import opened JobUsage
  import opened UsageTables

  /** The end of the half-life after an update at time `now`. */
  function NextEnd(end: real, period: real, now: real): real
  {
    if end < now - period then end + period else end
  }

  /** The end of the half-life after updates at several times. */
  function EndAfter(end: real, period: real, times: seq<real>): real
  {
    if times == [] then end
    else NextEnd(EndAfter(end, period, times[..|times| - 1]), period, times[|times| - 1])
  }

  /** The latest of several times, given in order, or start if there are none. */
  function LastOf(start: real, times: seq<real>): real
  {
    if times == [] then start else times[|times| - 1]
  }

  /** There is at least one time in each period. */
  predicate OncePer(period: real, start: real, times: seq<real>)
  {
    times == [] || (OncePer(period, start, times[..|times| - 1])
                    && times[|times| - 1] <= LastOf(start, times[..|times| - 1]) + period)
  }

  /** With an update at least once a period the half-life never falls behind. */
  lemma {:induction false} KeepsUp(end: real, period: real, start: real, times: seq<real>)
    requires 0.0 < period && start - period <= end && OncePer(period, start, times)
    ensures LastOf(start, times) - period <= EndAfter(end, period, times)
  {
    if times != [] {
      KeepsUp(end, period, start, times[..|times| - 1]);
    }
  }

  /** What the rows of the association table say about usage. */
  function UsageColumn(rows: seq<Key>, accounts: map<Key, Account>): (used: seq<real>)
    requires forall j | 0 <= j < |rows| :: rows[j] in accounts
    ensures |used| == |rows| && forall j | 0 <= j < |rows| :: used[j] == accounts[rows[j]].jobUsage
  {
    seq(|rows|, j requires 0 <= j < |rows| => accounts[rows[j]].jobUsage)
  }

  /** The rows belong to the associations of the schema. */
  predicate RowsFit(s: Schema, rows: seq<Key>, accounts: map<Key, Account>)
  {
    |rows| == |s.assocs| && forall j | 0 <= j < |rows| :: rows[j].bank == s.assocs[j].bank && rows[j] in accounts
  }

  /** Clearing a bank clears the usage of exactly its associations. */
  lemma ClearedColumn(s: Schema, rows: seq<Key>, t: Tables, b: string, cutoff: int)
    requires HasBins(t) && RowsFit(s, rows, t.accounts)
    ensures RowsFit(s, rows, Step(t, Clear(b, cutoff)).accounts)
    ensures UsageColumn(rows, Step(t, Clear(b, cutoff)).accounts)
         == ClearUsed(s.assocs, UsageColumn(rows, t.accounts), b)
  {
  }

  /** The usage of associations once several banks are cleared. */
  lemma {:induction false} ClearedColumns(s: Schema, rows: seq<Key>, t: Tables, es: seq<Event>)
    requires HasBins(t) && RowsFit(s, rows, t.accounts) && forall i | 0 <= i < |es| :: es[i].Clear?
    ensures RowsFit(s, rows, Run(t, es).accounts)
    ensures forall j | 0 <= j < |rows| :: UsageColumn(rows, Run(t, es).accounts)[j]
              == if ClearedIn(es, rows[j].bank) then 0.0 else UsageColumn(rows, t.accounts)[j]
    decreases |es|
  {
    if es != [] {
      ClearedColumn(s, rows, t, es[0].bank, es[0].cutoff);
      ClearedColumns(s, rows, Step(t, es[0]), es[1..]);
    }
  }

  lemma {:induction false} ClearingsClear(banks: seq<string>, cutoff: Option<int>, clock: seq<real>, b: string)
    requires |clock| == |banks|
    ensures ClearedIn(Clearings(banks, cutoff, clock), b) <==> b in banks
    decreases |banks|
  {
    if banks != [] {
      assert Clearings(banks, cutoff, clock)[1..] == Clearings(banks[1..], cutoff, clock[1..]);
      ClearingsClear(banks[1..], cutoff, clock[1..], b);
    }
  }

  /** The accounting database: banks, usage of associations, and the half-life. */
  class Accounting {
    const banks: Database
    const usage: UsageDb
    const rows: seq<Key>
    const root: nat
    const period: real
    const decay: real
    var end: real

    constructor (banks: Database, usage: UsageDb, rows: seq<Key>, root: nat, period: real, decay: real, end: real)
      requires banks.Valid() && banks.schema.Connected(root) && HasBins(usage.View())
      requires RowsFit(banks.schema, rows, usage.accounts)
      requires banks.assocUsage == UsageColumn(rows, usage.accounts)
      ensures this.banks == banks && this.usage == usage && this.rows == rows && this.root == root
      ensures this.period == period && this.decay == decay && this.end == end && Valid()
    {
      this.banks, this.usage, this.rows, this.root := banks, usage, rows, root;
      this.period, this.decay, this.end := period, decay, end;
    }

    /** Both parts are well formed and agree on the usage of associations. */
    ghost predicate Valid()
      reads this, banks, usage
    {
      && banks.Valid() && banks.schema.Connected(root) && HasBins(usage.View())
      && RowsFit(banks.schema, rows, usage.accounts)
      && banks.assocUsage == UsageColumn(rows, usage.accounts)
    }

    /** Update the usage of associations from new jobs, then that of all banks,
        then the end of the half-life. */
    method UpdateJobUsage(clock: Key -> Clock, now: real)
      requires Valid()
      modifies this`end, banks`bankUsage, banks`assocUsage, usage`accounts
      ensures Valid() && usage.View() == Step(old(usage.View()), Update(HalfLife(period, old(end), decay), clock))
      ensures Consistent(banks.schema, banks.bankUsage, banks.assocUsage)
      ensures end == NextEnd(old(end), period, now)
    {
      usage.UpdateJobUsage(HalfLife(period, end, decay), clock);
      ShareColumn();
      banks.CalcAll(root);
      CheckEndOfHalfLife(now);
    }

    /** The usage of associations is one column of the database. */
    method ShareColumn()
      requires banks.Valid() && RowsFit(banks.schema, rows, usage.accounts)
      modifies banks`assocUsage
      ensures banks.Valid() && banks.assocUsage == UsageColumn(rows, usage.accounts)
    {
      banks.assocUsage := UsageColumn(rows, usage.accounts);
    }

    /** Once a period has passed, the half-life ends one period later. */
    method CheckEndOfHalfLife(now: real)
      modifies `end
      ensures end == NextEnd(old(end), period, now)
    {
      if end < now - period {
        end := end + period;
      }
    }

    /** Clear a list of banks: the cleared associations start over, and if only
        leaf banks are cleared and bank usage was right, it stays right. */
    method ClearUsage(list: seq<string>, cutoff: Option<int>, clock: seq<real>)
      requires Valid() && |clock| == |list|
      modifies banks`bankUsage, banks`assocUsage, usage`accounts, usage`ignoreOlderThan
      ensures Valid() && usage.View() == Run(old(usage.View()), Clearings(list, cutoff, clock))
      ensures banks.bankUsage == ClearedAll(banks.schema, old(banks.bankUsage), list)
      ensures Consistent(banks.schema, old(banks.bankUsage), old(banks.assocUsage)) && AllLeaves(banks.schema, list) ==>
                Consistent(banks.schema, banks.bankUsage, banks.assocUsage)
    {
      ghost var t := usage.View();
      banks.ClearUsage(list);
      usage.ClearUsage(list, cutoff, clock);
      ClearedColumns(banks.schema, rows, t, Clearings(list, cutoff, clock));
      forall b ensures ClearedIn(Clearings(list, cutoff, clock), b) <==> b in list {
        ClearingsClear(list, cutoff, clock, b);
      }
      assert banks.assocUsage == UsageColumn(rows, usage.accounts);
    }
  }
}
