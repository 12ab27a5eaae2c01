/// Bringing an older accounting database up to the current schema.

module SchemaMigration {

  datatype Value = Null | Int(i: int) | Real(x: real) | Text(s: string)

  /** A column as the database describes it; no default is the null value. */
  datatype Column = Column(name: string, kind: string, notNull: bool, byDefault: Value, inKey: bool)

  type Row = map<string, Value>

  datatype Table = Table(columns: seq<Column>, rows: seq<Row>)

  type Schema = map<string, seq<Column>>

  function Names(cs: seq<Column>): set<string>
  {
    set i | 0 <= i < |cs| :: cs[i].name
  }

  /** Every row has a value in every column. */
  predicate Filled(t: Table)
  {
    forall i | 0 <= i < |t.rows| :: t.rows[i].Keys == Names(t.columns)
  }

  /** The column of a name. */
  function ColumnOf(cs: seq<Column>, name: string): (c: Column)
    requires name in Names(cs)
    ensures c in cs && c.name == name
  {
    if cs[0].name == name then cs[0] else ColumnOf(cs[1..], name)
  }

  /** A column that existing rows can be given. */
  predicate Addable(c: Column)
  {
    c.notNull ==> c.byDefault != Null
  }

  /** Table t' is table t brought to the given columns: it has those columns, every
      row keeps its values in the columns it had and gets the default in new ones. */
  predicate Brought(t: Table, columns: seq<Column>, t': Table)
  {
    && Names(t'.columns) == Names(columns) && Filled(t') && |t'.rows| == |t.rows|
    && forall i, name | 0 <= i < |t.rows| && name in Names(columns) ::
         t'.rows[i][name] == if name in t.rows[i] then t.rows[i][name] else ColumnOf(columns, name).byDefault
  }

  // ----- one table -----

  /** The columns of the new version of a table: those that stay and those that are new. */
  method GetColsList(there: seq<Column>, wanted: seq<Column>) returns (cols: seq<Column>)
    ensures cols == wanted
  {
    cols := [];
    for i := 0 to |wanted|
      invariant cols == wanted[..i]
    {
      if wanted[i].name in Names(there) && wanted[i].name in Names(wanted) {
        cols := cols + [wanted[i]];
      } else if wanted[i].name in Names(wanted) {
        cols := cols + [wanted[i]];
      }
      assert wanted[i].name in Names(wanted);
    }
  }

  /** A row in the given columns. */
  function Copied(r: Row, columns: seq<Column>): (r': Row)
    ensures r'.Keys == Names(columns)
    ensures forall name | name in Names(columns) ::
              r'[name] == if name in r then r[name] else ColumnOf(columns, name).byDefault
  {
    map name | name in Names(columns) :: if name in r then r[name] else ColumnOf(columns, name).byDefault
  }

  /** A row that can be copied: it leaves no column empty that must not be. */
  predicate Fits(r: Row, columns: seq<Column>)
  {
    forall i | 0 <= i < |columns| && columns[i].notNull :: Copied(r, columns)[columns[i].name] != Null
  }

  /** Two rows that have the same key among the columns; null is no key. */
  predicate Clash(r: Row, s: Row, columns: seq<Column>)
  {
    && (exists i :: 0 <= i < |columns| && columns[i].inKey)
    && forall i | 0 <= i < |columns| && columns[i].inKey ::
         Copied(r, columns)[columns[i].name] == Copied(s, columns)[columns[i].name] != Null
  }

  predicate Clashes(rows: seq<Row>, n: nat, r: Row, columns: seq<Column>)
    requires n <= |rows|
  {
    exists i :: 0 <= i < n && Clash(rows[i], r, columns)
  }

  /** The first n rows can be copied. */
  predicate Copyable(rows: seq<Row>, n: nat, columns: seq<Column>)
    requires n <= |rows|
  {
    forall i | 0 <= i < n :: Fits(rows[i], columns) && !Clashes(rows, i, rows[i], columns)
  }

  /** Copy rows one by one, until one cannot be inserted. */
  method MoveExistingRows(rows: seq<Row>, columns: seq<Column>) returns (ok: bool, copies: seq<Row>)
    ensures ok <==> Copyable(rows, |rows|, columns)
    ensures ok ==> |copies| == |rows| && forall j | 0 <= j < |rows| :: copies[j] == Copied(rows[j], columns)
  {
    copies := [];
    for i := 0 to |rows|
      invariant |copies| == i && forall j | 0 <= j < i :: copies[j] == Copied(rows[j], columns)
      invariant Copyable(rows, i, columns)
    {
      if !Fits(rows[i], columns) || Clashes(rows, i, rows[i], columns) {
        return false, copies;
      }
      copies := copies + [Copied(rows[i], columns)];
    }
    ok := true;
  }

  lemma CopiesAreBrought(t: Table, columns: seq<Column>, copies: seq<Row>)
    requires |copies| == |t.rows| && forall j | 0 <= j < |copies| :: copies[j] == Copied(t.rows[j], columns)
    ensures Brought(t, columns, Table(columns, copies))
  {
  }

  /** Rebuild a table: copy every row into a new version of it, unless one cannot
      be inserted there. */
  method Rebuild(t: Table, columns: seq<Column>) returns (ok: bool, t': Table)
    requires Filled(t)
    ensures ok <==> Copyable(t.rows, |t.rows|, columns)
    ensures ok ==> Brought(t, columns, t') && t'.columns == columns
  {
    var rows: seq<Row>;
    ok, rows := MoveExistingRows(t.rows, columns);
    t' := Table(columns, rows);
    if ok {
      CopiesAreBrought(t, columns, rows);
    }
  }

  /** The columns reached so far when columns are added one by one. */
  ghost predicate Adding(t: Table, columns: seq<Column>, left: set<string>, t': Table)
  {
    && Names(t'.columns) == Names(columns) - left && Filled(t') && |t'.rows| == |t.rows|
    && forall i, name | 0 <= i < |t.rows| && name in Names(columns) - left ::
         t'.rows[i][name] == if name in t.rows[i] then t.rows[i][name] else ColumnOf(columns, name).byDefault
  }

  /** One more column at the end of a table. */
  method AddColumn(t: Table, c: Column) returns (t': Table)
    requires Filled(t)
    ensures t'.columns == t.columns + [c] && |t'.rows| == |t.rows|
    ensures forall i | 0 <= i < |t.rows| :: t'.rows[i] == t.rows[i][c.name := c.byDefault]
  {
    var rows: seq<Row> := [];
    for i := 0 to |t.rows|
      invariant |rows| == i && forall j | 0 <= j < i :: rows[j] == t.rows[j][c.name := c.byDefault]
    {
      rows := rows + [t.rows[i][c.name := c.byDefault]];
    }
    t' := Table(t.columns + [c], rows);
  }

  lemma NamesSnoc(cs: seq<Column>, c: Column)
    ensures Names(cs + [c]) == Names(cs) + {c.name}
  {
    forall name | name in Names(cs) ensures name in Names(cs + [c]) {
      var i :| 0 <= i < |cs| && cs[i].name == name;
      assert (cs + [c])[i].name == name;
    }
    assert (cs + [c])[|cs|].name == c.name;
  }

  /** Add columns in place, in any order. */
  method AddColumns(t: Table, columns: seq<Column>, added: set<string>) returns (ok: bool, t': Table)
    requires Filled(t) && Names(t.columns) <= Names(columns) && added == Names(columns) - Names(t.columns)
    ensures ok <==> t.rows == [] || forall name | name in added :: Addable(ColumnOf(columns, name))
    ensures ok ==> Brought(t, columns, t')
  {
    ok, t' := true, t;
    var left := added;
    while left != {}
      invariant left <= added && Adding(t, columns, left, t')
      invariant t.rows == [] || forall name | name in added - left :: Addable(ColumnOf(columns, name))
      decreases left
    {
      var name :| name in left;
      var c := ColumnOf(columns, name);
      if t.rows != [] && !Addable(c) {
        return false, t';
      }
      ghost var was := t';
      t' := AddColumn(t', c);
      NamesSnoc(was.columns, c);
      left := left - {name};
    }
  }

  /** When a table can be brought to the given columns. */
  predicate CanBring(t: Table, columns: seq<Column>)
  {
    if Names(t.columns) - Names(columns) != {} then
      Copyable(t.rows, |t.rows|, columns)
    else
      t.rows == [] || forall name | name in Names(columns) - Names(t.columns) :: Addable(ColumnOf(columns, name))
  }

  lemma SubsetIfNothingLeft(a: set<string>, b: set<string>)
    requires a - b == {}
    ensures a <= b
  {
    forall x | x in a ensures x in b {
      assert x !in a - b;
    }
  }

  /** Bring one table to the given columns. */
  method UpdateTable(t: Table, columns: seq<Column>) returns (ok: bool, t': Table)
    requires Filled(t)
    ensures ok <==> CanBring(t, columns)
    ensures ok ==> Brought(t, columns, t') && (Names(t.columns) == Names(columns) ==> t' == t)
  {
    var cols := GetColsList(t.columns, columns);
    var added, removed := Names(cols) - Names(t.columns), Names(t.columns) - Names(cols);
    if removed != {} {
      ok, t' := Rebuild(t, cols);
    } else if added != {} {
      SubsetIfNothingLeft(Names(t.columns), Names(columns));
      ok, t' := AddColumns(t, columns, added);
    } else {
      SubsetIfNothingLeft(Names(t.columns), Names(columns));
      SubsetIfNothingLeft(Names(columns), Names(t.columns));
      ok, t' := true, t;
    }
  }

  // ----- usage per association and period -----

  const FACTORS := "job_usage_factor_table"
  const PERIODS := "job_usage_per_association_table"
  const BIN_PREFIX := "usage_factor_period_"

  predicate IsBin(c: Column)
  {
    BIN_PREFIX <= c.name
  }

  /** A number in decimal digits. */
  function Digits(n: nat): string
  {
    if n < 10 then [Digit(n)] else Digits(n / 10) + [Digit(n % 10)]
  }

  function Digit(d: nat): char
    requires d < 10
  {
    "0123456789"[d]
  }

  /** The usage column of period n. */
  function BinName(n: nat): string
  {
    BIN_PREFIX + Digits(n)
  }

  /** Different numbers have different digits. */
  lemma {:induction false} DigitsDiffer(m: nat, n: nat)
    requires Digits(m) == Digits(n)
    ensures m == n
  {
    assert Digits(m)[|Digits(m)| - 1] == Digit(m % 10) && Digits(n)[|Digits(n)| - 1] == Digit(n % 10);
    assert m % 10 == n % 10;
    if m >= 10 && n >= 10 {
      assert Digits(m)[..|Digits(m)| - 1] == Digits(m / 10) && Digits(n)[..|Digits(n)| - 1] == Digits(n / 10);
      DigitsDiffer(m / 10, n / 10);
    } else if m >= 10 {
      SomeDigits(m / 10);
    } else if n >= 10 {
      SomeDigits(n / 10);
    }
  }

  lemma SomeDigits(n: nat)
    ensures Digits(n) != []
  {
  }

  /** So no usage column is that of two periods. */
  lemma BinNamesDiffer(m: nat, n: nat)
    requires BinName(m) == BinName(n)
    ensures m == n
  {
    assert BinName(m)[|BIN_PREFIX|..] == Digits(m) && BinName(n)[|BIN_PREFIX|..] == Digits(n);
    DigitsDiffer(m, n);
  }

  /** The usage columns, in the order of the table. */
  function Bins(cs: seq<Column>): (bins: seq<string>)
    ensures forall j | 0 <= j < |bins| :: bins[j] in Names(cs)
  {
    if cs == [] then []
    else
      NamesPrefix(cs);
      Bins(cs[..|cs| - 1]) + if IsBin(cs[|cs| - 1]) then [cs[|cs| - 1].name] else []
  }

  lemma NamesPrefix(cs: seq<Column>)
    requires cs != []
    ensures Names(cs[..|cs| - 1]) <= Names(cs) && cs[|cs| - 1].name in Names(cs)
  {
    forall name | name in Names(cs[..|cs| - 1]) ensures name in Names(cs) {
      var i :| 0 <= i < |cs| - 1 && cs[i].name == name;
    }
  }

  /** The primary key of a row of usage per period. */
  datatype PeriodKey = PeriodKey(username: Value, bank: Value, period: Value)

  predicate HasKey(r: Row)
  {
    "username" in r && "bank" in r && "period" in r
  }

  function KeyOf(r: Row): PeriodKey
    requires HasKey(r)
  {
    PeriodKey(r["username"], r["bank"], r["period"])
  }

  /** The table of usage per period: its columns, each key once. */
  ghost predicate PeriodTable(t: Table)
  {
    && Names(t.columns) == {"username", "userid", "bank", "period", "value"} && Filled(t)
    && forall i, j | 0 <= i < j < |t.rows| :: KeyOf(t.rows[i]) != KeyOf(t.rows[j])
  }

  /** The table of usage per association: its key columns, and each association once. */
  ghost predicate FactorTable(t: Table)
  {
    && {"username", "userid", "bank"} <= Names(t.columns) && Filled(t)
    && (forall i | 0 <= i < |t.rows| ::
          t.rows[i]["username"] != Null && t.rows[i]["userid"] != Null && t.rows[i]["bank"] != Null)
    && forall i, j | 0 <= i < j < |t.rows| ::
         t.rows[i]["username"] != t.rows[j]["username"] || t.rows[i]["bank"] != t.rows[j]["bank"]
  }

  predicate Present(rows: seq<Row>, k: PeriodKey)
    requires forall i | 0 <= i < |rows| :: HasKey(rows[i])
  {
    exists i :: 0 <= i < |rows| && KeyOf(rows[i]) == k
  }

  /** The row for one association and period. */
  function PeriodRow(r: Row, period: nat, value: Value): Row
    requires "username" in r && "userid" in r && "bank" in r
  {
    map["username" := r["username"], "userid" := r["userid"], "bank" := r["bank"], "period" := Int(period),
        "value" := value]
  }

  /** Insert a row unless its key is taken. */
  method InsertOrIgnore(t: Table, r: Row) returns (t': Table)
    requires PeriodTable(t) && r.Keys == Names(t.columns)
    ensures PeriodTable(t') && t' == if Present(t.rows, KeyOf(r)) then t else t.(rows := t.rows + [r])
  {
    if Present(t.rows, KeyOf(r)) {
      return t;
    }
    t' := t.(rows := t.rows + [r]);
  }

  /** The table of usage per period after the first n periods of the first k
      associations have been migrated. */
  ghost predicate Migrated(before: Table, factors: Table, k: nat, n: nat, now: Table)
    requires FactorTable(factors) && k <= |factors.rows| && n <= |Bins(factors.columns)|
  {
    && PeriodTable(now) && now.columns == before.columns && before.rows <= now.rows
    && (forall i, j | 0 <= i < |factors.rows| && 0 <= j < |Bins(factors.columns)| && (i < k || (i == k && j < n)) ::
          Kept(before, factors, i, j, now))
    && forall m | |before.rows| <= m < |now.rows| :: FromFactors(factors, k, n, now.rows[m])
  }

  /** The usage of association i in period j has a row of its own, with its value
      unless there was a row for that period before. */
  ghost predicate Kept(before: Table, factors: Table, i: nat, j: nat, now: Table)
    requires FactorTable(factors) && PeriodTable(before) && PeriodTable(now)
    requires i < |factors.rows| && j < |Bins(factors.columns)|
  {
    var r, bin := factors.rows[i], Bins(factors.columns)[j];
    var row := PeriodRow(r, j, r[bin]);
    Present(now.rows, KeyOf(row)) && (!Present(before.rows, KeyOf(row)) ==> row in now.rows)
  }

  /** The usage of association i in the column numbered n is in the row of period n,
      unless there was a row for that period before. */
  ghost predicate InOwnPeriod(before: Table, factors: Table, i: nat, n: nat, now: Table)
    requires FactorTable(factors) && PeriodTable(before) && PeriodTable(now)
    requires i < |factors.rows| && BinName(n) in Names(factors.columns)
  {
    var r := factors.rows[i];
    var row := PeriodRow(r, n, r[BinName(n)]);
    Present(now.rows, KeyOf(row)) && (!Present(before.rows, KeyOf(row)) ==> row in now.rows)
  }

  /** So is all usage in numbered columns. */
  ghost predicate AllInOwnPeriod(before: Table, factors: Table, now: Table)
    requires FactorTable(factors) && PeriodTable(before) && PeriodTable(now)
  {
    forall i, n: nat | 0 <= i < |factors.rows| && BinName(n) in Names(factors.columns) ::
      InOwnPeriod(before, factors, i, n, now)
  }

  /** Every numbered usage column has the place of its number among the usage columns. */
  ghost predicate InOrder(cs: seq<Column>)
  {
    forall j, n: nat | 0 <= j < |Bins(cs)| && Bins(cs)[j] == BinName(n) :: n == j
  }

  /** All usage columns are among the bins. */
  lemma {:induction false} BinIsThere(cs: seq<Column>, name: string)
    requires name in Names(cs) && BIN_PREFIX <= name
    ensures name in Bins(cs)
  {
    var i :| 0 <= i < |cs| && cs[i].name == name;
    if i < |cs| - 1 {
      assert cs[..|cs| - 1][i].name == name;
      BinIsThere(cs[..|cs| - 1], name);
    }
  }

  /** With the columns in order all usage ends in the period its column is named for. */
  lemma InOrderOwnPeriod(before: Table, factors: Table, now: Table)
    requires FactorTable(factors) && PeriodTable(before) && PeriodTable(now) && InOrder(factors.columns)
    requires forall i, j | 0 <= i < |factors.rows| && 0 <= j < |Bins(factors.columns)| ::
               Kept(before, factors, i, j, now)
    ensures AllInOwnPeriod(before, factors, now)
  {
    forall i, n: nat | 0 <= i < |factors.rows| && BinName(n) in Names(factors.columns)
      ensures InOwnPeriod(before, factors, i, n, now)
    {
      BinIsThere(factors.columns, BinName(n));
      var j :| 0 <= j < |Bins(factors.columns)| && Bins(factors.columns)[j] == BinName(n);
      assert n == j && Kept(before, factors, i, j, now);
    }
  }

  /** The row was made for one of the periods migrated so far. */
  ghost predicate FromFactors(factors: Table, k: nat, n: nat, row: Row)
    requires FactorTable(factors) && k <= |factors.rows| && n <= |Bins(factors.columns)|
  {
    exists i, j :: 0 <= i < |factors.rows| && 0 <= j < |Bins(factors.columns)| && (i < k || (i == k && j < n))
                   && row == PeriodRow(factors.rows[i], j, factors.rows[i][Bins(factors.columns)[j]])
  }

  /** The next period's key has been given to no migrated row yet. */
  lemma KeyIsNew(before: Table, factors: Table, k: nat, n: nat, now: Table)
    requires FactorTable(factors) && k < |factors.rows| && n < |Bins(factors.columns)| && PeriodTable(before)
    requires Migrated(before, factors, k, n, now)
    ensures var key := KeyOf(PeriodRow(factors.rows[k], n, Null)); Present(now.rows, key) ==> Present(before.rows, key)
  {
    var key := KeyOf(PeriodRow(factors.rows[k], n, Null));
    if m :| 0 <= m < |now.rows| && KeyOf(now.rows[m]) == key {
      if |before.rows| <= m {
        assert FromFactors(factors, k, n, now.rows[m]);
      } else {
        assert now.rows[m] == before.rows[m];
      }
    }
  }

  /** What has been kept stays when a row is added. */
  lemma KeptStays(before: Table, factors: Table, i: nat, j: nat, now: Table, next: Table)
    requires FactorTable(factors) && PeriodTable(before) && PeriodTable(now) && PeriodTable(next)
    requires i < |factors.rows| && j < |Bins(factors.columns)| && now.rows <= next.rows
    requires Kept(before, factors, i, j, now)
    ensures Kept(before, factors, i, j, next)
  {
    var row := PeriodRow(factors.rows[i], j, factors.rows[i][Bins(factors.columns)[j]]);
    var m :| 0 <= m < |now.rows| && KeyOf(now.rows[m]) == KeyOf(row);
    assert next.rows[m] == now.rows[m];
    if row in now.rows {
      var l :| 0 <= l < |now.rows| && now.rows[l] == row;
      assert next.rows[l] == row;
    }
  }

  /** One period of one association further. */
  lemma MigratedNext(before: Table, factors: Table, k: nat, n: nat, now: Table, next: Table)
    requires FactorTable(factors) && k < |factors.rows| && n < |Bins(factors.columns)| && PeriodTable(before)
    requires Migrated(before, factors, k, n, now) && PeriodTable(next)
    requires var row := PeriodRow(factors.rows[k], n, factors.rows[k][Bins(factors.columns)[n]]);
             next == if Present(now.rows, KeyOf(row)) then now else now.(rows := now.rows + [row])
    ensures Migrated(before, factors, k, n + 1, next)
  {
    var row := PeriodRow(factors.rows[k], n, factors.rows[k][Bins(factors.columns)[n]]);
    KeyIsNew(before, factors, k, n, now);
    forall i, j | 0 <= i < |factors.rows| && 0 <= j < |Bins(factors.columns)| && (i < k || (i == k && j < n + 1))
      ensures Kept(before, factors, i, j, next)
    {
      if i == k && j == n {
        if !Present(now.rows, KeyOf(row)) {
          assert next.rows[|now.rows|] == row;
        }
      } else {
        KeptStays(before, factors, i, j, now, next);
      }
    }
    forall m | |before.rows| <= m < |next.rows| ensures FromFactors(factors, k, n + 1, next.rows[m]) {
      if m < |now.rows| {
        assert FromFactors(factors, k, n, now.rows[m]);
      }
    }
  }

  /** Move the usage columns into rows of their own. */
  method MigrateRows(before: Table, factors: Table) returns (t: Table)
    requires PeriodTable(before) && FactorTable(factors)
    ensures Migrated(before, factors, |factors.rows|, 0, t)
    ensures InOrder(factors.columns) ==> AllInOwnPeriod(before, factors, t)
    ensures AllPresent(before, factors) ==> t == before
  {
    t := before;
    var bins := Bins(factors.columns);
    for i := 0 to |factors.rows|
      invariant Migrated(before, factors, i, 0, t)
      invariant AllPresent(before, factors) ==> t == before
    {
      for j := 0 to |bins|
        invariant Migrated(before, factors, i, j, t)
        invariant AllPresent(before, factors) ==> t == before
      {
        var row := PeriodRow(factors.rows[i], j, factors.rows[i][bins[j]]);
        ghost var was := t;
        assert KeyOf(row) == KeyOf(PeriodRow(factors.rows[i], j, Null));
        t := InsertOrIgnore(t, row);
        MigratedNext(before, factors, i, j, was, t);
      }
      RowDone(before, factors, i, t);
    }
    if InOrder(factors.columns) {
      InOrderOwnPeriod(before, factors, t);
    }
  }

  ghost predicate AllPresent(before: Table, factors: Table)
    requires PeriodTable(before) && FactorTable(factors)
  {
    forall i, j | 0 <= i < |factors.rows| && 0 <= j < |Bins(factors.columns)| ::
      Present(before.rows, KeyOf(PeriodRow(factors.rows[i], j, Null)))
  }

  lemma RowDone(before: Table, factors: Table, k: nat, now: Table)
    requires PeriodTable(before) && FactorTable(factors) && k < |factors.rows|
    requires Migrated(before, factors, k, |Bins(factors.columns)|, now)
    ensures Migrated(before, factors, k + 1, 0, now)
  {
    forall m | |before.rows| <= m < |now.rows| ensures FromFactors(factors, k + 1, 0, now.rows[m]) {
      assert FromFactors(factors, k, |Bins(factors.columns)|, now.rows[m]);
    }
  }

  ghost predicate Distinct(cs: seq<Column>)
  {
    forall i, j | 0 <= i < j < |cs| :: cs[i].name != cs[j].name
  }

  /** Different columns give different bins. */
  lemma {:induction false} DistinctBins(cs: seq<Column>)
    requires Distinct(cs)
    ensures forall i, j | 0 <= i < j < |Bins(cs)| :: Bins(cs)[i] != Bins(cs)[j]
  {
    if cs != [] {
      var init, last := cs[..|cs| - 1], cs[|cs| - 1];
      DistinctBins(init);
      forall i | 0 <= i < |Bins(init)| ensures Bins(init)[i] != last.name {
        var m :| 0 <= m < |init| && init[m].name == Bins(init)[i];
        assert cs[m].name != last.name;
      }
    }
  }

  /** One association, which has used something in the column named `bin` only. */
  ghost function UsedIn(cs: seq<Column>, bin: string): (t: Table)
    ensures t.columns == cs && |t.rows| == 1 && t.rows[0].Keys == Names(cs)
    ensures forall name | name in Names(cs) :: t.rows[0][name] == if name == bin then Real(1.0) else Text("")
  {
    Table(cs, [map name | name in Names(cs) :: if name == bin then Real(1.0) else Text("")])
  }

  lemma UsedInIsFactorTable(cs: seq<Column>, n: nat)
    requires {"username", "userid", "bank"} <= Names(cs)
    ensures FactorTable(UsedIn(cs, BinName(n)))
  {
  }

  /** No row of another period is given what has been used in column n. */
  lemma NotFromElsewhere(cs: seq<Column>, j: nat, n: nat)
    requires Distinct(cs) && j < |Bins(cs)| && Bins(cs)[j] == BinName(n) && n != j
    requires FactorTable(UsedIn(cs, BinName(n)))
    ensures var factors := UsedIn(cs, BinName(n));
            !FromFactors(factors, 1, 0, PeriodRow(factors.rows[0], n, Real(1.0)))
  {
    var factors := UsedIn(cs, BinName(n));
    var row := PeriodRow(factors.rows[0], n, Real(1.0));
    DistinctBins(cs);
    forall l | 0 <= l < |Bins(cs)| ensures row != PeriodRow(factors.rows[0], l, factors.rows[0][Bins(cs)[l]]) {
      assert row["period"] == Int(n) && row["value"] == Real(1.0);
    }
  }

  /** A numbered usage column that is not at the place of its number: some usage
      does not end in its period. */
  lemma OutOfOrderFails(cs: seq<Column>, j: nat, n: nat, now: Table)
    requires Distinct(cs) && j < |Bins(cs)| && Bins(cs)[j] == BinName(n) && n != j
    requires FactorTable(UsedIn(cs, BinName(n))) && Migrated(NO_PERIODS, UsedIn(cs, BinName(n)), 1, 0, now)
    ensures !AllInOwnPeriod(NO_PERIODS, UsedIn(cs, BinName(n)), now)
  {
    var factors := UsedIn(cs, BinName(n));
    var row := PeriodRow(factors.rows[0], n, factors.rows[0][BinName(n)]);
    NotFromElsewhere(cs, j, n);
    forall m | 0 <= m < |now.rows| ensures now.rows[m] != row {
      assert FromFactors(factors, 1, 0, now.rows[m]);
    }
    assert !Present(NO_PERIODS.rows, KeyOf(row));
    assert !InOwnPeriod(NO_PERIODS, factors, 0, n, now);
  }

  const NO_PERIODS := Table([Column("username", "text", true, Null, true), Column("userid", "int", true, Null, true),
                             Column("bank", "text", true, Null, true), Column("period", "int", true, Null, true),
                             Column("value", "real", true, Null, false)], [])

  lemma NextMigrated(before: Table, factors: Table, k: nat, n: nat, was: Table) returns (now: Table)
    requires PeriodTable(before) && FactorTable(factors) && k < |factors.rows| && n < |Bins(factors.columns)|
    requires Migrated(before, factors, k, n, was)
    ensures Migrated(before, factors, k, n + 1, now)
  {
    var row := PeriodRow(factors.rows[k], n, factors.rows[k][Bins(factors.columns)[n]]);
    now := if Present(was.rows, KeyOf(row)) then was else was.(rows := was.rows + [row]);
    MigratedNext(before, factors, k, n, was, now);
  }

  /** There is a result of migrating. */
  lemma {:induction false} SomeMigrated(before: Table, factors: Table, k: nat, n: nat) returns (now: Table)
    requires PeriodTable(before) && FactorTable(factors) && n <= |Bins(factors.columns)|
    requires k < |factors.rows| || (k == |factors.rows| && n == 0)
    ensures Migrated(before, factors, k, n, now)
    decreases k, n
  {
    if n > 0 {
      now := SomeMigrated(before, factors, k, n - 1);
      now := NextMigrated(before, factors, k, n - 1, now);
    } else if k > 0 {
      now := SomeMigrated(before, factors, k - 1, |Bins(factors.columns)|);
      RowDone(before, factors, k - 1, now);
    } else {
      now := before;
    }
  }

  /** Whatever the associations have used, each column's usage ends in the row of
      the column's number. */
  ghost predicate AlwaysInOwnPeriod(cs: seq<Column>)
  {
    forall before, factors, now |
      PeriodTable(before) && FactorTable(factors) && factors.columns == cs
      && Migrated(before, factors, |factors.rows|, 0, now) :: AllInOwnPeriod(before, factors, now)
  }

  lemma InOrderAlways(cs: seq<Column>)
    requires InOrder(cs)
    ensures AlwaysInOwnPeriod(cs)
  {
    forall before, factors, now |
      PeriodTable(before) && FactorTable(factors) && factors.columns == cs
      && Migrated(before, factors, |factors.rows|, 0, now) ensures AllInOwnPeriod(before, factors, now)
    {
      InOrderOwnPeriod(before, factors, now);
    }
  }

  lemma NoPeriodsIsTable()
    ensures PeriodTable(NO_PERIODS)
  {
    var cs := NO_PERIODS.columns;
    assert Names(cs) == {cs[0].name, cs[1].name, cs[2].name, cs[3].name, cs[4].name};
  }

  lemma OutOfOrderNotAlways(cs: seq<Column>, j: nat, n: nat)
    requires {"username", "userid", "bank"} <= Names(cs) && Distinct(cs)
    requires j < |Bins(cs)| && Bins(cs)[j] == BinName(n) && n != j
    ensures !AlwaysInOwnPeriod(cs)
  {
    NoPeriodsIsTable();
    UsedInIsFactorTable(cs, n);
    var factors := UsedIn(cs, BinName(n));
    var now := SomeMigrated(NO_PERIODS, factors, 1, 0);
    OutOfOrderFails(cs, j, n, now);
  }

  /** It does exactly if the numbered columns are in the order of their numbers. */
  lemma OwnPeriodExactly(cs: seq<Column>)
    requires {"username", "userid", "bank"} <= Names(cs) && Distinct(cs)
    ensures AlwaysInOwnPeriod(cs) <==> InOrder(cs)
  {
    if InOrder(cs) {
      InOrderAlways(cs);
    } else {
      var j, n: nat :| 0 <= j < |Bins(cs)| && Bins(cs)[j] == BinName(n) && n != j;
      OutOfOrderNotAlways(cs, j, n);
    }
  }

  // ----- default entries -----

  const CONFIG := "config_table"
  const WEIGHTS := "priority_factor_weight_table"

  /** An entry of a table with a key column and a value column. */
  datatype Setting = Setting(key: Value, value: Value)

  /** The two columns of such a table. */
  datatype Pair = Pair(key: string, value: string)

  ghost predicate SettingsTable(t: Table, c: Pair)
  {
    c.key != c.value && Names(t.columns) == {c.key, c.value} && Filled(t)
  }

  predicate HasSetting(rows: seq<Row>, c: Pair, key: Value)
    requires forall i | 0 <= i < |rows| :: c.key in rows[i]
  {
    exists i :: 0 <= i < |rows| && rows[i][c.key] == key
  }

  /** Insert entries whose keys are missing. */
  method InitSettings(t: Table, c: Pair, settings: seq<Setting>) returns (t': Table)
    requires SettingsTable(t, c)
    ensures SettingsTable(t', c) && t'.columns == t.columns && t.rows <= t'.rows
    ensures forall j | 0 <= j < |settings| :: HasSetting(t'.rows, c, settings[j].key)
    ensures (forall j | 0 <= j < |settings| :: HasSetting(t.rows, c, settings[j].key)) ==> t' == t
  {
    t' := t;
    for j := 0 to |settings|
      invariant SettingsTable(t', c) && t'.columns == t.columns && t.rows <= t'.rows
      invariant forall k | 0 <= k < j :: HasSetting(t'.rows, c, settings[k].key)
      invariant (forall k | 0 <= k < |settings| :: HasSetting(t.rows, c, settings[k].key)) ==> t' == t
    {
      if !HasSetting(t'.rows, c, settings[j].key) {
        SettingAdded(t'.rows, c, settings[j]);
        t' := t'.(rows := t'.rows + [map[c.key := settings[j].key, c.value := settings[j].value]]);
      }
    }
  }

  lemma SettingAdded(rows: seq<Row>, c: Pair, s: Setting)
    requires c.key != c.value && forall i | 0 <= i < |rows| :: c.key in rows[i]
    ensures var now := rows + [map[c.key := s.key, c.value := s.value]];
            HasSetting(now, c, s.key) && forall key :: HasSetting(rows, c, key) ==> HasSetting(now, c, key)
  {
    var now := rows + [map[c.key := s.key, c.value := s.value]];
    assert now[|rows|][c.key] == s.key;
    forall key | HasSetting(rows, c, key) ensures HasSetting(now, c, key) {
      var i :| 0 <= i < |rows| && rows[i][c.key] == key;
      assert now[i][c.key] == key;
    }
  }

  // ----- the whole update -----

  const CONFIG_COLUMNS := Pair("key", "value")
  const WEIGHT_COLUMNS := Pair("factor", "weight")

  /** What the current schema looks like where the update relies on it; usage per
      period is kept in rows, so that no table has usage columns. */
  ghost predicate Current(schema: Schema)
  {
    && FACTORS in schema && {"username", "userid", "bank"} <= Names(schema[FACTORS]) && Bins(schema[FACTORS]) == []
    && PERIODS in schema && Names(schema[PERIODS]) == {"username", "userid", "bank", "period", "value"}
    && CONFIG in schema && Names(schema[CONFIG]) == {"key", "value"}
    && WEIGHTS in schema && Names(schema[WEIGHTS]) == {"factor", "weight"}
  }

  /** What can be relied on in the database at hand. */
  ghost predicate Usable(tables: map<string, Table>)
  {
    && (forall n | n in tables :: Filled(tables[n]))
    && (FACTORS in tables ==> FactorTable(tables[FACTORS]))
    && (PERIODS in tables ==> PeriodTable(tables[PERIODS]))
  }

  /** The tables with those of the schema that were missing. */
  function WithTables(tables: map<string, Table>, schema: Schema): map<string, Table>
  {
    map n | n in tables.Keys + schema.Keys :: if n in tables then tables[n] else Table(schema[n], [])
  }

  /** Table n is brought to the schema's columns, if it is one of the schema. */
  ghost predicate UpToDate(t: Table, schema: Schema, n: string, t': Table)
  {
    if n in schema then Brought(t, schema[n], t') && (Names(t.columns) == Names(schema[n]) ==> t' == t) else t' == t
  }

  ghost predicate AllUpToDate(tables: map<string, Table>, schema: Schema, now: map<string, Table>)
  {
    now.Keys == tables.Keys && forall n | n in tables :: UpToDate(tables[n], schema, n, now[n])
  }

  /** Missing tables have been created and usage columns migrated. */
  ghost predicate Prepared(tables: map<string, Table>, schema: Schema, now: map<string, Table>)
    requires Usable(tables) && Current(schema)
  {
    WithTablesUsable(tables, schema);
    var all := WithTables(tables, schema);
    && PERIODS in now && now == all[PERIODS := now[PERIODS]] && Usable(now)
    && Migrated(all[PERIODS], all[FACTORS], |all[FACTORS].rows|, 0, now[PERIODS])
  }

  /** Every row of the table is still there, with its values in the columns both
      versions have. */
  ghost predicate KeepsRows(t: Table, t': Table)
  {
    && |t.rows| <= |t'.rows|
    && forall i, name | 0 <= i < |t.rows| && name in t.rows[i] && name in Names(t'.columns) ::
         name in t'.rows[i] && t'.rows[i][name] == t.rows[i][name]
  }

  class Database {
    var tables: map<string, Table>

    constructor (tables: map<string, Table>)
      ensures this.tables == tables
    {
      this.tables := tables;
    }

    /** Create the tables that are missing. */
    method UpdateTables(schema: Schema)
      modifies this
      ensures tables == WithTables(old(tables), schema)
    {
      var left := schema.Keys;
      while left != {}
        invariant left <= schema.Keys
        invariant tables == map n | n in old(tables).Keys + (schema.Keys - left) ::
                              if n in old(tables) then old(tables)[n] else Table(schema[n], [])
        decreases left
      {
        var n :| n in left;
        if n !in tables {
          tables := tables[n := Table(schema[n], [])];
        }
        left := left - {n};
      }
    }

    /** Migrate usage columns, if there are any. */
    method MigrateJobUsage()
      requires Usable(tables) && FACTORS in tables && PERIODS in tables
      modifies this
      ensures PERIODS in tables && tables == old(tables)[PERIODS := tables[PERIODS]]
      ensures Migrated(old(tables)[PERIODS], old(tables)[FACTORS], |old(tables)[FACTORS].rows|, 0, tables[PERIODS])
      ensures Bins(old(tables)[FACTORS].columns) == [] ==> tables == old(tables)
    {
      var factors := tables[FACTORS];
      if Bins(factors.columns) != [] {
        var periods := MigrateRows(tables[PERIODS], factors);
        tables := tables[PERIODS := periods];
      }
    }

    /** Bring every table of the schema to its columns. */
    method UpdateColumns(schema: Schema) returns (ok: bool)
      requires schema.Keys <= tables.Keys && forall n | n in tables :: Filled(tables[n])
      modifies this
      ensures ok <==> forall n | n in schema :: CanBring(old(tables)[n], schema[n])
      ensures ok ==> AllUpToDate(old(tables), schema, tables)
    {
      var left := schema.Keys;
      while left != {}
        invariant left <= schema.Keys && tables.Keys == old(tables).Keys
        invariant forall n | n in schema.Keys - left :: CanBring(old(tables)[n], schema[n])
        invariant forall n | n in tables && n !in left :: UpToDate(old(tables)[n], schema, n, tables[n])
        invariant forall n | n in left :: tables[n] == old(tables)[n]
        decreases left
      {
        var n :| n in left;
        var done, table := UpdateTable(tables[n], schema[n]);
        if !done {
          return false;
        }
        tables := tables[n := table];
        left := left - {n};
      }
      ok := true;
    }

    /** Insert the default settings that are missing. */
    method InitTable(name: string, c: Pair, settings: seq<Setting>)
      requires name in tables && SettingsTable(tables[name], c)
      modifies this
      ensures name in tables && tables == old(tables)[name := tables[name]]
      ensures SettingsTable(tables[name], c) && tables[name].columns == old(tables)[name].columns
      ensures old(tables)[name].rows <= tables[name].rows && Seeded(tables[name], c, settings)
      ensures Seeded(old(tables)[name], c, settings) ==> tables == old(tables)
    {
      var table := InitSettings(tables[name], c, settings);
      tables := tables[name := table];
    }

    /** Bring the database up to the schema: missing tables are created, usage
        columns migrated before they are dropped, columns added and removed, default
        settings inserted. */
    method UpdateDb(schema: Schema, config: seq<Setting>, weights: seq<Setting>) returns (ok: bool)
      requires Usable(tables) && Current(schema)
      modifies this
      ensures ok <==> forall n | n in schema && n in old(tables) :: CanBring(old(tables)[n], schema[n])
      ensures ok ==> Updated(old(tables), schema, tables) && Settled(tables, schema, config, weights)
      ensures Settled(old(tables), schema, config, weights) ==> ok && tables == old(tables)
    {
      ghost var before, migrated := tables, tables;
      ok, migrated := BringTables(schema);
      if Settled(before, schema, config, weights) {
        SettledBrings(before, migrated, schema, config, weights);
        if ok {
          SettledStays(before, tables, schema, config, weights);
        }
      }
      if ok {
        FinishUpdate(schema, before, migrated, config, weights);
      }
    }

    /** Create missing tables, migrate usage columns, and bring all tables to the
        schema's columns. */
    method BringTables(schema: Schema) returns (ok: bool, ghost migrated: map<string, Table>)
      requires Usable(tables) && Current(schema)
      modifies this
      ensures Prepared(old(tables), schema, migrated)
      ensures Bins(WithTables(old(tables), schema)[FACTORS].columns) == []
              ==> migrated == WithTables(old(tables), schema)
      ensures ok <==> forall n | n in schema && n in old(tables) :: CanBring(old(tables)[n], schema[n])
      ensures ok ==> AllUpToDate(migrated, schema, tables)
    {
      ghost var before := tables;
      PrepareTables(schema);
      migrated := tables;
      CanBringAll(before, migrated, schema);
      ok := UpdateColumns(schema);
    }

    /** Insert missing settings; then the update is complete. */
    method FinishUpdate(schema: Schema, ghost before: map<string, Table>, ghost migrated: map<string, Table>,
                        config: seq<Setting>, weights: seq<Setting>)
      requires Usable(before) && Current(schema) && Prepared(before, schema, migrated)
      requires AllUpToDate(migrated, schema, tables)
      modifies this
      ensures Updated(before, schema, tables) && Settled(tables, schema, config, weights)
      ensures AllSeeded(old(tables), config, weights) ==> tables == old(tables)
    {
      ghost var brought := tables;
      SettingsColumns(migrated, brought, schema);
      InitTables(config, weights);
      KeptAll(before, migrated, brought, tables, schema, config, weights);
      AllSettled(migrated, brought, tables, schema, config, weights);
    }

    /** Create missing tables and migrate usage columns. */
    method PrepareTables(schema: Schema)
      requires Usable(tables) && Current(schema)
      modifies this
      ensures Prepared(old(tables), schema, tables)
      ensures Bins(WithTables(old(tables), schema)[FACTORS].columns) == [] ==> tables == WithTables(old(tables), schema)
    {
      WithTablesUsable(tables, schema);
      UpdateTables(schema);
      MigrateJobUsage();
    }

    method InitTables(config: seq<Setting>, weights: seq<Setting>)
      requires CONFIG in tables && SettingsTable(tables[CONFIG], CONFIG_COLUMNS)
      requires WEIGHTS in tables && SettingsTable(tables[WEIGHTS], WEIGHT_COLUMNS)
      modifies this
      ensures OnlySeeded(old(tables), tables) && AllSeeded(tables, config, weights)
      ensures AllSeeded(old(tables), config, weights) ==> tables == old(tables)
    {
      InitTable(WEIGHTS, WEIGHT_COLUMNS, weights);
      InitTable(CONFIG, CONFIG_COLUMNS, config);
    }
  }

  /** The two tables of settings hold all default entries. */
  ghost predicate AllSeeded(tables: map<string, Table>, config: seq<Setting>, weights: seq<Setting>)
  {
    && CONFIG in tables && SettingsTable(tables[CONFIG], CONFIG_COLUMNS)
    && Seeded(tables[CONFIG], CONFIG_COLUMNS, config)
    && WEIGHTS in tables && SettingsTable(tables[WEIGHTS], WEIGHT_COLUMNS)
    && Seeded(tables[WEIGHTS], WEIGHT_COLUMNS, weights)
  }

  lemma SettingsColumns(migrated: map<string, Table>, brought: map<string, Table>, schema: Schema)
    requires Current(schema) && schema.Keys <= migrated.Keys && AllUpToDate(migrated, schema, brought)
    ensures SettingsTable(brought[CONFIG], CONFIG_COLUMNS) && SettingsTable(brought[WEIGHTS], WEIGHT_COLUMNS)
  {
    assert UpToDate(migrated[CONFIG], schema, CONFIG, brought[CONFIG]);
    assert UpToDate(migrated[WEIGHTS], schema, WEIGHTS, brought[WEIGHTS]);
  }

  /** Only the two tables of settings have changed, and only by rows at the end. */
  ghost predicate OnlySeeded(tables: map<string, Table>, now: map<string, Table>)
  {
    && now.Keys == tables.Keys
    && forall n | n in tables ::
         && now[n].columns == tables[n].columns && tables[n].rows <= now[n].rows
         && (n != CONFIG && n != WEIGHTS ==> now[n] == tables[n])
  }

  lemma CanBringSame(t: Table, columns: seq<Column>)
    requires Names(t.columns) == Names(columns)
    ensures CanBring(t, columns)
  {
    assert Names(t.columns) - Names(columns) == {} && Names(columns) - Names(t.columns) == {};
  }

  /** Creating tables and migrating usage columns does not change what can be
      brought up to date. */
  lemma CanBringAll(before: map<string, Table>, migrated: map<string, Table>, schema: Schema)
    requires Usable(before) && Current(schema) && Prepared(before, schema, migrated)
    ensures (forall n | n in schema :: CanBring(migrated[n], schema[n]))
       <==> forall n | n in schema && n in before :: CanBring(before[n], schema[n])
  {
    forall n | n in schema
      ensures CanBring(migrated[n], schema[n]) == (n in before ==> CanBring(before[n], schema[n]))
    {
      if n == PERIODS {
        CanBringSame(migrated[n], schema[n]);
        if n in before {
          CanBringSame(before[n], schema[n]);
        }
      } else if n !in before {
        CanBringSame(migrated[n], schema[n]);
      }
    }
  }

  /** In a settled database every table already has its columns. */
  lemma SettledBrings(before: map<string, Table>, migrated: map<string, Table>, schema: Schema,
                      config: seq<Setting>, weights: seq<Setting>)
    requires Current(schema) && Settled(before, schema, config, weights)
    requires Bins(WithTables(before, schema)[FACTORS].columns) == [] ==> migrated == WithTables(before, schema)
    ensures before == migrated && forall n | n in schema :: CanBring(before[n], schema[n])
  {
    var all := WithTables(before, schema);
    assert all.Keys == before.Keys;
    assert all == before;
    forall n | n in schema ensures CanBring(before[n], schema[n]) {
      CanBringSame(before[n], schema[n]);
    }
  }

  lemma SettledStays(before: map<string, Table>, now: map<string, Table>, schema: Schema, config: seq<Setting>,
                     weights: seq<Setting>)
    requires Current(schema) && Settled(before, schema, config, weights) && AllUpToDate(before, schema, now)
    ensures now == before
  {
    forall n | n in before ensures now[n] == before[n] {
      assert UpToDate(before[n], schema, n, now[n]);
    }
  }

  lemma BroughtKeeps(t: Table, columns: seq<Column>, t': Table)
    requires Brought(t, columns, t') && Filled(t)
    ensures KeepsRows(t, t')
  {
  }

  lemma LongerKeeps(t: Table, t': Table, t'': Table)
    requires KeepsRows(t, t') && t''.columns == t'.columns && t'.rows <= t''.rows
    ensures KeepsRows(t, t'')
  {
    forall i | 0 <= i < |t.rows| ensures t''.rows[i] == t'.rows[i] {
    }
  }

  lemma PrefixKeeps(t: Table, t': Table)
    requires t.rows <= t'.rows
    ensures KeepsRows(t, t')
  {
    forall i | 0 <= i < |t.rows| ensures t'.rows[i] == t.rows[i] {
    }
  }

  /** One table through all steps. */
  lemma TableKept(n: string, before: map<string, Table>, migrated: map<string, Table>, brought: map<string, Table>,
                  now: map<string, Table>, schema: Schema)
    requires Usable(before) && Current(schema) && Prepared(before, schema, migrated)
    requires AllUpToDate(migrated, schema, brought) && OnlySeeded(brought, now) && n in before
    ensures n in now && KeepsRows(before[n], now[n]) && (n !in schema ==> now[n] == before[n])
  {
    assert UpToDate(migrated[n], schema, n, brought[n]);
    if n == PERIODS {
      assert brought[n] == migrated[n];
      PrefixKeeps(before[n], brought[n]);
    } else if n in schema {
      BroughtKeeps(before[n], schema[n], brought[n]);
    } else {
      PrefixKeeps(before[n], brought[n]);
    }
    LongerKeeps(before[n], brought[n], now[n]);
  }

  /** The rows of usage per period through all steps. */
  lemma PeriodsKept(before: map<string, Table>, migrated: map<string, Table>, brought: map<string, Table>,
                    now: map<string, Table>, schema: Schema)
    requires Usable(before) && Current(schema) && Prepared(before, schema, migrated)
    requires AllUpToDate(migrated, schema, brought) && OnlySeeded(brought, now)
    ensures PERIODS in now && PeriodTable(now[PERIODS])
    ensures FACTORS in before ==>
              && (forall i, j | 0 <= i < |before[FACTORS].rows| && 0 <= j < |Bins(before[FACTORS].columns)| ::
                    Kept(PeriodsOf(before, schema), before[FACTORS], i, j, now[PERIODS]))
              && (InOrder(before[FACTORS].columns) ==>
                    AllInOwnPeriod(PeriodsOf(before, schema), before[FACTORS], now[PERIODS]))
  {
    assert UpToDate(migrated[PERIODS], schema, PERIODS, brought[PERIODS]);
    assert now[PERIODS] == brought[PERIODS] == migrated[PERIODS];
    if FACTORS in before && InOrder(before[FACTORS].columns) {
      InOrderOwnPeriod(PeriodsOf(before, schema), before[FACTORS], now[PERIODS]);
    }
  }

  /** All steps together lose nothing. */
  lemma KeptAll(before: map<string, Table>, migrated: map<string, Table>, brought: map<string, Table>,
                now: map<string, Table>, schema: Schema, config: seq<Setting>, weights: seq<Setting>)
    requires Usable(before) && Current(schema) && Prepared(before, schema, migrated)
    requires AllUpToDate(migrated, schema, brought) && OnlySeeded(brought, now)
    requires AllSeeded(now, config, weights)
    ensures Updated(before, schema, now)
  {
    forall n | n in before ensures n in now && KeepsRows(before[n], now[n]) && (n !in schema ==> now[n] == before[n]) {
      TableKept(n, before, migrated, brought, now, schema);
    }
    SchemaColumns(migrated, brought, now, schema, config, weights);
    PeriodsKept(before, migrated, brought, now, schema);
    assert now.Keys == before.Keys + schema.Keys;
  }

  lemma SchemaColumns(migrated: map<string, Table>, brought: map<string, Table>, now: map<string, Table>,
                      schema: Schema, config: seq<Setting>, weights: seq<Setting>)
    requires Current(schema) && schema.Keys <= migrated.Keys
    requires AllUpToDate(migrated, schema, brought) && OnlySeeded(brought, now)
    requires AllSeeded(now, config, weights)
    ensures forall n | n in schema :: n in now && Names(now[n].columns) == Names(schema[n]) && Filled(now[n])
  {
    forall n | n in schema ensures n in now && Names(now[n].columns) == Names(schema[n]) && Filled(now[n]) {
      assert UpToDate(migrated[n], schema, n, brought[n]);
    }
  }

  /** A table of associations brought to new columns is still one. */
  lemma StillFactors(t: Table, columns: seq<Column>, t': Table)
    requires FactorTable(t) && Brought(t, columns, t') && {"username", "userid", "bank"} <= Names(columns)
    ensures FactorTable(t')
  {
    forall i, name | 0 <= i < |t.rows| && name in {"username", "userid", "bank"}
      ensures t'.rows[i][name] == t.rows[i][name]
    {
      assert name in t.rows[i];
    }
  }

  lemma {:induction false} SameNamesNoBins(cs: seq<Column>, ds: seq<Column>)
    requires Names(cs) == Names(ds) && Bins(ds) == []
    ensures Bins(cs) == []
  {
    if Bins(cs) != [] {
      var c := SomeBin(cs);
      assert c.name in Names(ds);
      NoBinThere(ds, c.name);
    }
  }

  lemma {:induction false} SomeBin(cs: seq<Column>) returns (c: Column)
    requires Bins(cs) != []
    ensures IsBin(c) && c.name in Names(cs)
  {
    NamesPrefix(cs);
    if IsBin(cs[|cs| - 1]) {
      c := cs[|cs| - 1];
    } else {
      c := SomeBin(cs[..|cs| - 1]);
    }
  }

  lemma {:induction false} NoBinThere(cs: seq<Column>, name: string)
    requires Bins(cs) == [] && name in Names(cs)
    ensures !(BIN_PREFIX <= name)
  {
    var i :| 0 <= i < |cs| && cs[i].name == name;
    if i < |cs| - 1 {
      assert cs[..|cs| - 1][i].name == name;
      NoBinThere(cs[..|cs| - 1], name);
    }
  }

  /** After all steps the database is settled. */
  lemma AllSettled(migrated: map<string, Table>, brought: map<string, Table>, now: map<string, Table>, schema: Schema,
                   config: seq<Setting>, weights: seq<Setting>)
    requires Current(schema) && schema.Keys <= migrated.Keys && Usable(migrated)
    requires AllUpToDate(migrated, schema, brought) && OnlySeeded(brought, now)
    requires AllSeeded(now, config, weights)
    ensures Settled(now, schema, config, weights)
  {
    forall n | n in now ensures Filled(now[n]) && (n in schema ==> Names(now[n].columns) == Names(schema[n])) {
      assert UpToDate(migrated[n], schema, n, brought[n]);
    }
    assert UpToDate(migrated[FACTORS], schema, FACTORS, brought[FACTORS]);
    StillFactors(migrated[FACTORS], schema[FACTORS], brought[FACTORS]);
    SameNamesNoBins(now[FACTORS].columns, schema[FACTORS]);
    assert UpToDate(migrated[PERIODS], schema, PERIODS, brought[PERIODS]);
  }

  ghost predicate Seeded(t: Table, c: Pair, settings: seq<Setting>)
    requires SettingsTable(t, c)
  {
    forall j | 0 <= j < |settings| :: HasSetting(t.rows, c, settings[j].key)
  }

  lemma WithTablesUsable(tables: map<string, Table>, schema: Schema)
    requires Usable(tables) && Current(schema)
    ensures var all := WithTables(tables, schema); Usable(all) && FACTORS in all && PERIODS in all
  {
  }

  /** The usage rows there were. */
  function PeriodsOf(tables: map<string, Table>, schema: Schema): Table
    requires PERIODS in schema
  {
    if PERIODS in tables then tables[PERIODS] else Table(schema[PERIODS], [])
  }

  /** Nothing is lost: tables of the schema have its columns and keep their rows,
      other tables are as they were, and the usage of every association in every
      period is in a row of its own. */
  ghost predicate Updated(tables: map<string, Table>, schema: Schema, now: map<string, Table>)
    requires Usable(tables) && Current(schema)
  {
    && now.Keys == tables.Keys + schema.Keys
    && (forall n | n in schema :: Names(now[n].columns) == Names(schema[n]) && Filled(now[n]))
    && (forall n | n in tables :: KeepsRows(tables[n], now[n]))
    && (forall n | n in tables && n !in schema :: now[n] == tables[n])
    && PeriodTable(now[PERIODS])
    && (FACTORS in tables ==>
          && (forall i, j | 0 <= i < |tables[FACTORS].rows| && 0 <= j < |Bins(tables[FACTORS].columns)| ::
                Kept(PeriodsOf(tables, schema), tables[FACTORS], i, j, now[PERIODS]))
          && (InOrder(tables[FACTORS].columns) ==>
                AllInOwnPeriod(PeriodsOf(tables, schema), tables[FACTORS], now[PERIODS])))
  }

  function TextColumn(name: string): Column
  {
    Column(name, "text", true, Null, true)
  }

  function UsageColumn(name: string): Column
  {
    Column(name, "real", false, Real(0.0), false)
  }

  const SWAPPED_COLUMNS := [TextColumn("username"), TextColumn("userid"), TextColumn("bank"),
                            UsageColumn("usage_factor_period_1"), UsageColumn("usage_factor_period_0")]

  /** Usage per association in which the column of period 1 comes before that of period 0. */
  const SWAPPED := Table(SWAPPED_COLUMNS,
                         [map["username" := Text("u"), "userid" := Text("1"), "bank" := Text("b"),
                              "usage_factor_period_1" := Real(5.0), "usage_factor_period_0" := Real(7.0)]])

  lemma SwappedBins()
    ensures Bins(SWAPPED.columns) == ["usage_factor_period_1", "usage_factor_period_0"]
  {
    var cs := SWAPPED.columns;
    assert Bins([]) == [];
    assert cs[..5][..4] == cs[..4] && cs[..4][..3] == cs[..3] && cs[..3][..2] == cs[..2] && cs[..2][..1] == cs[..1];
    assert cs[..1][..0] == [] && cs[..5] == cs;
    assert Bins(cs[..1]) == [] && Bins(cs[..2]) == [] && Bins(cs[..3]) == [];
    assert Bins(cs[..4]) == ["usage_factor_period_1"];
  }

  /** Such a database can be updated. */
  lemma SwappedIsUsable()
    ensures Usable(map[FACTORS := SWAPPED])
  {
    var cs := SWAPPED.columns;
    assert Names(cs) == {cs[0].name, cs[1].name, cs[2].name, cs[3].name, cs[4].name};
  }

  lemma ZeroAndOne()
    ensures BinName(0) == "usage_factor_period_0" && BinName(1) == "usage_factor_period_1"
  {
  }

  /** The row of period 0 gets the usage of period 1, and no row gets that of period 0. */
  lemma SwappedRows(rows: seq<Row>, row: Row, own: Row)
    requires row == PeriodRow(SWAPPED.rows[0], 0, Real(5.0)) && own == PeriodRow(SWAPPED.rows[0], 0, Real(7.0))
    requires forall i | 0 <= i < |rows| :: HasKey(rows[i])
    requires forall i, j | 0 <= i < j < |rows| :: KeyOf(rows[i]) != KeyOf(rows[j])
    requires row in rows
    ensures own !in rows
  {
    assert row["value"] != own["value"] && KeyOf(row) == KeyOf(own);
    var m :| 0 <= m < |rows| && rows[m] == row;
    forall l | 0 <= l < |rows| ensures rows[l] != own {
      assert l < m ==> KeyOf(rows[l]) != KeyOf(rows[m]);
      assert m < l ==> KeyOf(rows[m]) != KeyOf(rows[l]);
    }
  }

  lemma SwappedPeriods(before: Table, now: Table)
    requires FactorTable(SWAPPED) && PeriodTable(before) && PeriodTable(now) && before.rows == []
    requires Bins(SWAPPED.columns) == ["usage_factor_period_1", "usage_factor_period_0"]
    requires Kept(before, SWAPPED, 0, 0, now) && BinName(0) == "usage_factor_period_0"
    ensures PeriodRow(SWAPPED.rows[0], 0, Real(5.0)) in now.rows
    ensures BinName(0) in Names(SWAPPED.columns) && !InOwnPeriod(before, SWAPPED, 0, 0, now)
  {
    var r := SWAPPED.rows[0];
    assert SWAPPED.columns[4].name == BinName(0);
    assert r["usage_factor_period_1"] == Real(5.0) && r["usage_factor_period_0"] == Real(7.0);
    SwappedRows(now.rows, PeriodRow(r, 0, Real(5.0)), PeriodRow(r, 0, Real(7.0)));
  }

  /** An update of a database with that table puts the usage of period 1 into the
      row of period 0. */
  lemma UpdateSwaps(schema: Schema, now: map<string, Table>)
    requires Current(schema)
    requires var tables := map[FACTORS := SWAPPED]; Usable(tables) && Updated(tables, schema, now)
    ensures PeriodRow(SWAPPED.rows[0], 0, Real(5.0)) in now[PERIODS].rows
    ensures !AllInOwnPeriod(PeriodsOf(map[FACTORS := SWAPPED], schema), SWAPPED, now[PERIODS])
  {
    ZeroAndOne();
    SwappedBins();
    var tables := map[FACTORS := SWAPPED];
    var before := PeriodsOf(tables, schema);
    assert before.rows == [] && tables[FACTORS] == SWAPPED;
    assert Kept(before, SWAPPED, 0, 0, now[PERIODS]);
    SwappedPeriods(before, now[PERIODS]);
  }

  /** There is nothing left to update. */
  ghost predicate Settled(tables: map<string, Table>, schema: Schema, config: seq<Setting>, weights: seq<Setting>)
    requires Current(schema)
  {
    && schema.Keys <= tables.Keys && Usable(tables) && Bins(tables[FACTORS].columns) == []
    && (forall n | n in schema :: Names(tables[n].columns) == Names(schema[n]))
    && AllSeeded(tables, config, weights)
  }

  /** Update twice: if the first time succeeds so does the second, and changes nothing. */
  method UpdateTwice(db: Database, schema: Schema, config: seq<Setting>, weights: seq<Setting>)
      returns (ok: bool, again: bool, first: map<string, Table>)
    requires Usable(db.tables) && Current(schema)
    modifies db
    ensures ok <==> forall n | n in schema && n in old(db.tables) :: CanBring(old(db.tables)[n], schema[n])
    ensures ok ==> Updated(old(db.tables), schema, first) && again && db.tables == first
  {
    again := false;
    ok := db.UpdateDb(schema, config, weights);
    first := db.tables;
    if ok {
      again := db.UpdateDb(schema, config, weights);
    }
  }

  /** The order matters: once columns have been brought up to date there is no usage
      column left to migrate. */
  lemma NothingLeftToMigrate(tables: map<string, Table>, schema: Schema, now: map<string, Table>)
    requires Current(schema) && FACTORS in tables && AllUpToDate(tables, schema, now)
    ensures Bins(now[FACTORS].columns) == []
  {
    assert UpToDate(tables[FACTORS], schema, FACTORS, now[FACTORS]);
    SameNamesNoBins(now[FACTORS].columns, schema[FACTORS]);
  }
}
