/**
 * The database as the migrator sees it: a map from table name to the table's
 * ordered column names and its rows, and the data-definition statements the
 * migration scripts issue, with the failure rules SQLite applies to them.
 */
module Schema {
  import opened Wrappers

  /** A cell. A column added without a default holds NULL in every existing row. */
  datatype Value = Null | Text(s: string)

  type Row = seq<Value>

  datatype Table = Table(columns: seq<string>, rows: seq<Row>)

  type Tables = map<string, Table>

  /** The SQLite errors the statements of the migration scripts can raise. */
  datatype SqlError =
    | NoSuchTable(table: string)
    | TableExists(table: string)
    | DuplicateColumn(table: string, column: string)
    | ColumnCountMismatch(target: string, source: string)

  /** One SQL statement, reduced to the tables and columns it names. */
  datatype Op =
    | CreateTable(name: string, columns: seq<string>)             // CREATE TABLE n (...)
    | CreateTableIfNotExists(name: string, columns: seq<string>)  // CREATE TABLE IF NOT EXISTS n (...)
    | AddColumn(table: string, column: string, default: Value)    // ALTER TABLE t ADD c [DEFAULT v]
    | DropTable(name: string)                                     // DROP TABLE n
    | DropTableIfExists(name: string)                             // DROP TABLE IF EXISTS n
    | RenameTable(from: string, to: string)                       // ALTER TABLE f RENAME TO t
    | DeleteRows(table: string)                                   // DELETE FROM t
    | CopyRows(source: string, target: string)                    // INSERT INTO t SELECT * FROM s

  predicate Distinct(s: seq<string>) {
    forall i, j :: 0 <= i < j < |s| ==> s[i] != s[j]
  }

  /** A column name that occurs twice in `s`, if there is one. */
  function DuplicateIn(s: seq<string>): (r: Option<string>)
    ensures r.None? <==> Distinct(s)
    ensures r.Some? ==> exists i, j :: 0 <= i < j < |s| && s[i] == r.value && s[j] == r.value
  {
    if |s| == 0 then None
    else if s[0] in s[1..] then
      var k :| 0 <= k < |s[1..]| && s[1..][k] == s[0];
      assert s[k + 1] == s[0];
      Some(s[0])
    else
      var r := DuplicateIn(s[1..]);
      assert r.Some? ==> exists i, j :: 0 <= i < j < |s| && s[i] == r.value && s[j] == r.value by {
        if r.Some? {
          var i, j :| 0 <= i < j < |s[1..]| && s[1..][i] == r.value && s[1..][j] == r.value;
          assert s[i + 1] == r.value && s[j + 1] == r.value;
        }
      }
      r
  }

  /** Every row of a table with a `NULL` or default value appended for a new column. */
  function Extend(rows: seq<Row>, v: Value): (r: seq<Row>)
    ensures |r| == |rows|
    ensures forall k :: 0 <= k < |r| ==> r[k] == rows[k] + [v]
  {
    seq(|rows|, k requires 0 <= k < |rows| => rows[k] + [v])
  }

  /** The tables a statement may change; every other table it leaves alone. */
  function Names(op: Op): set<string> {
    match op
    case CreateTable(n, _) => {n}
    case CreateTableIfNotExists(n, _) => {n}
    case AddColumn(t, _, _) => {t}
    case DropTable(n) => {n}
    case DropTableIfExists(n) => {n}
    case RenameTable(f, t) => {f, t}
    case DeleteRows(t) => {t}
    case CopyRows(_, t) => {t}
  }

  /** `after` agrees with `before` on every table whose name is not in `names`. */
  ghost predicate SameOutside(before: Tables, after: Tables, names: set<string>) {
    forall n :: n !in names ==> (n in before <==> n in after) && (n in before ==> after[n] == before[n])
  }

  function Create(db: Tables, n: string, columns: seq<string>): Result<Tables, SqlError> {
    match DuplicateIn(columns)
    case Some(c) => Err(DuplicateColumn(n, c))
    case None => Ok(db[n := Table(columns, [])])
  }

  /** Executes one statement, or reports the error SQLite would raise. */
  function Apply(db: Tables, op: Op): (r: Result<Tables, SqlError>)
    ensures r.Ok? ==> SameOutside(db, r.value, Names(op))
  {
    match op
    case CreateTable(n, cols) =>
      if n in db then Err(TableExists(n)) else Create(db, n, cols)
    case CreateTableIfNotExists(n, cols) =>
      if n in db then Ok(db) else Create(db, n, cols)
    case AddColumn(t, c, v) =>
      if t !in db then Err(NoSuchTable(t))
      else if c in db[t].columns then Err(DuplicateColumn(t, c))
      else Ok(db[t := Table(db[t].columns + [c], Extend(db[t].rows, v))])
    case DropTable(n) =>
      if n !in db then Err(NoSuchTable(n)) else Ok(db - {n})
    case DropTableIfExists(n) =>
      Ok(db - {n})
    case RenameTable(f, t) =>
      if f !in db then Err(NoSuchTable(f))
      else if t in db then Err(TableExists(t))
      else Ok((db - {f})[t := db[f]])
    case DeleteRows(t) =>
      if t !in db then Err(NoSuchTable(t)) else Ok(db[t := db[t].(rows := [])])
    case CopyRows(s, t) =>
      if t !in db then Err(NoSuchTable(t))
      else if s !in db then Err(NoSuchTable(s))
      else if |db[s].columns| != |db[t].columns| then Err(ColumnCountMismatch(t, s))
      else Ok(db[t := db[t].(rows := db[t].rows + db[s].rows)])
  }

  /** Column names are unique and every row has one value per column. */
  ghost predicate TableWellFormed(t: Table) {
    && Distinct(t.columns)
    && forall k :: 0 <= k < |t.rows| ==> |t.rows[k]| == |t.columns|
  }

  ghost predicate WellFormed(db: Tables) {
    forall n :: n in db ==> TableWellFormed(db[n])
  }

  /** No statement that succeeds can break the shape of a table. */
  lemma ApplyPreservesWellFormed(db: Tables, op: Op)
    requires WellFormed(db)
    requires Apply(db, op).Ok?
    ensures WellFormed(Apply(db, op).value)
  {
    var db' := Apply(db, op).value;
    forall n | n in db' ensures TableWellFormed(db'[n]) {
      match op
      case AddColumn(t, c, v) =>
        if n == t {
          var old_ := db[t];
          var new_ := db'[t];
          assert new_.columns == old_.columns + [c];
          forall i, j | 0 <= i < j < |new_.columns| ensures new_.columns[i] != new_.columns[j] {
            if j == |old_.columns| {
              assert new_.columns[i] == old_.columns[i];
            }
          }
        }
      case CopyRows(s, t) =>
        if n == t {
          var rows := db[t].rows + db[s].rows;
          forall k | 0 <= k < |rows| ensures |rows[k]| == |db[t].columns| {
            if k >= |db[t].rows| {
              assert rows[k] == db[s].rows[k - |db[t].rows|];
            }
          }
        }
      case _ =>
    }
  }
}
