/**
 * The registered table classes (`mTables`) and what `onCreate` and `reset`
 * do with them: create every table, or drop and recreate every table.
 */
module Registry {
  import opened Wrappers
  import opened Schema

  /** A registered table class: its table name and the columns of its create statement. */
  datatype TableDef = TableDef(name: string, columns: seq<string>)

  function RegisteredNames(defs: seq<TableDef>): (r: set<string>)
    ensures forall i :: 0 <= i < |defs| ==> defs[i].name in r
    ensures forall n :: n in r ==> exists i :: 0 <= i < |defs| && defs[i].name == n
    decreases |defs|
  {
    if defs == [] then {}
    else
      var pre := defs[..|defs| - 1];
      assert forall i :: 0 <= i < |pre| ==> pre[i] == defs[i];
      RegisteredNames(pre) + {defs[|defs| - 1].name}
  }

  /** Every create statement names each column once, so it cannot fail on its columns. */
  predicate ValidDefs(defs: seq<TableDef>) {
    forall i :: 0 <= i < |defs| ==> Distinct(defs[i].columns)
  }

  /** Registered names are unique, so no create statement meets a table made by an earlier one. */
  predicate UniqueNames(defs: seq<TableDef>) {
    forall i, j :: 0 <= i < j < |defs| ==> defs[i].name != defs[j].name
  }

  /** The empty tables the registry describes; for a name registered twice the later definition wins. */
  function Fresh(defs: seq<TableDef>): (r: Tables)
    ensures r.Keys == RegisteredNames(defs)
    ensures forall n :: n in r ==> r[n].rows == []
    decreases |defs|
  {
    if defs == [] then map[]
    else
      var d := defs[|defs| - 1];
      Fresh(defs[..|defs| - 1])[d.name := Table(d.columns, [])]
  }

  /** The tables of `db` the registry does not mention. */
  function Unregistered(db: Tables, defs: seq<TableDef>): Tables {
    map n | n in db && n !in RegisteredNames(defs) :: db[n]
  }

  /** `onCreate`: one `CREATE TABLE` per registered class, in order; the first failure stops it. */
  function CreateAll(db: Tables, defs: seq<TableDef>): Result<Tables, SqlError>
    decreases |defs|
  {
    if defs == [] then Ok(db)
    else
      var d := defs[|defs| - 1];
      match CreateAll(db, defs[..|defs| - 1])
      case Ok(t) => Apply(t, CreateTable(d.name, d.columns))
      case Err(e) => Err(e)
  }

  /** `reset`: `DROP TABLE IF EXISTS` then `CREATE TABLE` per registered class, in order. */
  function ResetAll(db: Tables, defs: seq<TableDef>): Result<Tables, SqlError>
    decreases |defs|
  {
    if defs == [] then Ok(db)
    else
      var d := defs[|defs| - 1];
      match ResetAll(db, defs[..|defs| - 1])
      case Ok(t) => (
        match Apply(t, DropTableIfExists(d.name))
        case Ok(t') => Apply(t', CreateTable(d.name, d.columns))
        case Err(e) => Err(e))
      case Err(e) => Err(e)
  }

  /** One drop-and-create of `reset` on a valid definition. */
  lemma DropThenCreate(t: Tables, d: TableDef)
    requires Distinct(d.columns)
    ensures Apply(t, DropTableIfExists(d.name)) == Ok(t - {d.name})
    ensures Apply(t - {d.name}, CreateTable(d.name, d.columns)) == Ok((t - {d.name})[d.name := Table(d.columns, [])])
  {
    assert DuplicateIn(d.columns) == None;
  }

  lemma UnregisteredStep(db: Tables, defs: seq<TableDef>)
    requires defs != []
    ensures Unregistered(db, defs) == Unregistered(db, defs[..|defs| - 1]) - {defs[|defs| - 1].name}
  {
    assert RegisteredNames(defs) == RegisteredNames(defs[..|defs| - 1]) + {defs[|defs| - 1].name};
  }

  lemma UpdateUnion(u: Tables, f: Tables, n: string, x: Table)
    ensures ((u + f) - {n})[n := x] == (u - {n}) + f[n := x]
  {
  }

  lemma UnregisteredPlusFreshStep(db: Tables, defs: seq<TableDef>)
    requires defs != []
    ensures ((Unregistered(db, defs[..|defs| - 1]) + Fresh(defs[..|defs| - 1])) - {defs[|defs| - 1].name})
              [defs[|defs| - 1].name := Table(defs[|defs| - 1].columns, [])]
            == Unregistered(db, defs) + Fresh(defs)
  {
    var d := defs[|defs| - 1];
    var pre := defs[..|defs| - 1];
    UnregisteredStep(db, defs);
    UpdateUnion(Unregistered(db, pre), Fresh(pre), d.name, Table(d.columns, []));
  }

  /**
   * With valid definitions `reset` cannot fail, and it leaves exactly the
   * fresh registered tables plus, untouched, every table the registry does
   * not mention.
   */
  lemma {:induction false} ResetKeepsOnlyUnregistered(db: Tables, defs: seq<TableDef>)
    requires ValidDefs(defs)
    ensures ResetAll(db, defs) == Ok(Unregistered(db, defs) + Fresh(defs))
    decreases |defs|
  {
    if defs != [] {
      var pre := defs[..|defs| - 1];
      var d := defs[|defs| - 1];
      assert ValidDefs(pre) by {
        forall i | 0 <= i < |pre| ensures Distinct(pre[i].columns) {
          assert pre[i] == defs[i];
        }
      }
      ResetKeepsOnlyUnregistered(db, pre);
      var t := Unregistered(db, pre) + Fresh(pre);
      assert ResetAll(db, pre) == Ok(t);
      DropThenCreate(t, d);
      assert ResetAll(db, defs) == Apply(t - {d.name}, CreateTable(d.name, d.columns));
      UnregisteredPlusFreshStep(db, defs);
    } else {
      assert Unregistered(db, defs) + Fresh(defs) == db;
    }
  }

  /** A `CREATE TABLE` succeeds exactly when the name is free and the columns distinct. */
  lemma CreateTableOutcome(t: Tables, d: TableDef)
    ensures Apply(t, CreateTable(d.name, d.columns)).Ok? <==> d.name !in t && Distinct(d.columns)
    ensures Apply(t, CreateTable(d.name, d.columns)).Ok? ==>
      Apply(t, CreateTable(d.name, d.columns)).value == t[d.name := Table(d.columns, [])]
  {
  }

  lemma PrefixKeepsDefs(defs: seq<TableDef>)
    requires defs != []
    ensures var pre := defs[..|defs| - 1];
      && (ValidDefs(defs) <==> ValidDefs(pre) && Distinct(defs[|defs| - 1].columns))
      && (UniqueNames(defs) <==> UniqueNames(pre) && defs[|defs| - 1].name !in RegisteredNames(pre))
  {
    var pre := defs[..|defs| - 1];
    var d := defs[|defs| - 1];
    assert forall i :: 0 <= i < |pre| ==> pre[i] == defs[i];
    if UniqueNames(pre) && d.name !in RegisteredNames(pre) {
      forall i, j | 0 <= i < j < |defs| ensures defs[i].name != defs[j].name {
        if j == |defs| - 1 {
          assert pre[i].name in RegisteredNames(pre);
        }
      }
    }
    if UniqueNames(defs) {
      forall i | 0 <= i < |pre| ensures pre[i].name != d.name {
        assert defs[i].name != defs[|defs| - 1].name;
      }
    }
  }

  /**
   * `onCreate` on an empty database succeeds exactly when every definition is
   * valid and every name unique, and then yields the fresh registered tables.
   */
  lemma {:induction false} CreateAllOnEmpty(defs: seq<TableDef>)
    ensures CreateAll(map[], defs).Ok? <==> ValidDefs(defs) && UniqueNames(defs)
    ensures CreateAll(map[], defs).Ok? ==> CreateAll(map[], defs).value == Fresh(defs)
    decreases |defs|
  {
    if defs != [] {
      var pre := defs[..|defs| - 1];
      var d := defs[|defs| - 1];
      CreateAllOnEmpty(pre);
      PrefixKeepsDefs(defs);
      match CreateAll(map[], pre)
      case Ok(t) =>
        CreateTableOutcome(t, d);
      case Err(_) =>
    }
  }

  /** Resetting twice is the same as resetting once. */
  lemma ResetIsIdempotent(db: Tables, defs: seq<TableDef>)
    requires ValidDefs(defs)
    ensures ResetAll(db, defs).Ok? && ResetAll(ResetAll(db, defs).value, defs) == ResetAll(db, defs)
  {
    ResetKeepsOnlyUnregistered(db, defs);
    var once := Unregistered(db, defs) + Fresh(defs);
    ResetKeepsOnlyUnregistered(once, defs);
    assert Unregistered(once, defs) == Unregistered(db, defs);
  }

  lemma NothingUnregistered(db: Tables, defs: seq<TableDef>)
    requires db.Keys <= RegisteredNames(defs)
    ensures Unregistered(db, defs) == map[]
  {
    assert Unregistered(db, defs).Keys == {};
  }

  /**
   * A database holding only registered tables, in whatever state, is reset to
   * what `onCreate` builds on an empty database.
   */
  lemma ResetOfRegisteredIsCreate(db: Tables, defs: seq<TableDef>)
    requires ValidDefs(defs) && UniqueNames(defs)
    requires db.Keys <= RegisteredNames(defs)
    ensures ResetAll(db, defs) == CreateAll(map[], defs)
  {
    ResetKeepsOnlyUnregistered(db, defs);
    CreateAllOnEmpty(defs);
    NothingUnregistered(db, defs);
    assert map[] + Fresh(defs) == Fresh(defs);
  }

  /** Once a prefix of the registry has failed to create, `onCreate` fails with that error. */
  lemma {:induction false} CreateErrorIsFinal(db: Tables, defs: seq<TableDef>, i: nat)
    requires i <= |defs| && CreateAll(db, defs[..i]).Err?
    ensures CreateAll(db, defs) == CreateAll(db, defs[..i])
    decreases |defs| - i
  {
    if i < |defs| {
      assert defs[..i + 1][..i] == defs[..i];
      CreateErrorIsFinal(db, defs, i + 1);
    } else {
      assert defs[..i] == defs;
    }
  }

  /** One more registered table reset: drop it if present, then create it. */
  lemma ResetOneMore(db: Tables, defs: seq<TableDef>, i: nat)
    requires i < |defs| && ResetAll(db, defs[..i]).Ok?
    ensures ResetAll(db, defs[..i + 1]) ==
      Apply(ResetAll(db, defs[..i]).value - {defs[i].name}, CreateTable(defs[i].name, defs[i].columns))
  {
    assert defs[..i + 1][..i] == defs[..i];
  }

  /** Once a prefix of the registry has failed to reset, `reset` fails with that error. */
  lemma {:induction false} ResetErrorIsFinal(db: Tables, defs: seq<TableDef>, i: nat)
    requires i <= |defs| && ResetAll(db, defs[..i]).Err?
    ensures ResetAll(db, defs) == ResetAll(db, defs[..i])
    decreases |defs| - i
  {
    if i < |defs| {
      assert defs[..i + 1][..i] == defs[..i];
      ResetErrorIsFinal(db, defs, i + 1);
    } else {
      assert defs[..i] == defs;
    }
  }
}
