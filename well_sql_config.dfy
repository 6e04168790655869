/**
 * `WellSqlConfig`: the object that owns the database while it is created,
 * upgraded or reset. The tables, the two preference stores and the record of
 * transaction calls are its state; the add-ons and the registered tables are
 * fixed when it is built.
 */
module WellSql {
  import opened Wrappers
  import opened Schema
  import opened MigrationScript
  import opened StepTable
  import opened Upgrade
  import opened Registry

  class WellSqlConfig {
    /** `mActiveAddOns`. */
    const activeAddOns: set<string>
    /** `mTables`, in registration order. */
    const tableDefs: seq<TableDef>
    /** The `when (version)` of `onUpgrade`. */
    const steps: Migrations
    var tables: Tables
    var defaultPrefs: map<string, string>
    var fluxcPrefs: map<string, string>
    /** The `beginTransaction` / `setTransactionSuccessful` / `endTransaction` calls made so far. */
    var journal: seq<TxEvent>

    constructor(addOns: set<string>, defs: seq<TableDef>, db: Tables, prefs: map<string, string>, fluxc: map<string, string>)
      ensures activeAddOns == addOns && tableDefs == defs && steps == StepsFor
      ensures tables == db && defaultPrefs == prefs && fluxcPrefs == fluxc && journal == []
    {
      activeAddOns := addOns;
      tableDefs := defs;
      steps := StepsFor;
      tables := db;
      defaultPrefs := prefs;
      fluxcPrefs := fluxc;
      journal := [];
    }

    function State(): Storage
      reads this
    {
      Storage(tables, defaultPrefs, fluxcPrefs)
    }

    method SetState(st: Storage)
      modifies this
      ensures State() == st && journal == old(journal)
    {
      tables, defaultPrefs, fluxcPrefs := st.tables, st.defaultPrefs, st.fluxcPrefs;
    }

    /**
     * `migrate`: runs the script's statements one by one against the
     * database. A failing statement stops the script with the state the
     * statements before it left.
     */
    method Migrate(script: seq<Action>) returns (err: Option<SqlError>)
      modifies this
      ensures journal == old(journal)
      ensures err.None? <==> RunScript(old(State()), script).Ok?
      ensures err.None? ==> State() == RunScript(old(State()), script).value
      ensures err.Some? ==> err.value == RunScript(old(State()), script).error
      ensures err.Some? ==> exists i :: (0 <= i < |script| && RunScript(old(State()), script[..i]) == Ok(State())
        && RunAction(State(), script[i]) == Err(err.value))
    {
      ghost var st0 := State();
      var i := 0;
      while i < |script|
        invariant 0 <= i <= |script|
        invariant journal == old(journal)
        invariant RunScript(st0, script[..i]) == Ok(State())
      {
        assert script[..i + 1][..i] == script[..i];
        var r := RunAction(State(), script[i]);
        if r.Err? {
          assert RunScript(st0, script[..i + 1]) == r;
          ScriptErrorIsFinal(st0, script, i + 1);
          return Some(r.error);
        }
        SetState(r.value);
        i := i + 1;
      }
      assert script[..i] == script;
      return None;
    }

    /** `migrateAddOn`: runs the script only when the add-on is active. */
    method MigrateAddOn(name: string, script: seq<Action>) returns (err: Option<SqlError>)
      modifies this
      ensures journal == old(journal)
      ensures err.None? <==> RunStep(old(State()), activeAddOns, Gated(name, script)).Ok?
      ensures err.None? ==> State() == RunStep(old(State()), activeAddOns, Gated(name, script)).value
      ensures err.Some? ==> err.value == RunStep(old(State()), activeAddOns, Gated(name, script)).error
      ensures err.Some? ==> name in activeAddOns
      ensures err.Some? ==> exists i :: (0 <= i < |script| && RunScript(old(State()), script[..i]) == Ok(State())
        && RunAction(State(), script[i]) == Err(err.value))
    {
      if name in activeAddOns {
        err := Migrate(script);
      } else {
        err := None;
      }
    }

    /** The `when` branch of one version: its `migrate` and `migrateAddOn` blocks in order. */
    method MigrateVersion(version: int) returns (err: Option<SqlError>)
      modifies this
      ensures journal == old(journal)
      ensures err.None? <==> RunVersion(steps, old(State()), activeAddOns, version).Ok?
      ensures err.None? ==> State() == RunVersion(steps, old(State()), activeAddOns, version).value
      ensures err.Some? ==> err.value == RunVersion(steps, old(State()), activeAddOns, version).error
      ensures err.Some? ==>
        exists j, i :: (0 <= j < |steps(version)| && 0 <= i < |steps(version)[j].script|
          && (steps(version)[j].addOn.None? || steps(version)[j].addOn.value in activeAddOns)
          && RunSteps(old(State()), activeAddOns, steps(version)[..j]).Ok?
          && RunScript(RunSteps(old(State()), activeAddOns, steps(version)[..j]).value, steps(version)[j].script[..i]) == Ok(State())
          && RunAction(State(), steps(version)[j].script[i]) == Err(err.value))
    {
      ghost var st0 := State();
      var blocks := steps(version);
      var i := 0;
      while i < |blocks|
        invariant 0 <= i <= |blocks|
        invariant journal == old(journal)
        invariant RunSteps(st0, activeAddOns, blocks[..i]) == Ok(State())
      {
        assert blocks[..i + 1][..i] == blocks[..i];
        ghost var before := State();
        var block := blocks[i];
        if block.addOn.Some? {
          err := MigrateAddOn(block.addOn.value, block.script);
        } else {
          err := Migrate(block.script);
        }
        assert RunSteps(st0, activeAddOns, blocks[..i + 1]) == RunStep(before, activeAddOns, block);
        if err.Some? {
          StepsErrorIsFinal(st0, activeAddOns, blocks, i + 1);
          ghost var k :| 0 <= k < |block.script| && RunScript(before, block.script[..k]) == Ok(State())
            && RunAction(State(), block.script[k]) == Err(err.value);
          assert RunSteps(st0, activeAddOns, blocks[..i]).value == before;
          return;
        }
        i := i + 1;
      }
      assert blocks[..i] == blocks;
      return None;
    }

    /**
     * `onUpgrade`: visits every version from `oldVersion` to `newVersion` in
     * order, each inside its own transaction. A failing statement leaves its
     * transaction open and uncommitted, so that version's changes are
     * discarded, and ends the upgrade.
     */
    method OnUpgrade(oldVersion: int, newVersion: int) returns (outcome: UpgradeOutcome)
      modifies this
      ensures outcome == Run(steps, old(State()), activeAddOns, oldVersion, newVersion)
      ensures State() == outcome.Final()
      ensures journal == old(journal) + Journal(oldVersion, newVersion, outcome)
    {
      ghost var st0 := State();
      var version := oldVersion;
      while version <= newVersion
        invariant oldVersion <= version
        invariant version <= newVersion + 1 || version == oldVersion
        invariant Run(steps, st0, activeAddOns, oldVersion, version - 1) == Upgraded(State())
        invariant journal == old(journal) + Brackets(oldVersion, version - 1)
      {
        journal := journal + [BeginTransaction(version)];
        var committed := State();
        var err := MigrateVersion(version);
        if err.Some? {
          SetState(committed);
          outcome := Aborted(version, err.value, committed);
          assert Run(steps, st0, activeAddOns, oldVersion, version) == outcome;
          RunSplit(steps, st0, activeAddOns, oldVersion, version, newVersion);
          return;
        }
        journal := journal + [SetTransactionSuccessful(version), EndTransaction(version)];
        version := version + 1;
      }
      outcome := Upgraded(State());
      if version == oldVersion {
        assert Run(steps, st0, activeAddOns, oldVersion, newVersion) == Upgraded(st0);
      }
    }

    /** `onCreate`: creates every registered table in order; a failure stops it. */
    method OnCreate() returns (err: Option<SqlError>)
      modifies this
      ensures journal == old(journal) && defaultPrefs == old(defaultPrefs) && fluxcPrefs == old(fluxcPrefs)
      ensures err.None? <==> CreateAll(old(tables), tableDefs).Ok?
      ensures err.None? ==> tables == CreateAll(old(tables), tableDefs).value
      ensures err.Some? ==> err.value == CreateAll(old(tables), tableDefs).error
      ensures err.Some? ==>
        exists i :: (0 <= i < |tableDefs| && CreateAll(old(tables), tableDefs[..i]) == Ok(tables) &&
          Apply(tables, CreateTable(tableDefs[i].name, tableDefs[i].columns)) == Err(err.value))
    {
      ghost var db0 := tables;
      var i := 0;
      while i < |tableDefs|
        invariant 0 <= i <= |tableDefs|
        invariant journal == old(journal) && defaultPrefs == old(defaultPrefs) && fluxcPrefs == old(fluxcPrefs)
        invariant CreateAll(db0, tableDefs[..i]) == Ok(tables)
      {
        assert tableDefs[..i + 1][..i] == tableDefs[..i];
        var d := tableDefs[i];
        var r := Apply(tables, CreateTable(d.name, d.columns));
        if r.Err? {
          assert CreateAll(db0, tableDefs[..i + 1]) == r;
          CreateErrorIsFinal(db0, tableDefs, i + 1);
          return Some(r.error);
        }
        tables := r.value;
        i := i + 1;
      }
      assert tableDefs[..i] == tableDefs;
      return None;
    }

    /**
     * `reset`: for every registered table in order, `DROP TABLE IF EXISTS`
     * then its `CREATE TABLE`. There is no transaction: a failing create
     * leaves what the earlier statements did.
     */
    method Reset() returns (err: Option<SqlError>)
      modifies this
      ensures journal == old(journal) && defaultPrefs == old(defaultPrefs) && fluxcPrefs == old(fluxcPrefs)
      ensures err.None? <==> ResetAll(old(tables), tableDefs).Ok?
      ensures err.None? ==> tables == ResetAll(old(tables), tableDefs).value
      ensures err.Some? ==> err.value == ResetAll(old(tables), tableDefs).error
      ensures err.Some? ==>
        exists i :: (0 <= i < |tableDefs| && ResetAll(old(tables), tableDefs[..i]).Ok? &&
          tables == ResetAll(old(tables), tableDefs[..i]).value - {tableDefs[i].name} &&
          Apply(tables, CreateTable(tableDefs[i].name, tableDefs[i].columns)) == Err(err.value))
    {
      ghost var db0 := tables;
      var i := 0;
      while i < |tableDefs|
        invariant 0 <= i <= |tableDefs|
        invariant journal == old(journal) && defaultPrefs == old(defaultPrefs) && fluxcPrefs == old(fluxcPrefs)
        invariant ResetAll(db0, tableDefs[..i]) == Ok(tables)
      {
        var d := tableDefs[i];
        var dropped := Apply(tables, DropTableIfExists(d.name));
        tables := dropped.value;
        var created := Apply(tables, CreateTable(d.name, d.columns));
        ResetOneMore(db0, tableDefs, i);
        if created.Err? {
          ResetErrorIsFinal(db0, tableDefs, i + 1);
          return Some(created.error);
        }
        tables := created.value;
        i := i + 1;
      }
      assert tableDefs[..i] == tableDefs;
      return None;
    }
  }
}
