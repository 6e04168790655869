/**
 * What particular versions of the step table do, and how the `when` keys
 * relate to the dispatch the upgrade loop uses.
 */
module Versions {
  import opened Wrappers
  import opened Schema
  import opened MigrationScript
  import opened StepTable
  import opened Upgrade

  /**
   * Only the keys 1 to 87 have a branch, so the visit of the target version
   * `getDbVersion()` itself changes nothing.
   */
  lemma OnlyKeysBelowTargetHaveSteps(v: int)
    ensures StepsFor(v) != [] ==> 1 <= v < DB_VERSION
    ensures StepsFor(DB_VERSION) == []
  {
  }

  lemma TargetVersionIsNoOp(st: Storage, addOns: set<string>, lo: int)
    requires lo <= DB_VERSION
    ensures Run(StepsFor, st, addOns, lo, DB_VERSION) == Run(StepsFor, st, addOns, lo, DB_VERSION - 1)
  {
    OnlyKeysBelowTargetHaveSteps(DB_VERSION);
    VersionWithoutStepsIsNoOp(StepsFor, st, addOns, lo, DB_VERSION);
  }

  lemma Key20() ensures StepsFor(20) == Step20() {}
  lemma Key31() ensures StepsFor(31) == Step31() {}
  lemma Key38() ensures StepsFor(38) == Step38() {}
  lemma Key45() ensures StepsFor(45) == Step45() {}
  lemma Key52() ensures StepsFor(52) == Step52() {}
  lemma Key61() ensures StepsFor(61) == Step61() {}

  /**
   * Opening at version 30 with no add-on and target 32 runs the steps keyed
   * 30 and 32; the WooCommerce step keyed 31 is visited but does nothing.
   */
  lemma UpgradeFrom30To32WithoutAddOns(st: Storage)
    ensures Run(StepsFor, st, {}, 30, 32) ==
      Then(Run(StepsFor, st, {}, 30, 30), StepsFor, {}, 32, 32)
  {
    Key31();
    assert AllGatedBy(Step31(), ADDON_WOOCOMMERCE);
    InactiveVersionIsSkipped(StepsFor, st, {}, ADDON_WOOCOMMERCE, 30, 31, 32);
  }

  /**
   * Step 20 renames `PluginModel` to `SitePluginModel` and `PluginInfoModel`
   * to `WPOrgPluginModel`, keeping their contents; nothing else changes. A
   * missing source or an existing target fails the first rename, or else the
   * second.
   */
  lemma Version20RenamesPluginTables(st: Storage, addOns: set<string>)
    ensures "PluginModel" !in st.tables ==> RunSteps(st, addOns, Step20()) == Err(NoSuchTable("PluginModel"))
    ensures "PluginModel" in st.tables && "SitePluginModel" in st.tables ==>
      RunSteps(st, addOns, Step20()) == Err(TableExists("SitePluginModel"))
    ensures
      && "PluginModel" in st.tables && "SitePluginModel" !in st.tables
      && "PluginInfoModel" !in st.tables
      ==>
      RunSteps(st, addOns, Step20()) == Err(NoSuchTable("PluginInfoModel"))
    ensures
      && "PluginModel" in st.tables && "SitePluginModel" !in st.tables
      && "PluginInfoModel" in st.tables && "WPOrgPluginModel" in st.tables
      ==>
      RunSteps(st, addOns, Step20()) == Err(TableExists("WPOrgPluginModel"))
    ensures
      && "PluginModel" in st.tables && "PluginInfoModel" in st.tables
      && "SitePluginModel" !in st.tables && "WPOrgPluginModel" !in st.tables
      ==>
      RunSteps(st, addOns, Step20()) == Ok(st.(tables :=
        (st.tables - {"PluginModel", "PluginInfoModel"})
          ["SitePluginModel" := st.tables["PluginModel"]]
          ["WPOrgPluginModel" := st.tables["PluginInfoModel"]]))
  {
    var script := [Rename("PluginModel", "SitePluginModel"), Rename("PluginInfoModel", "WPOrgPluginModel")];
    assert Step20() == [Ungated(script)];
    assert [Ungated(script)][..0] == [];
    assert RunSteps(st, addOns, Step20()) == RunScript(st, script);
    assert script[..1][..0] == [];
    var first := RunAction(st, script[0]);
    assert RunScript(st, script[..1]) == first;
    if first.Ok? {
      var t := first.value.tables;
      assert t == (st.tables - {"PluginModel"})["SitePluginModel" := st.tables["PluginModel"]];
      if "PluginInfoModel" in st.tables && "WPOrgPluginModel" !in st.tables {
        var expected := (st.tables - {"PluginModel", "PluginInfoModel"})
          ["SitePluginModel" := st.tables["PluginModel"]]
          ["WPOrgPluginModel" := st.tables["PluginInfoModel"]];
        assert (t - {"PluginInfoModel"})["WPOrgPluginModel" := t["PluginInfoModel"]] == expected;
      }
    }
  }

  /**
   * Step 38 moves a non-empty account token from the default preferences to
   * the fluxc preferences; an empty or missing token leaves both alone. No
   * table changes either way, and the step cannot fail.
   */
  lemma Version38MovesAccountToken(st: Storage, addOns: set<string>)
    ensures RunSteps(st, addOns, Step38()) == Ok(MoveToken(st))
    ensures StoredToken(st.defaultPrefs) != "" ==>
      && ACCOUNT_TOKEN_PREF_KEY in MoveToken(st).fluxcPrefs
      && MoveToken(st).fluxcPrefs[ACCOUNT_TOKEN_PREF_KEY] == st.defaultPrefs[ACCOUNT_TOKEN_PREF_KEY]
      && ACCOUNT_TOKEN_PREF_KEY !in MoveToken(st).defaultPrefs
      && MoveToken(st).tables == st.tables
  {
    assert Step38() == [Ungated([MoveAccountToken])];
    assert [Ungated([MoveAccountToken])][..0] == [];
    assert [MoveAccountToken][..0] == [];
  }

  /**
   * Version 45: the WooCommerce step adds `IS_SYSTEM_NOTE` to
   * `WCOrderNoteModel`, then the ungated step creates `NotificationModel`.
   * Without the add-on only the second happens.
   */
  lemma Version45Gating(st: Storage, addOns: set<string>)
    ensures |Step45()| == 2
    ensures Step45()[0] == Gated(ADDON_WOOCOMMERCE, [Add("WCOrderNoteModel", "IS_SYSTEM_NOTE")])
    ensures Step45()[1].addOn.None?
    ensures Step45()[1].script == [StepTable.Create("NotificationModel", [
      "_id", "REMOTE_NOTE_ID", "LOCAL_SITE_ID", "NOTE_HASH", "TYPE", "SUBTYPE", "READ", "ICON",
      "NOTICON", "TIMESTAMP", "URL", "TITLE", "FORMATTABLE_BODY", "FORMATTABLE_SUBJECT",
      "FORMATTABLE_META"])]
    ensures ADDON_WOOCOMMERCE !in addOns ==> RunSteps(st, addOns, Step45()) == RunScript(st, Step45()[1].script)
    ensures ADDON_WOOCOMMERCE in addOns && RunScript(st, Step45()[0].script).Ok? ==>
      RunSteps(st, addOns, Step45()) == RunScript(RunScript(st, Step45()[0].script).value, Step45()[1].script)
  {
    var steps := Step45();
    assert steps == [Gated(ADDON_WOOCOMMERCE, steps[0].script), Ungated(steps[1].script)];
    GatedThenUngated(st, addOns, ADDON_WOOCOMMERCE, steps[0].script, steps[1].script);
  }

  /**
   * Version 61: the WooCommerce step rebuilds `WCProductModel`, then the
   * ungated step drops and recreates `StatsRequest`. Without the add-on only
   * the second happens, and `WCProductModel` is untouched.
   */
  lemma Version61Gating(st: Storage, addOns: set<string>)
    ensures |Step61()| == 2
    ensures Step61()[0].addOn == Some(ADDON_WOOCOMMERCE)
    ensures Step61()[1].addOn.None? && Step61()[1].script[0] == Drop("StatsRequest")
    ensures ADDON_WOOCOMMERCE !in addOns ==> RunSteps(st, addOns, Step61()) == RunScript(st, Step61()[1].script)
    ensures ADDON_WOOCOMMERCE in addOns && RunScript(st, Step61()[0].script).Ok? ==>
      RunSteps(st, addOns, Step61()) == RunScript(RunScript(st, Step61()[0].script).value, Step61()[1].script)
  {
    var steps := Step61();
    assert steps == [Gated(ADDON_WOOCOMMERCE, steps[0].script), Ungated(steps[1].script)];
    GatedThenUngated(st, addOns, ADDON_WOOCOMMERCE, steps[0].script, steps[1].script);
  }

  /**
   * The rebuild idiom SQLite needs to change a table's constraints: create
   * `tmp` with the new definition, copy every row of `table` into it, drop
   * `table` and rename `tmp` to `table`. When it succeeds the table has the new
   * columns and exactly its old rows, `tmp` is gone, and nothing else changes.
   */
  function Rebuild(table: string, tmp: string, columns: seq<string>): seq<Action> {
    [StepTable.Create(tmp, columns), CopyAll(table, tmp), Drop(table), Rename(tmp, table)]
  }

  lemma {:induction false} RebuildKeepsRows(st: Storage, table: string, tmp: string, columns: seq<string>)
    requires table != tmp && Distinct(columns)
    ensures tmp in st.tables ==> RunScript(st, Rebuild(table, tmp, columns)) == Err(TableExists(tmp))
    ensures tmp !in st.tables && table !in st.tables ==>
      RunScript(st, Rebuild(table, tmp, columns)) == Err(NoSuchTable(table))
    ensures (tmp !in st.tables && table in st.tables && |st.tables[table].columns| != |columns|) ==>
      RunScript(st, Rebuild(table, tmp, columns)) == Err(ColumnCountMismatch(tmp, table))
    ensures (tmp !in st.tables && table in st.tables && |st.tables[table].columns| == |columns|) ==>
      RunScript(st, Rebuild(table, tmp, columns)) ==
        Ok(st.(tables := st.tables[table := Table(columns, st.tables[table].rows)]))
  {
    var script := Rebuild(table, tmp, columns);
    assert script[..1][..0] == [];
    assert script[..2][..1] == script[..1];
    assert script[..3][..2] == script[..2];
    assert script[..4] == script;
    var s1 := RunScript(st, script[..1]);
    assert RunScript(st, script[..1][..0]) == Ok(st);
    assert s1 == RunAction(st, script[0]);
    var s2 := RunScript(st, script[..2]);
    var s3 := RunScript(st, script[..3]);
    if s1.Ok? {
      assert s2 == RunAction(s1.value, script[1]);
      if s2.Ok? {
        assert s3 == RunAction(s2.value, script[2]);
        var t := st.tables;
        var t1 := t[tmp := Table(columns, [])];
        assert s1 == Ok(st.(tables := t1));
        assert [] + t[table].rows == t[table].rows;
        var t2 := t[tmp := Table(columns, t[table].rows)];
        assert t1[tmp := Table(columns, t[table].rows)] == t2;
        assert s2 == Ok(st.(tables := t2));
        var t3 := t2 - {table};
        assert s3 == Ok(st.(tables := t3));
        assert (t3 - {tmp})[table := t3[tmp]] == t[table := Table(columns, t[table].rows)];
      }
    }
  }

  const PLAN_OFFERS_FEATURE_COLUMNS := ["_id", "INTERNAL_PLAN_ID", "STRING_ID", "NAME", "DESCRIPTION"]

  /**
   * Step 52 rebuilds `PlanOffersFeature` through `PlanOffersFeatureTemp` with
   * five columns, with the outcomes of the rebuild idiom.
   */
  lemma Version52RebuildsPlanOffersFeature()
    ensures Step52() == [Ungated(Rebuild("PlanOffersFeature", "PlanOffersFeatureTemp", PLAN_OFFERS_FEATURE_COLUMNS))]
    ensures Distinct(PLAN_OFFERS_FEATURE_COLUMNS) && |PLAN_OFFERS_FEATURE_COLUMNS| == 5
    ensures forall st: Storage, addOns: set<string> ::
      RunSteps(st, addOns, Step52()) ==
        RunScript(st, Rebuild("PlanOffersFeature", "PlanOffersFeatureTemp", PLAN_OFFERS_FEATURE_COLUMNS))
  {
    var script := Rebuild("PlanOffersFeature", "PlanOffersFeatureTemp", PLAN_OFFERS_FEATURE_COLUMNS);
    assert DuplicateIn(PLAN_OFFERS_FEATURE_COLUMNS) == None;
    forall st: Storage, addOns: set<string>
      ensures RunSteps(st, addOns, Step52()) == RunScript(st, script)
    {
      assert [Ungated(script)][..0] == [];
    }
  }
}
