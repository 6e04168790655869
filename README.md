# WellSql migrator and WooCommerce order list, modelled in Dafny

This project models two parts of WordPress-FluxC-Android.

**`WellSqlConfig`: the database configuration of FluxC.** It has four jobs:

- `onCreate` creates every registered table.
- `onUpgrade` walks the versions from `oldVersion` to `newVersion`. Each version
  runs inside its own transaction. It runs the `migrate { }` and
  `migrateAddOn(name) { }` blocks of its `when` branch, in order. A
  `migrateAddOn` block runs only when its add-on (`"WC"`) is active.
- `reset` drops and recreates every registered table.
- `getDbVersion` is 88.

The database is a map from table name to columns and rows. Each SQL statement
of the 87 upgrade steps becomes one operation on that map. The operations fail
the way SQLite fails:

- creating a table that exists;
- adding a column that is already there;
- dropping, renaming or deleting from a missing table;
- renaming onto an existing name;
- copying between tables of different widths.

Step 38 moves the account token between two preference stores. Those stores
are part of the storage the steps change.

**The order list of the example app (`WCOrderListActivity.kt`).**

- `TimeGroup.getTimeGroupForDate` files a date as Today, Yesterday, older than
  two days, older than a week, or older than a month.
- `WCOrderListItemDataSource.getItemIdentifiers` files each stored order summary
  under the group of its creation date. A date that does not parse counts as
  now. It then lists each non-empty group after a header, newest group first.
- `getItemsAndFetchIfNecessary` maps identifiers to UI items. It shows a loading
  placeholder for, and asks the fetcher for, every order the store lacks.
- `fetchList` dispatches a fetch of one page.

Modules:

- `Wrappers`: `Option` and `Result`.
- `Schema`: tables, statements and their failure rules.
- `MigrationScript`: scripts, add-on gating and the preference move.
- `StepTable`: the 87 branches of the `when`, one function per version.
- `Upgrade`: the version loop as a function, with its transaction brackets.
- `Versions`: what particular versions do.
- `Registry`: `onCreate` and `reset` as functions.
- `WellSql`: the `WellSqlConfig` class.
- `OrderList`: the time groups, the list layout and the data-source class.

The imperative parts are class methods proved against the functions:

- the upgrade loop, `migrate`, the create loop and the reset loop;
- the bucket-filling loop of `getItemIdentifiers`.

The properties are lemmas about those functions.

Where the code and its own description differ, the model follows the code.
`reset` is documented as "drop and create all tables". It only drops the
*registered* tables, so any other table survives a reset
(`Registry.ResetKeepsOnlyUnregistered`).

## Model

The members in the table state properties of these specification functions,
which have no rows of their own because they only compute:
`MigrationScript.RunScript` (the statements of one `migrate` block),
`MigrationScript.RunStep` (one block, skipped when its add-on is inactive),
`MigrationScript.RunSteps` (all blocks of one version), `StepTable.StepsFor`
(the blocks of each version 1..87), `Upgrade.Run` (the `onUpgrade` loop),
`Registry.CreateAll` and `Registry.ResetAll` (`onCreate` and `reset` over the
registered tables), `OrderList.TimeGroupForDate`, `OrderList.Layout`
(`getItemIdentifiers`) and `OrderList.ItemsFor`
(`getItemsAndFetchIfNecessary`). The methods of `WellSql.WellSqlConfig` and
`OrderList` are proved against these functions.

| member | source | states |
|---|---|---|
| Schema.DuplicateIn | fluxc/src/main/java/org/wordpress/android/fluxc/persistence/WellSqlConfig.kt:909-911 | a create statement's columns have no duplicate exactly when none is reported; a reported name occurs twice |
| Schema.Apply | fluxc/src/main/java/org/wordpress/android/fluxc/persistence/WellSqlConfig.kt:46-889 | a statement that succeeds changes no table other than the ones it names |
| Schema.ApplyPreservesWellFormed | fluxc/src/main/java/org/wordpress/android/fluxc/persistence/WellSqlConfig.kt:46-889 | no successful statement leaves duplicate columns or a row of the wrong width |
| MigrationScript.MoveToken | fluxc/src/main/java/org/wordpress/android/fluxc/persistence/WellSqlConfig.kt:362-375 | a non-empty token is copied to the fluxc preferences and removed from the defaults; an empty or missing one changes nothing; tables are untouched |
| MigrationScript.InactiveAddOnIsNoOp | fluxc/src/main/java/org/wordpress/android/fluxc/persistence/WellSqlConfig.kt:920-925 | a `migrateAddOn` block of an inactive add-on changes nothing |
| MigrationScript.ActiveAddOnRunsScriptOnce | fluxc/src/main/java/org/wordpress/android/fluxc/persistence/WellSqlConfig.kt:915-925 | with the add-on active, `migrateAddOn` does exactly what `migrate` does: run the script once |
| MigrationScript.GatedThenUngated | fluxc/src/main/java/org/wordpress/android/fluxc/persistence/WellSqlConfig.kt:441-453 | a gated block followed by an ungated one: without the add-on only the second runs; with it the second runs on the first's result, and a failing first stops the version |
| MigrationScript.RunScriptPreservesWellFormed | fluxc/src/main/java/org/wordpress/android/fluxc/persistence/WellSqlConfig.kt:915-918 | a script that succeeds keeps every table well formed |
| MigrationScript.RunStepsPreservesWellFormed | fluxc/src/main/java/org/wordpress/android/fluxc/persistence/WellSqlConfig.kt:46-889 | a version whose blocks succeed keeps every table well formed |
| MigrationScript.ScriptErrorIsFinal | fluxc/src/main/java/org/wordpress/android/fluxc/persistence/WellSqlConfig.kt:915-918 | once a statement of a script fails, the script fails with that error whatever follows |
| MigrationScript.StepsErrorIsFinal | fluxc/src/main/java/org/wordpress/android/fluxc/persistence/WellSqlConfig.kt:46-889 | once a block of a version fails, the version fails with that error whatever blocks follow |
| Upgrade.RunSplit | fluxc/src/main/java/org/wordpress/android/fluxc/persistence/WellSqlConfig.kt:44-892 | upgrading through `[a, b]` and then `[b+1, c]` equals upgrading through `[a, c]` |
| Upgrade.AbortIsAtomic | fluxc/src/main/java/org/wordpress/android/fluxc/persistence/WellSqlConfig.kt:44-892 | a failed upgrade failed at a version inside the range, every earlier version committed, and reports the storage committed before the failing version |
| Upgrade.RunPreservesWellFormed | fluxc/src/main/java/org/wordpress/android/fluxc/persistence/WellSqlConfig.kt:44-892 | an upgrade, complete or aborted, keeps well-formed tables well formed |
| Upgrade.VersionWithoutStepsIsNoOp | fluxc/src/main/java/org/wordpress/android/fluxc/persistence/WellSqlConfig.kt:46-889 | a visited version without a `when` branch changes nothing |
| Upgrade.InactiveStepsAreNoOps | fluxc/src/main/java/org/wordpress/android/fluxc/persistence/WellSqlConfig.kt:920-925 | blocks that all belong to an inactive add-on change nothing |
| Upgrade.InactiveVersionIsSkipped | fluxc/src/main/java/org/wordpress/android/fluxc/persistence/WellSqlConfig.kt:278-304 | a version whose blocks all need an inactive add-on can be skipped without changing the upgrade |
| Upgrade.BracketsVisitEachVersionOnce | fluxc/src/main/java/org/wordpress/android/fluxc/persistence/WellSqlConfig.kt:44-892 | each version of the range gets exactly one begin, mark-successful, end, in increasing version order |
| Versions.OnlyKeysBelowTargetHaveSteps | fluxc/src/main/java/org/wordpress/android/fluxc/persistence/WellSqlConfig.kt:29-31 | only keys 1 to 87 have steps; the target version 88 has none |
| Versions.TargetVersionIsNoOp | fluxc/src/main/java/org/wordpress/android/fluxc/persistence/WellSqlConfig.kt:29-31 | visiting `getDbVersion()` itself at the end of the loop changes nothing |
| Versions.UpgradeFrom30To32WithoutAddOns | fluxc/src/main/java/org/wordpress/android/fluxc/persistence/WellSqlConfig.kt:268-319 | without add-ons, upgrading 30..32 runs only the steps keyed 30 and 32; the WooCommerce step 31 is visited but does nothing |
| Versions.Version20RenamesPluginTables | fluxc/src/main/java/org/wordpress/android/fluxc/persistence/WellSqlConfig.kt:172-175 | step 20 renames the two plugin tables keeping their contents and nothing else; a missing source or an existing target of the first rename, or else of the second, fails it with that error |
| Versions.Version38MovesAccountToken | fluxc/src/main/java/org/wordpress/android/fluxc/persistence/WellSqlConfig.kt:362-375 | step 38 never fails, changes no table, and moves a non-empty token to the fluxc preferences |
| Versions.Version45Gating | fluxc/src/main/java/org/wordpress/android/fluxc/persistence/WellSqlConfig.kt:441-453 | version 45 is the WooCommerce `IS_SYSTEM_NOTE` column then the ungated create of `NotificationModel` with its fifteen columns; without the add-on only the latter runs |
| Versions.Version61Gating | fluxc/src/main/java/org/wordpress/android/fluxc/persistence/WellSqlConfig.kt:616-686 | version 61 is the WooCommerce product rebuild then the ungated `StatsRequest` recreation; without the add-on only the latter runs |
| Versions.RebuildKeepsRows | fluxc/src/main/java/org/wordpress/android/fluxc/persistence/WellSqlConfig.kt:501-509 | the create-copy-drop-rename idiom leaves the table with its new columns and exactly its old rows, or fails with the named error |
| Versions.Version52RebuildsPlanOffersFeature | fluxc/src/main/java/org/wordpress/android/fluxc/persistence/WellSqlConfig.kt:501-509 | step 52 is that idiom on `PlanOffersFeature` with five distinct columns |
| Registry.ResetKeepsOnlyUnregistered | fluxc/src/main/java/org/wordpress/android/fluxc/persistence/WellSqlConfig.kt:906-913 | with valid definitions `reset` cannot fail and leaves every registered table fresh and every other table untouched |
| Registry.CreateAllOnEmpty | fluxc/src/main/java/org/wordpress/android/fluxc/persistence/WellSqlConfig.kt:37-39 | `onCreate` on an empty database succeeds iff every definition is valid and every name unique, and then yields the fresh registered tables |
| Registry.ResetIsIdempotent | fluxc/src/main/java/org/wordpress/android/fluxc/persistence/WellSqlConfig.kt:906-913 | resetting twice equals resetting once |
| Registry.ResetOfRegisteredIsCreate | fluxc/src/main/java/org/wordpress/android/fluxc/persistence/WellSqlConfig.kt:906-913 | a database holding only registered tables resets to what `onCreate` builds on an empty one |
| Registry.CreateErrorIsFinal | fluxc/src/main/java/org/wordpress/android/fluxc/persistence/WellSqlConfig.kt:37-39 | once a table fails to create, `onCreate` fails with that error |
| Registry.ResetErrorIsFinal | fluxc/src/main/java/org/wordpress/android/fluxc/persistence/WellSqlConfig.kt:906-913 | once a table fails to reset, `reset` fails with that error |
| Registry.CreateTableOutcome | fluxc/src/main/java/org/wordpress/android/fluxc/persistence/WellSqlConfig.kt:38 | a `CREATE TABLE` succeeds iff the name is free and the columns distinct, and then adds an empty table |
| Registry.DropThenCreate | fluxc/src/main/java/org/wordpress/android/fluxc/persistence/WellSqlConfig.kt:910-911 | `DROP TABLE IF EXISTS` never fails, and the create after it succeeds with an empty table |
| WellSql.WellSqlConfig.constructor | fluxc/src/main/java/org/wordpress/android/fluxc/persistence/WellSqlConfig.kt:21-22 | the add-ons and registered tables are fixed; the journal of transaction calls is empty |
| WellSql.WellSqlConfig.Migrate | fluxc/src/main/java/org/wordpress/android/fluxc/persistence/WellSqlConfig.kt:915-918 | the statement loop reaches the script's result; on failure the storage is that of the statements before the failing one, and that statement raises the reported error |
| WellSql.WellSqlConfig.MigrateAddOn | fluxc/src/main/java/org/wordpress/android/fluxc/persistence/WellSqlConfig.kt:920-925 | runs the script only when the add-on is active, with the gated step's result; a failure happens only with the add-on active, and leaves the storage of the statements before the failing one |
| WellSql.WellSqlConfig.MigrateVersion | fluxc/src/main/java/org/wordpress/android/fluxc/persistence/WellSqlConfig.kt:46-889 | the blocks of one `when` branch in order reach that version's result or its error; on failure the storage is that of the earlier blocks and of the statements of a running block before the failing one |
| WellSql.WellSqlConfig.OnUpgrade | fluxc/src/main/java/org/wordpress/android/fluxc/persistence/WellSqlConfig.kt:41-893 | the loop's outcome and final storage are those of the upgrade function, and its transaction calls are full brackets for committed versions plus an unclosed begin for a failing one |
| WellSql.WellSqlConfig.OnCreate | fluxc/src/main/java/org/wordpress/android/fluxc/persistence/WellSqlConfig.kt:37-39 | creates the registered tables in order, or stops at the first failure with the tables created so far, the error being the one the next table's create raises on them; preferences unchanged |
| WellSql.WellSqlConfig.Reset | fluxc/src/main/java/org/wordpress/android/fluxc/persistence/WellSqlConfig.kt:906-913 | drops and recreates the registered tables in order, or stops at a failing create with the earlier work kept and that table dropped, the error being the one that create raises on them |
| OrderList.TimeGroupByDay | example/src/main/java/org/wordpress/android/fluxc/example/WCOrderListActivity.kt:168-178 | each group in calendar terms, both directions: month, week, up to the day before yesterday, yesterday, today or later |
| OrderList.TimeGroupIsMonotone | example/src/main/java/org/wordpress/android/fluxc/example/WCOrderListActivity.kt:168-178 | a later date never falls in an older group; every date from now on is Today |
| OrderList.UnparseableDateIsToday | example/src/main/java/org/wordpress/android/fluxc/example/WCOrderListActivity.kt:243-245 | an order whose creation date does not parse is filed under Today |
| OrderList.FoundSummariesMembers | example/src/main/java/org/wordpress/android/fluxc/example/WCOrderListActivity.kt:229-232 | the found summaries are exactly the stored ones of the listed ids, at most one per id |
| OrderList.FoundKeepsIdOrder | example/src/main/java/org/wordpress/android/fluxc/example/WCOrderListActivity.kt:229-232 | the found summaries follow the order of `remoteItemIds`: the k-th is the summary of the id at a strictly increasing position, covering every id the store has |
| OrderList.Filing | example/src/main/java/org/wordpress/android/fluxc/example/WCOrderListActivity.kt:242-252 | one entry per found summary, in order, with the summary's id and the group of its date |
| OrderList.BucketMembers | example/src/main/java/org/wordpress/android/fluxc/example/WCOrderListActivity.kt:234-252 | a group's list holds every order filed under it and nothing else |
| OrderList.BucketsPartition | example/src/main/java/org/wordpress/android/fluxc/example/WCOrderListActivity.kt:242-252 | the five lists together are as long as the found summaries |
| OrderList.BucketsPartitionEntries | example/src/main/java/org/wordpress/android/fluxc/example/WCOrderListActivity.kt:242-252 | the five lists together hold each filed order's identifier exactly as often as it was filed (multiset equality) |
| OrderList.BucketKeepsOrder | example/src/main/java/org/wordpress/android/fluxc/example/WCOrderListActivity.kt:242-252 | a group's list holds the orders filed under it in filing order: strictly increasing positions, covering every order of the group |
| OrderList.SectionHeaders | example/src/main/java/org/wordpress/android/fluxc/example/WCOrderListActivity.kt:254-270 | the headers emitted are exactly the groups with a non-empty list, in section order |
| OrderList.SectionOrders | example/src/main/java/org/wordpress/android/fluxc/example/WCOrderListActivity.kt:254-270 | the order identifiers emitted are the group lists one after the other |
| OrderList.NonEmptyGroupsMembers | example/src/main/java/org/wordpress/android/fluxc/example/WCOrderListActivity.kt:254-270 | a group gets a section iff it is listed and its list is non-empty |
| OrderList.NonEmptyGroupsInRankOrder | example/src/main/java/org/wordpress/android/fluxc/example/WCOrderListActivity.kt:254-270 | skipping empty groups keeps the sections newest first |
| OrderList.LayoutCounts | example/src/main/java/org/wordpress/android/fluxc/example/WCOrderListActivity.kt:254-270 | the result has one order entry per filed order and otherwise only headers |
| OrderList.LayoutOrders | example/src/main/java/org/wordpress/android/fluxc/example/WCOrderListActivity.kt:254-270 | every filed order is in its group's list, and every order entry of the result is a filed order |
| OrderList.LayoutHeaders | example/src/main/java/org/wordpress/android/fluxc/example/WCOrderListActivity.kt:254-270 | a group has a header iff some order is filed under it; headers are newest first |
| OrderList.LayoutEntries | example/src/main/java/org/wordpress/android/fluxc/example/WCOrderListActivity.kt:254-270 | the order entries of the result are, as a multiset, the identifiers of the filed orders |
| OrderList.LayoutShape | example/src/main/java/org/wordpress/android/fluxc/example/WCOrderListActivity.kt:224-271 | `getItemIdentifiers` lists every found order exactly as often as it was found (multiset equality), each under the group of its date, with one header per non-empty group, newest group first |
| OrderList.SectionInFoundOrder | example/src/main/java/org/wordpress/android/fluxc/example/WCOrderListActivity.kt:242-270 | a group's header follows the newer groups' sections and is followed by exactly that group's found orders, in found order |
| OrderList.GroupKeepsIdOrder | example/src/main/java/org/wordpress/android/fluxc/example/WCOrderListActivity.kt:229-252 | the orders of one group keep the relative order of `remoteItemIds` |
| OrderList.SectionPlacement | example/src/main/java/org/wordpress/android/fluxc/example/WCOrderListActivity.kt:254-270 | a non-empty list sits right after its header, which follows the sections of the earlier groups |
| OrderList.SectionsPrefix | example/src/main/java/org/wordpress/android/fluxc/example/WCOrderListActivity.kt:254-270 | the sections of the earlier groups are a prefix of the result |
| OrderList.LayoutUnfolds | example/src/main/java/org/wordpress/android/fluxc/example/WCOrderListActivity.kt:254-270 | the result is the five sections, today to month, each a header and its list or nothing |
| OrderList.RemoteIdsOf | example/src/main/java/org/wordpress/android/fluxc/example/WCOrderListActivity.kt:193 | the ids are exactly those of the order identifiers |
| OrderList.MissingIds | example/src/main/java/org/wordpress/android/fluxc/example/WCOrderListActivity.kt:198 | the ids fetched are exactly the listed ids the store lacks |
| OrderList.RemoteIdsOfAppend | example/src/main/java/org/wordpress/android/fluxc/example/WCOrderListActivity.kt:193 | the order ids are collected in list order: over two lists in turn they are the ids of each, concatenated |
| OrderList.MissingIdsAppend | example/src/main/java/org/wordpress/android/fluxc/example/WCOrderListActivity.kt:198 | the ids to fetch keep the listed order: over two lists in turn they are the missing ids of each, concatenated |
| OrderList.OrderNameRoundTrip | example/src/main/java/org/wordpress/android/fluxc/example/WCOrderListActivity.kt:210 | first and last name can be read back from `orderName` when the first name has no space |
| OrderList.ItemsShowStoredOrders | example/src/main/java/org/wordpress/android/fluxc/example/WCOrderListActivity.kt:201-221 | one item per identifier: headers keep their title; a stored order shows its own id, number, status, total and as name the first name, one space, the last name; any other order is a placeholder |
| OrderList.LoadingExactlyForFetched | example/src/main/java/org/wordpress/android/fluxc/example/WCOrderListActivity.kt:193-221 | an item is a loading placeholder iff its id is among those sent to the fetcher, and every fetched id is shown as loading |
| OrderList.WCOrderListItemDataSource.constructor | example/src/main/java/org/wordpress/android/fluxc/example/WCOrderListActivity.kt:182-187 | no fetch requested and nothing dispatched yet |
| OrderList.WCOrderListItemDataSource.GetItemsAndFetchIfNecessary | example/src/main/java/org/wordpress/android/fluxc/example/WCOrderListActivity.kt:189-222 | returns the mapped items and sends one fetch of exactly the missing ids for the descriptor's site |
| OrderList.WCOrderListItemDataSource.GetItemIdentifiers | example/src/main/java/org/wordpress/android/fluxc/example/WCOrderListActivity.kt:224-271 | the bucket-filling loop returns the layout of the found summaries |
| OrderList.WCOrderListItemDataSource.FetchList | example/src/main/java/org/wordpress/android/fluxc/example/WCOrderListActivity.kt:273-276 | dispatches exactly one payload for the descriptor and offset, requesting no order fetch |

## Left out

- Android and library plumbing is not modelled: `Context`, `SQLiteDatabase`,
  `WellTableManager`, logging, `getDbName` and `onConfigure`. `onConfigure` only
  turns on foreign keys.
- Column types and constraints are not modelled: `NOT NULL`, `UNIQUE`, foreign
  keys and primary keys. A table is its ordered column names and its rows. So
  the purpose of the constraint-changing rebuilds (step 52 drops a `UNIQUE`)
  is lost. Their effect on rows is kept.
- SQL names are compared exactly, although SQLite compares them without regard
  to case.
- The `SQLiteOpenHelper` transaction around `onUpgrade` is not modelled. In the
  model a failing statement discards only its own version's changes, ends the
  loop, and leaves the earlier versions committed. On the device, the
  exception would also roll back the helper's outer transaction.
- `Date()`, the calendar arithmetic of `DateUtils` and the ISO-8601 parser of
  `DateTimeUtils` become parameters: a `Clock` and a `parse` function.
  `Consistent` states the properties of the calendar that are assumed. The
  source reads `Date()` separately in the classifier and in the date default.
  The model uses one "now" per call.
- The order store, the fetcher and the dispatcher are not modelled. The store's
  answers are parameters. The fetcher and the dispatcher are logs of the
  requests sent to them, so what `WCOrderFetcher` does with a request is not
  modelled. Every request is logged, including one with no ids.
- `isListFullyFetched` is a parameter of `GetItemIdentifiers`, as in the
  source, which does not use it.
- `OrderList.WCOrderListItemDataSource.GetItemIdentifiers`: the final assembly
  is written as five sections joined together. The source has five `if` blocks
  that each append to a mutable list. A section of an empty list is empty, so
  the result is the same.
- The other members of the activity are not modelled: the UI, `Lifecycle`, the
  paged-list wiring and the view holders. The other files of the repository
  are not part of this model.
