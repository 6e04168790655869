/**
 * The step table of `WellSqlConfig.onUpgrade`: for each version key, the
 * `migrate` / `migrateAddOn` blocks of its `when` branch, in source order, each
 * statement reduced to the tables and columns it names. The step keyed `v`
 * brings the schema from version `v` to `v + 1`.
 */
module StepTable {
  import opened Wrappers
  import opened Schema
  import opened MigrationScript

  const ADDON_WOOCOMMERCE := "WC"

  /** `getDbVersion()`. */
  const DB_VERSION := 88

  function Add(table: string, column: string): Action {
    Exec(AddColumn(table, column, Null))
  }

  function AddWithDefault(table: string, column: string, default: Value): Action {
    Exec(AddColumn(table, column, default))
  }

  function Create(name: string, columns: seq<string>): Action {
    Exec(CreateTable(name, columns))
  }

  function CreateIfAbsent(name: string, columns: seq<string>): Action {
    Exec(CreateTableIfNotExists(name, columns))
  }

  function Drop(name: string): Action {
    Exec(DropTable(name))
  }

  function DropIfExists(name: string): Action {
    Exec(DropTableIfExists(name))
  }

  function Rename(from: string, to: string): Action {
    Exec(RenameTable(from, to))
  }

  function DeleteAll(table: string): Action {
    Exec(DeleteRows(table))
  }

  function CopyAll(source: string, target: string): Action {
    Exec(CopyRows(source, target))
  }

  /** The `when (version)` dispatch; a version without a branch has no steps. */
  function StepsFor(version: int): seq<Step> {
    if version < 1 || DB_VERSION <= version then []
    else KeyedSteps(version)
  }

  /**
   * The branches of the `when`, keyed 1 to 87, found by halving the key
   * range (a flat 87-way comparison is needlessly slow to reason about).
   */
  function KeyedSteps(version: int): seq<Step>
    requires 1 <= version < DB_VERSION
  {
    if version <= 44 then
      if version <= 22 then
        if version <= 11 then
          if version <= 6 then
            if version <= 3 then
              if version <= 2 then
                if version <= 1 then
                  Step1()
                else
                  Step2()
              else
                Step3()
            else
              if version <= 5 then
                if version <= 4 then
                  Step4()
                else
                  Step5()
              else
                Step6()
          else
            if version <= 9 then
              if version <= 8 then
                if version <= 7 then
                  Step7()
                else
                  Step8()
              else
                Step9()
            else
              if version <= 10 then
                Step10()
              else
                Step11()
        else
          if version <= 17 then
            if version <= 14 then
              if version <= 13 then
                if version <= 12 then
                  Step12()
                else
                  Step13()
              else
                Step14()
            else
              if version <= 16 then
                if version <= 15 then
                  Step15()
                else
                  Step16()
              else
                Step17()
          else
            if version <= 20 then
              if version <= 19 then
                if version <= 18 then
                  Step18()
                else
                  Step19()
              else
                Step20()
            else
              if version <= 21 then
                Step21()
              else
                Step22()
      else
        if version <= 33 then
          if version <= 28 then
            if version <= 25 then
              if version <= 24 then
                if version <= 23 then
                  Step23()
                else
                  Step24()
              else
                Step25()
            else
              if version <= 27 then
                if version <= 26 then
                  Step26()
                else
                  Step27()
              else
                Step28()
          else
            if version <= 31 then
              if version <= 30 then
                if version <= 29 then
                  Step29()
                else
                  Step30()
              else
                Step31()
            else
              if version <= 32 then
                Step32()
              else
                Step33()
        else
          if version <= 39 then
            if version <= 36 then
              if version <= 35 then
                if version <= 34 then
                  Step34()
                else
                  Step35()
              else
                Step36()
            else
              if version <= 38 then
                if version <= 37 then
                  Step37()
                else
                  Step38()
              else
                Step39()
          else
            if version <= 42 then
              if version <= 41 then
                if version <= 40 then
                  Step40()
                else
                  Step41()
              else
                Step42()
            else
              if version <= 43 then
                Step43()
              else
                Step44()
    else
      if version <= 66 then
        if version <= 55 then
          if version <= 50 then
            if version <= 47 then
              if version <= 46 then
                if version <= 45 then
                  Step45()
                else
                  Step46()
              else
                Step47()
            else
              if version <= 49 then
                if version <= 48 then
                  Step48()
                else
                  Step49()
              else
                Step50()
          else
            if version <= 53 then
              if version <= 52 then
                if version <= 51 then
                  Step51()
                else
                  Step52()
              else
                Step53()
            else
              if version <= 54 then
                Step54()
              else
                Step55()
        else
          if version <= 61 then
            if version <= 58 then
              if version <= 57 then
                if version <= 56 then
                  Step56()
                else
                  Step57()
              else
                Step58()
            else
              if version <= 60 then
                if version <= 59 then
                  Step59()
                else
                  Step60()
              else
                Step61()
          else
            if version <= 64 then
              if version <= 63 then
                if version <= 62 then
                  Step62()
                else
                  Step63()
              else
                Step64()
            else
              if version <= 65 then
                Step65()
              else
                Step66()
      else
        if version <= 77 then
          if version <= 72 then
            if version <= 69 then
              if version <= 68 then
                if version <= 67 then
                  Step67()
                else
                  Step68()
              else
                Step69()
            else
              if version <= 71 then
                if version <= 70 then
                  Step70()
                else
                  Step71()
              else
                Step72()
          else
            if version <= 75 then
              if version <= 74 then
                if version <= 73 then
                  Step73()
                else
                  Step74()
              else
                Step75()
            else
              if version <= 76 then
                Step76()
              else
                Step77()
        else
          if version <= 82 then
            if version <= 80 then
              if version <= 79 then
                if version <= 78 then
                  Step78()
                else
                  Step79()
              else
                Step80()
            else
              if version <= 81 then
                Step81()
              else
                Step82()
          else
            if version <= 85 then
              if version <= 84 then
                if version <= 83 then
                  Step83()
                else
                  Step84()
              else
                Step85()
            else
              if version <= 86 then
                Step86()
              else
                Step87()
  }

  // WellSqlConfig.kt:47-49
  function Step1(): seq<Step> {
    [Ungated([Add("SiteModel", "ICON_URL")])]
  }

  // WellSqlConfig.kt:50-52
  function Step2(): seq<Step> {
    [Ungated([Add("SiteModel", "FRAME_NONCE")])]
  }

  // WellSqlConfig.kt:53-55
  function Step3(): seq<Step> {
    [Ungated([Add("AccountModel", "EMAIL_VERIFIED")])]
  }

  // WellSqlConfig.kt:56-58
  function Step4(): seq<Step> {
    [Ungated([Add("SiteModel", "ORIGIN")])]
  }

  // WellSqlConfig.kt:59-61
  function Step5(): seq<Step> {
    [Ungated([Add("SiteModel", "HAS_FREE_PLAN")])]
  }

  // WellSqlConfig.kt:62-64
  function Step6(): seq<Step> {
    [Ungated([Add("SiteModel", "UNMAPPED_URL")])]
  }

  // WellSqlConfig.kt:65-96
  function Step7(): seq<Step> {
    [
      Ungated([
        CreateIfAbsent("MediaModel", [
          "_id", "MEDIA_ID", "POST_ID", "AUTHOR_ID", "GUID", "UPLOAD_DATE", "URL", "THUMBNAIL_URL",
          "FILE_NAME", "FILE_PATH", "FILE_EXTENSION", "MIME_TYPE", "TITLE", "CAPTION", "DESCRIPTION",
          "ALT", "WIDTH", "HEIGHT", "LENGTH", "VIDEO_PRESS_GUID", "VIDEO_PRESS_PROCESSING_DONE",
          "BLOG_ID", "HORIZONTAL_ALIGNMENT", "VERTICAL_ALIGNMENT", "FEATURED", "FEATURED_IN_POST"]),
        Add("MediaModel", "LOCAL_POST_ID")
      ])
    ]
  }

  // WellSqlConfig.kt:97-101
  function Step8(): seq<Step> {
    [
      Ungated([
        Add("MediaModel", "FILE_URL_MEDIUM_SIZE"),
        Add("MediaModel", "FILE_URL_MEDIUM_LARGE_SIZE"),
        Add("MediaModel", "FILE_URL_LARGE_SIZE")
      ])
    ]
  }

  // WellSqlConfig.kt:102-104
  function Step9(): seq<Step> {
    [Ungated([Add("SiteModel", "MAX_UPLOAD_SIZE")])]
  }

  // WellSqlConfig.kt:105-107
  function Step10(): seq<Step> {
    [Ungated([Add("SiteModel", "MEMORY_LIMIT")])]
  }

  // WellSqlConfig.kt:108-113
  function Step11(): seq<Step> {
    [Ungated([Create("RoleModel", ["_id", "SITE_ID", "NAME", "DISPLAY_NAME"])])]
  }

  // WellSqlConfig.kt:114-120
  function Step12(): seq<Step> {
    [
      Ungated([
        Create("PluginModel", [
          "_id", "LOCAL_SITE_ID", "NAME", "DISPLAY_NAME", "PLUGIN_URL", "VERSION", "SLUG",
          "DESCRIPTION", "AUTHOR_NAME", "AUTHOR_URL", "IS_ACTIVE", "IS_AUTO_UPDATE_ENABLED"])
      ])
    ]
  }

  // WellSqlConfig.kt:121-126
  function Step13(): seq<Step> {
    [Ungated([Create("PluginInfoModel", ["_id", "NAME", "SLUG", "VERSION", "RATING", "ICON"])])]
  }

  // WellSqlConfig.kt:127-138
  function Step14(): seq<Step> {
    [
      Ungated([
        Create("MediaUploadModel", [
          "_id", "UPLOAD_STATE", "PROGRESS", "ERROR_TYPE", "ERROR_MESSAGE"]),
        Create("PostUploadModel", [
          "_id", "UPLOAD_STATE", "ASSOCIATED_MEDIA_IDS", "ERROR_TYPE", "ERROR_MESSAGE"])
      ])
    ]
  }

  // WellSqlConfig.kt:139-147
  function Step15(): seq<Step> {
    [
      Ungated([
        Create("ThemeModel", [
          "_id", "LOCAL_SITE_ID", "THEME_ID", "NAME", "DESCRIPTION", "SLUG", "VERSION",
          "AUTHOR_NAME", "AUTHOR_URL", "THEME_URL", "SCREENSHOT_URL", "DEMO_URL", "DOWNLOAD_URL",
          "STYLESHEET", "CURRENCY", "PRICE", "ACTIVE", "AUTO_UPDATE", "AUTO_UPDATE_TRANSLATION",
          "IS_WP_COM_THEME"])
      ])
    ]
  }

  // WellSqlConfig.kt:148-151
  function Step16(): seq<Step> {
    [Ungated([Add("ThemeModel", "FREE"), Add("ThemeModel", "PRICE_TEXT")])]
  }

  // WellSqlConfig.kt:152-155
  function Step17(): seq<Step> {
    [Ungated([Add("SiteModel", "EMAIL"), Add("SiteModel", "DISPLAY_NAME")])]
  }

  // WellSqlConfig.kt:156-158
  function Step18(): seq<Step> {
    [Ungated([Add("SiteModel", "JETPACK_VERSION")])]
  }

  // WellSqlConfig.kt:159-171
  function Step19(): seq<Step> {
    [
      Ungated([
        CreateIfAbsent("TermModel", [
          "_id", "LOCAL_SITE_ID", "REMOTE_TERM_ID", "TAXONOMY", "NAME", "SLUG", "DESCRIPTION",
          "PARENT_REMOTE_ID"]),
        Add("TermModel", "POST_COUNT")
      ])
    ]
  }

  // WellSqlConfig.kt:172-175
  function Step20(): seq<Step> {
    [
      Ungated([
        Rename("PluginModel", "SitePluginModel"),
        Rename("PluginInfoModel", "WPOrgPluginModel")
      ])
    ]
  }

  // WellSqlConfig.kt:176-194
  function Step21(): seq<Step> {
    [
      Ungated([
        Add("SitePluginModel", "SETTINGS_URL"),
        Add("WPOrgPluginModel", "AUTHOR_AS_HTML"),
        Add("WPOrgPluginModel", "BANNER"),
        Add("WPOrgPluginModel", "DESCRIPTION_AS_HTML"),
        Add("WPOrgPluginModel", "FAQ_AS_HTML"),
        Add("WPOrgPluginModel", "HOMEPAGE_URL"),
        Add("WPOrgPluginModel", "INSTALLATION_INSTRUCTIONS_AS_HTML"),
        Add("WPOrgPluginModel", "LAST_UPDATED"),
        Add("WPOrgPluginModel", "REQUIRED_WORD_PRESS_VERSION"),
        Add("WPOrgPluginModel", "WHATS_NEW_AS_HTML"),
        Add("WPOrgPluginModel", "DOWNLOAD_COUNT"),
        Add("WPOrgPluginModel", "NUMBER_OF_RATINGS"),
        Add("WPOrgPluginModel", "NUMBER_OF_RATINGS_OF_ONE"),
        Add("WPOrgPluginModel", "NUMBER_OF_RATINGS_OF_TWO"),
        Add("WPOrgPluginModel", "NUMBER_OF_RATINGS_OF_THREE"),
        Add("WPOrgPluginModel", "NUMBER_OF_RATINGS_OF_FOUR"),
        Add("WPOrgPluginModel", "NUMBER_OF_RATINGS_OF_FIVE")
      ])
    ]
  }

  // WellSqlConfig.kt:195-197
  function Step22(): seq<Step> {
    [Ungated([Add("ThemeModel", "MOBILE_FRIENDLY_CATEGORY_SLUG")])]
  }

  // WellSqlConfig.kt:198-203
  function Step23(): seq<Step> {
    [Ungated([Create("PluginDirectoryModel", ["_id", "SLUG", "DIRECTORY_TYPE", "PAGE"])])]
  }

  // WellSqlConfig.kt:204-230
  function Step24(): seq<Step> {
    [
      Ungated([
        DeleteAll("PluginDirectoryModel"),
        DropIfExists("SitePluginModel"),
        DropIfExists("WPOrgPluginModel"),
        Create("SitePluginModel", [
          "_id", "LOCAL_SITE_ID", "NAME", "DISPLAY_NAME", "PLUGIN_URL", "VERSION", "SLUG",
          "DESCRIPTION", "AUTHOR_NAME", "AUTHOR_URL", "SETTINGS_URL", "IS_ACTIVE",
          "IS_AUTO_UPDATE_ENABLED"]),
        Create("WPOrgPluginModel", [
          "_id", "AUTHOR_AS_HTML", "AUTHOR_NAME", "BANNER", "DESCRIPTION_AS_HTML", "DISPLAY_NAME",
          "FAQ_AS_HTML", "HOMEPAGE_URL", "ICON", "INSTALLATION_INSTRUCTIONS_AS_HTML", "LAST_UPDATED",
          "RATING", "REQUIRED_WORD_PRESS_VERSION", "SLUG", "VERSION", "WHATS_NEW_AS_HTML",
          "DOWNLOAD_COUNT", "NUMBER_OF_RATINGS", "NUMBER_OF_RATINGS_OF_ONE",
          "NUMBER_OF_RATINGS_OF_TWO", "NUMBER_OF_RATINGS_OF_THREE", "NUMBER_OF_RATINGS_OF_FOUR",
          "NUMBER_OF_RATINGS_OF_FIVE"])
      ])
    ]
  }

  // WellSqlConfig.kt:231-236
  function Step25(): seq<Step> {
    [
      Ungated([
        Add("SiteModel", "SPACE_AVAILABLE"),
        Add("SiteModel", "SPACE_ALLOWED"),
        Add("SiteModel", "SPACE_USED"),
        Add("SiteModel", "SPACE_PERCENT_USED")
      ])
    ]
  }

  // WellSqlConfig.kt:237-240
  function Step26(): seq<Step> {
    [Ungated([Add("SiteModel", "IS_WP_COM_STORE"), Add("SiteModel", "HAS_WOO_COMMERCE")])]
  }

  // WellSqlConfig.kt:241-243
  function Step27(): seq<Step> {
    [Ungated([Add("AccountModel", "TRACKS_OPT_OUT")])]
  }

  // WellSqlConfig.kt:244-259
  function Step28(): seq<Step> {
    [
      Ungated([
        Create("ActivityLogModel", [
          "_id", "LOCAL_SITE_ID", "REMOTE_SITE_ID", "ACTIVITY_ID", "SUMMARY", "TEXT", "NAME", "TYPE",
          "GRIDICON", "STATUS", "REWINDABLE", "REWIND_ID", "PUBLISHED", "DISCARDED", "DISPLAY_NAME",
          "ACTOR_TYPE", "WPCOM_USER_ID", "AVATAR_URL", "ROLE"]),
        Create("RewindStatus", [
          "_id", "LOCAL_SITE_ID", "REMOTE_SITE_ID", "REWIND_STATE", "REASON", "RESTORE_ID",
          "RESTORE_STATE", "RESTORE_PROGRESS", "RESTORE_MESSAGE", "RESTORE_ERROR_CODE",
          "RESTORE_FAILURE_REASON"])
      ])
    ]
  }

  // WellSqlConfig.kt:260-267
  function Step29(): seq<Step> {
    [
      Ungated([
        Create("SubscriptionModel", [
          "_id", "SUBSCRIPTION_ID", "BLOG_ID", "BLOG_NAME", "FEED_ID", "URL", "SHOULD_NOTIFY_POSTS",
          "SHOULD_EMAIL_POSTS", "EMAIL_POSTS_FREQUENCY", "SHOULD_EMAIL_COMMENTS"])
      ])
    ]
  }

  // WellSqlConfig.kt:268-277
  function Step30(): seq<Step> {
    [
      Ungated([
        DropIfExists("ActivityLogModel"),
        CreateIfAbsent("ActivityLog", [
          "_id", "LOCAL_SITE_ID", "REMOTE_SITE_ID", "ACTIVITY_ID", "SUMMARY", "TEXT", "NAME", "TYPE",
          "GRIDICON", "STATUS", "REWINDABLE", "REWIND_ID", "PUBLISHED", "DISCARDED", "DISPLAY_NAME",
          "ACTOR_TYPE", "WPCOM_USER_ID", "AVATAR_URL", "ROLE"])
      ])
    ]
  }

  // WellSqlConfig.kt:278-304
  function Step31(): seq<Step> {
    [
      Gated(ADDON_WOOCOMMERCE, [
        DropIfExists("WCOrderModel"),
        DropIfExists("WCOrderNoteModel"),
        Create("WCOrderModel", [
          "_id", "LOCAL_SITE_ID", "REMOTE_ORDER_ID", "NUMBER", "STATUS", "CURRENCY", "DATE_CREATED",
          "TOTAL", "TOTAL_TAX", "SHIPPING_TOTAL", "PAYMENT_METHOD", "PAYMENT_METHOD_TITLE",
          "PRICES_INCLUDE_TAX", "CUSTOMER_NOTE", "DISCOUNT_TOTAL", "DISCOUNT_CODES", "REFUND_TOTAL",
          "BILLING_FIRST_NAME", "BILLING_LAST_NAME", "BILLING_COMPANY", "BILLING_ADDRESS1",
          "BILLING_ADDRESS2", "BILLING_CITY", "BILLING_STATE", "BILLING_POSTCODE", "BILLING_COUNTRY",
          "BILLING_EMAIL", "BILLING_PHONE", "SHIPPING_FIRST_NAME", "SHIPPING_LAST_NAME",
          "SHIPPING_COMPANY", "SHIPPING_ADDRESS1", "SHIPPING_ADDRESS2", "SHIPPING_CITY",
          "SHIPPING_STATE", "SHIPPING_POSTCODE", "SHIPPING_COUNTRY", "LINE_ITEMS"]),
        Create("WCOrderNoteModel", [
          "_id", "LOCAL_SITE_ID", "LOCAL_ORDER_ID", "REMOTE_NOTE_ID", "DATE_CREATED", "NOTE",
          "IS_CUSTOMER_NOTE"])
      ])
    ]
  }

  // WellSqlConfig.kt:305-319
  function Step32(): seq<Step> {
    [
      Ungated([
        DropIfExists("RewindStatus"),
        Create("RewindStatus", [
          "_id", "LOCAL_SITE_ID", "REMOTE_SITE_ID", "STATE", "LAST_UPDATED", "REASON",
          "CAN_AUTOCONFIGURE", "REWIND_ID", "REWIND_STATUS", "REWIND_STARTED_AT", "REWIND_PROGRESS",
          "REWIND_REASON"]),
        Create("RewindStatusCredentials", [
          "_id", "REWIND_STATE_ID", "TYPE", "ROLE", "STILL_VALID", "HOST", "PORT"])
      ])
    ]
  }

  // WellSqlConfig.kt:320-327
  function Step33(): seq<Step> {
    [
      Ungated([
        DropIfExists("RewindStatusCredentials"),
        Create("RewindStatusCredentials", [
          "_id", "LOCAL_SITE_ID", "REMOTE_SITE_ID", "REWIND_STATE_ID", "TYPE", "ROLE", "STILL_VALID",
          "HOST", "PORT"])
      ])
    ]
  }

  // WellSqlConfig.kt:328-336
  function Step34(): seq<Step> {
    [
      Ungated([
        DropIfExists("RewindStatus"),
        Create("RewindStatus", [
          "_id", "LOCAL_SITE_ID", "REMOTE_SITE_ID", "STATE", "LAST_UPDATED", "REASON",
          "CAN_AUTOCONFIGURE", "REWIND_ID", "REWIND_STATUS", "REWIND_PROGRESS", "REWIND_REASON"])
      ])
    ]
  }

  // WellSqlConfig.kt:337-341
  function Step35(): seq<Step> {
    [
      Gated(ADDON_WOOCOMMERCE, [
        Create("WCOrderStatsModel", ["_id", "LOCAL_SITE_ID", "UNIT", "FIELDS", "DATA"])
      ])
    ]
  }

  // WellSqlConfig.kt:342-350
  function Step36(): seq<Step> {
    [
      Ungated([
        DropIfExists("RewindStatus"),
        Create("RewindStatus", [
          "_id", "LOCAL_SITE_ID", "REMOTE_SITE_ID", "STATE", "LAST_UPDATED", "REASON",
          "CAN_AUTOCONFIGURE", "REWIND_ID", "RESTORE_ID", "REWIND_STATUS", "REWIND_PROGRESS",
          "REWIND_REASON"])
      ])
    ]
  }

  // WellSqlConfig.kt:351-361
  function Step37(): seq<Step> {
    [
      Ungated([
        DropIfExists("QuickStartModel"),
        Create("QuickStartTaskModel", ["_id", "SITE_ID", "TASK_NAME", "IS_DONE", "IS_SHOWN"]),
        Create("QuickStartStatusModel", [
          "_id", "SITE_ID", "IS_COMPLETED", "IS_NOTIFICATION_RECEIVED"])
      ])
    ]
  }

  // WellSqlConfig.kt:362-375
  function Step38(): seq<Step> {
    [Ungated([MoveAccountToken])]
  }

  // WellSqlConfig.kt:376-388
  function Step39(): seq<Step> {
    [
      Ungated([
        DropIfExists("QuickStartModel"),
        CreateIfAbsent("QuickStartTaskModel", [
          "_id", "SITE_ID", "TASK_NAME", "IS_DONE", "IS_SHOWN"]),
        CreateIfAbsent("QuickStartStatusModel", [
          "_id", "SITE_ID", "IS_COMPLETED", "IS_NOTIFICATION_RECEIVED"])
      ])
    ]
  }

  // WellSqlConfig.kt:389-398
  function Step40(): seq<Step> {
    [
      Ungated([
        DropIfExists("ActivityLog"),
        Create("ActivityLog", [
          "_id", "LOCAL_SITE_ID", "REMOTE_SITE_ID", "ACTIVITY_ID", "SUMMARY", "FORMATTABLE_CONTENT",
          "NAME", "TYPE", "GRIDICON", "STATUS", "REWINDABLE", "REWIND_ID", "PUBLISHED", "DISCARDED",
          "DISPLAY_NAME", "ACTOR_TYPE", "WPCOM_USER_ID", "AVATAR_URL", "ROLE"])
      ])
    ]
  }

  // WellSqlConfig.kt:399-412
  function Step41(): seq<Step> {
    [
      Ungated([
        Create("LocalDiffModel", [
          "_id", "REVISION_ID", "POST_ID", "SITE_ID", "OPERATION", "VALUE", "DIFF_TYPE"]),
        Create("LocalRevisionModel", [
          "_id", "REVISION_ID", "POST_ID", "SITE_ID", "DIFF_FROM_VERSION", "TOTAL_ADDITIONS",
          "TOTAL_DELETIONS", "POST_CONTENT", "POST_EXCERPT", "POST_TITLE", "POST_DATE_GMT",
          "POST_MODIFIED_GMT", "POST_AUTHOR_ID"])
      ])
    ]
  }

  // WellSqlConfig.kt:413-418
  function Step42(): seq<Step> {
    [Ungated([Create("StatsBlock", ["_id", "LOCAL_SITE_ID", "TYPE", "JSON"])])]
  }

  // WellSqlConfig.kt:419-433
  function Step43(): seq<Step> {
    [
      Ungated([
        Create("ListModel", [
          "LAST_MODIFIED", "DESCRIPTOR_UNIQUE_IDENTIFIER_DB_VALUE",
          "DESCRIPTOR_TYPE_IDENTIFIER_DB_VALUE", "STATE_DB_VALUE", "_id"]),
        Create("ListItemModel", ["LIST_ID", "REMOTE_ITEM_ID", "_id"]),
        Add("PostModel", "LAST_MODIFIED")
      ])
    ]
  }

  // WellSqlConfig.kt:434-440
  function Step44(): seq<Step> {
    [
      Ungated([
        DropIfExists("StatsBlock"),
        Create("StatsBlock", ["_id", "LOCAL_SITE_ID", "BLOCK_TYPE", "STATS_TYPE", "JSON"])
      ])
    ]
  }

  // WellSqlConfig.kt:441-453
  function Step45(): seq<Step> {
    [
      Gated(ADDON_WOOCOMMERCE, [Add("WCOrderNoteModel", "IS_SYSTEM_NOTE")]),
      Ungated([
        Create("NotificationModel", [
          "_id", "REMOTE_NOTE_ID", "LOCAL_SITE_ID", "NOTE_HASH", "TYPE", "SUBTYPE", "READ", "ICON",
          "NOTICON", "TIMESTAMP", "URL", "TITLE", "FORMATTABLE_BODY", "FORMATTABLE_SUBJECT",
          "FORMATTABLE_META"])
      ])
    ]
  }

  // WellSqlConfig.kt:454-461
  function Step46(): seq<Step> {
    [
      Ungated([
        DropIfExists("StatsBlock"),
        Create("StatsBlock", ["_id", "LOCAL_SITE_ID", "BLOCK_TYPE", "STATS_TYPE", "DATE", "JSON"])
      ])
    ]
  }

  // WellSqlConfig.kt:462-469
  function Step47(): seq<Step> {
    [
      Ungated([
        DropIfExists("StatsBlock"),
        Create("StatsBlock", ["_id", "LOCAL_SITE_ID", "BLOCK_TYPE", "STATS_TYPE", "DATE", "JSON"])
      ])
    ]
  }

  // WellSqlConfig.kt:470-472
  function Step48(): seq<Step> {
    [Ungated([Add("PostModel", "REMOTE_LAST_MODIFIED")])]
  }

  // WellSqlConfig.kt:473-480
  function Step49(): seq<Step> {
    [
      Gated(ADDON_WOOCOMMERCE, [
        Create("WCSettingsModel", [
          "_id", "LOCAL_SITE_ID", "CURRENCY_CODE", "CURRENCY_POSITION",
          "CURRENCY_THOUSAND_SEPARATOR", "CURRENCY_DECIMAL_SEPARATOR", "CURRENCY_DECIMAL_NUMBER"])
      ])
    ]
  }

  // WellSqlConfig.kt:481-495
  function Step50(): seq<Step> {
    [
      Ungated([
        Create("PlanOffers", [
          "_id", "INTERNAL_PLAN_ID", "NAME", "SHORT_NAME", "TAGLINE", "DESCRIPTION", "ICON"]),
        Create("PlanOffersId", ["_id", "PRODUCT_ID", "INTERNAL_PLAN_ID"]),
        Create("PlanOffersFeature", ["_id", "INTERNAL_PLAN_ID", "STRING_ID", "NAME", "DESCRIPTION"])
      ])
    ]
  }

  // WellSqlConfig.kt:496-500
  function Step51(): seq<Step> {
    [
      Gated(ADDON_WOOCOMMERCE, [
        Create("WCOrderStatusModel", ["_id", "LOCAL_SITE_ID", "STATUS_KEY", "LABEL"])
      ])
    ]
  }

  // WellSqlConfig.kt:501-509
  function Step52(): seq<Step> {
    [
      Ungated([
        Create("PlanOffersFeatureTemp", [
          "_id", "INTERNAL_PLAN_ID", "STRING_ID", "NAME", "DESCRIPTION"]),
        CopyAll("PlanOffersFeature", "PlanOffersFeatureTemp"),
        Drop("PlanOffersFeature"),
        Rename("PlanOffersFeatureTemp", "PlanOffersFeature")
      ])
    ]
  }

  // WellSqlConfig.kt:510-512
  function Step53(): seq<Step> {
    [Ungated([Add("QuickStartTaskModel", "TASK_TYPE")])]
  }

  // WellSqlConfig.kt:513-519
  function Step54(): seq<Step> {
    [
      Gated(ADDON_WOOCOMMERCE, [
        Add("WCOrderStatsModel", "IS_CUSTOM_FIELD"),
        Add("WCOrderStatsModel", "DATE"),
        Add("WCOrderStatsModel", "ENDDATE"),
        Add("WCOrderStatsModel", "STARTDATE"),
        Add("WCOrderStatsModel", "QUANTITY")
      ])
    ]
  }

  // WellSqlConfig.kt:520-535
  function Step55(): seq<Step> {
    [
      Gated(ADDON_WOOCOMMERCE, [
        DropIfExists("WCOrderStatsModel"),
        Create("WCOrderStatsModel", [
          "LOCAL_SITE_ID", "UNIT", "DATE", "START_DATE", "END_DATE", "QUANTITY", "IS_CUSTOM_FIELD",
          "FIELDS", "DATA", "_id"])
      ])
    ]
  }

  // WellSqlConfig.kt:536-560
  function Step56(): seq<Step> {
    [
      Gated(ADDON_WOOCOMMERCE, [
        DropIfExists("WCProductModel"),
        Create("WCProductModel", [
          "_id", "LOCAL_SITE_ID", "REMOTE_PRODUCT_ID", "NAME", "SLUG", "PERMALINK", "DATE_CREATED",
          "DATE_MODIFIED", "TYPE", "STATUS", "FEATURED", "CATALOG_VISIBILITY", "DESCRIPTION",
          "SHORT_DESCRIPTION", "SKU", "PRICE", "REGULAR_PRICE", "SALE_PRICE", "ON_SALE",
          "TOTAL_SALES", "VIRTUAL", "DOWNLOADABLE", "TAX_STATUS", "TAX_CLASS", "MANAGE_STOCK",
          "STOCK_QUANTITY", "STOCK_STATUS", "BACKORDERS", "BACKORDERS_ALLOWED", "BACKORDERED",
          "SOLD_INDIVIDUALLY", "WEIGHT", "LENGTH", "WIDTH", "HEIGHT", "SHIPPING_REQUIRED",
          "SHIPPING_TAXABLE", "SHIPPING_CLASS", "SHIPPING_CLASS_ID", "REVIEWS_ALLOWED",
          "AVERAGE_RATING", "RATING_COUNT", "PARENT_ID", "PURCHASE_NOTE", "CATEGORIES", "TAGS",
          "IMAGES", "ATTRIBUTES", "VARIATIONS"])
      ])
    ]
  }

  // WellSqlConfig.kt:561-563
  function Step57(): seq<Step> {
    [Gated(ADDON_WOOCOMMERCE, [DeleteAll("WCOrderStatsModel")])]
  }

  // WellSqlConfig.kt:564-594
  function Step58(): seq<Step> {
    [
      Gated(ADDON_WOOCOMMERCE, [
        DropIfExists("WCProductVariationModel"),
        Create("WCProductVariationModel", [
          "_id", "LOCAL_SITE_ID", "REMOTE_PRODUCT_ID", "REMOTE_VARIATION_ID", "DATE_CREATED",
          "DATE_MODIFIED", "DESCRIPTION", "PERMALINK", "SKU", "STATUS", "PRICE", "REGULAR_PRICE",
          "SALE_PRICE", "ON_SALE", "PURCHASABLE", "VIRTUAL", "DOWNLOADABLE", "MANAGE_STOCK",
          "STOCK_QUANTITY", "STOCK_STATUS", "IMAGE_URL", "WEIGHT", "LENGTH", "WIDTH", "HEIGHT",
          "ATTRIBUTES"])
      ])
    ]
  }

  // WellSqlConfig.kt:595-602
  function Step59(): seq<Step> {
    [
      Ungated([
        DropIfExists("StatsBlock"),
        Create("StatsBlock", [
          "_id", "LOCAL_SITE_ID", "BLOCK_TYPE", "STATS_TYPE", "DATE", "POST_ID", "JSON"])
      ])
    ]
  }

  // WellSqlConfig.kt:603-615
  function Step60(): seq<Step> {
    [
      Ungated([
        Drop("StatsBlock"),
        Create("StatsBlock", [
          "_id", "LOCAL_SITE_ID", "BLOCK_TYPE", "STATS_TYPE", "DATE", "POST_ID", "JSON"]),
        Create("StatsRequest", [
          "_id", "LOCAL_SITE_ID", "BLOCK_TYPE", "STATS_TYPE", "DATE", "TIME_STAMP",
          "REQUESTED_ITEMS"])
      ])
    ]
  }

  // WellSqlConfig.kt:616-686
  function Step61(): seq<Step> {
    [
      Gated(ADDON_WOOCOMMERCE, [
        DropIfExists("WCProductModel"),
        Create("WCProductModel", [
          "_id", "LOCAL_SITE_ID", "REMOTE_PRODUCT_ID", "NAME", "SLUG", "PERMALINK", "DATE_CREATED",
          "DATE_MODIFIED", "TYPE", "STATUS", "FEATURED", "CATALOG_VISIBILITY", "DESCRIPTION",
          "SHORT_DESCRIPTION", "SKU", "PRICE", "REGULAR_PRICE", "SALE_PRICE", "ON_SALE",
          "TOTAL_SALES", "VIRTUAL", "DOWNLOADABLE", "DOWNLOAD_LIMIT", "DOWNLOAD_EXPIRY", "DOWNLOADS",
          "EXTERNAL_URL", "TAX_STATUS", "TAX_CLASS", "MANAGE_STOCK", "STOCK_QUANTITY",
          "STOCK_STATUS", "BACKORDERS", "BACKORDERS_ALLOWED", "BACKORDERED", "SOLD_INDIVIDUALLY",
          "WEIGHT", "LENGTH", "WIDTH", "HEIGHT", "SHIPPING_REQUIRED", "SHIPPING_TAXABLE",
          "SHIPPING_CLASS", "SHIPPING_CLASS_ID", "REVIEWS_ALLOWED", "AVERAGE_RATING", "RATING_COUNT",
          "PARENT_ID", "PURCHASE_NOTE", "CATEGORIES", "TAGS", "IMAGES", "ATTRIBUTES", "RELATED_IDS",
          "CROSS_SELL_IDS", "UPSELL_IDS", "VARIATIONS"])
      ]),
      Ungated([
        Drop("StatsRequest"),
        Create("StatsRequest", [
          "_id", "LOCAL_SITE_ID", "BLOCK_TYPE", "STATS_TYPE", "DATE", "POST_ID", "TIME_STAMP",
          "REQUESTED_ITEMS"])
      ])
    ]
  }

  // WellSqlConfig.kt:687-694
  function Step62(): seq<Step> {
    [
      Ungated([
        Drop("StatsRequest"),
        Create("StatsRequest", [
          "_id", "LOCAL_SITE_ID", "BLOCK_TYPE", "STATS_TYPE", "DATE", "POST_ID", "TIME_STAMP",
          "REQUESTED_ITEMS"])
      ])
    ]
  }

  // WellSqlConfig.kt:695-702
  function Step63(): seq<Step> {
    [
      Gated(ADDON_WOOCOMMERCE, [
        Create("WCProductSettingsModel", ["_id", "LOCAL_SITE_ID", "WEIGHT_UNIT", "DIMENSION_UNIT"])
      ])
    ]
  }

  // WellSqlConfig.kt:703-714
  function Step64(): seq<Step> {
    [
      Gated(ADDON_WOOCOMMERCE, [
        Create("WCOrderShipmentTrackingModel", [
          "_id", "LOCAL_SITE_ID", "LOCAL_ORDER_ID", "REMOTE_TRACKING_ID", "TRACKING_NUMBER",
          "TRACKING_PROVIDER", "TRACKING_LINK", "DATE_SHIPPED"])
      ])
    ]
  }

  // WellSqlConfig.kt:715-724
  function Step65(): seq<Step> {
    [
      Gated(ADDON_WOOCOMMERCE, [
        Create("WCOrderShipmentProviderModel", [
          "LOCAL_SITE_ID", "COUNTRY", "CARRIER_NAME", "CARRIER_LINK", "_id"])
      ])
    ]
  }

  // WellSqlConfig.kt:725-731
  function Step66(): seq<Step> {
    [
      Ungated([
        Create("InsightTypes", [
          "_id", "LOCAL_SITE_ID", "REMOTE_SITE_ID", "INSIGHT_TYPE", "POSITION", "STATUS"])
      ])
    ]
  }

  // WellSqlConfig.kt:732-734
  function Step67(): seq<Step> {
    [Gated(ADDON_WOOCOMMERCE, [Add("WCSettingsModel", "COUNTRY_CODE")])]
  }

  // WellSqlConfig.kt:735-744
  function Step68(): seq<Step> {
    [
      Ungated([
        DropIfExists("NotificationModel"),
        Create("NotificationModel", [
          "_id", "REMOTE_NOTE_ID", "LOCAL_SITE_ID", "NOTE_HASH", "TYPE", "SUBTYPE", "READ", "ICON",
          "NOTICON", "TIMESTAMP", "URL", "TITLE", "FORMATTABLE_BODY", "FORMATTABLE_SUBJECT",
          "FORMATTABLE_META"])
      ])
    ]
  }

  // WellSqlConfig.kt:745-753
  function Step69(): seq<Step> {
    [
      Gated(ADDON_WOOCOMMERCE, [
        Add("WCOrderModel", "DATE_MODIFIED"),
        Create("WCOrderSummaryModel", ["LOCAL_SITE_ID", "REMOTE_ORDER_ID", "DATE_CREATED", "_id"])
      ])
    ]
  }

  // WellSqlConfig.kt:754-762
  function Step70(): seq<Step> {
    [
      Ungated([
        DropIfExists("NotificationModel"),
        Create("NotificationModel", [
          "_id", "REMOTE_NOTE_ID", "LOCAL_SITE_ID", "NOTE_HASH", "TYPE", "SUBTYPE", "READ", "ICON",
          "NOTICON", "TIMESTAMP", "URL", "TITLE", "FORMATTABLE_BODY", "FORMATTABLE_SUBJECT",
          "FORMATTABLE_META"])
      ])
    ]
  }

  // WellSqlConfig.kt:763-765
  function Step71(): seq<Step> {
    [Ungated([Add("MediaModel", "MARKED_LOCALLY_AS_FEATURED")])]
  }

  // WellSqlConfig.kt:766-768
  function Step72(): seq<Step> {
    [Ungated([Add("PostUploadModel", "NUMBER_OF_UPLOAD_ERRORS_OR_CANCELLATIONS")])]
  }

  // WellSqlConfig.kt:769-777
  function Step73(): seq<Step> {
    [
      Ungated([
        DropIfExists("NotificationModel"),
        Create("NotificationModel", [
          "_id", "REMOTE_NOTE_ID", "REMOTE_SITE_ID", "NOTE_HASH", "TYPE", "SUBTYPE", "READ", "ICON",
          "NOTICON", "TIMESTAMP", "URL", "TITLE", "FORMATTABLE_BODY", "FORMATTABLE_SUBJECT",
          "FORMATTABLE_META"])
      ])
    ]
  }

  // WellSqlConfig.kt:778-781
  function Step74(): seq<Step> {
    [Ungated([Add("SiteModel", "WEB_EDITOR"), Add("SiteModel", "MOBILE_EDITOR")])]
  }

  // WellSqlConfig.kt:782-793
  function Step75(): seq<Step> {
    [
      Gated(ADDON_WOOCOMMERCE, [
        Create("WCRevenueStatsModel", [
          "LOCAL_SITE_ID", "INTERVAL", "START_DATE", "END_DATE", "DATA", "TOTAL", "_id"])
      ])
    ]
  }

  // WellSqlConfig.kt:794-799
  function Step76(): seq<Step> {
    [Ungated([Create("PostSchedulingReminder", ["_id", "POST_ID", "SCHEDULED_TIME"])])]
  }

  // WellSqlConfig.kt:800-803
  function Step77(): seq<Step> {
    [Ungated([Add("PostModel", "AUTHOR_ID"), Add("PostModel", "AUTHOR_DISPLAY_NAME")])]
  }

  // WellSqlConfig.kt:804-818
  function Step78(): seq<Step> {
    [
      Gated(ADDON_WOOCOMMERCE, [
        Create("WCVisitorStatsModel", [
          "LOCAL_SITE_ID", "UNIT", "DATE", "START_DATE", "END_DATE", "QUANTITY", "IS_CUSTOM_FIELD",
          "FIELDS", "DATA", "_id"])
      ])
    ]
  }

  // WellSqlConfig.kt:819-821
  function Step79(): seq<Step> {
    [Ungated([Add("PostModel", "CHANGES_CONFIRMED_CONTENT_HASHCODE")])]
  }

  // WellSqlConfig.kt:822-836
  function Step80(): seq<Step> {
    [
      Gated(ADDON_WOOCOMMERCE, [
        Create("WCNewVisitorStatsModel", [
          "LOCAL_SITE_ID", "GRANULARITY", "DATE", "START_DATE", "END_DATE", "QUANTITY",
          "IS_CUSTOM_FIELD", "FIELDS", "DATA", "_id"])
      ])
    ]
  }

  // WellSqlConfig.kt:837-856
  function Step81(): seq<Step> {
    [
      Gated(ADDON_WOOCOMMERCE, [
        Create("WCProductReviewModel", [
          "LOCAL_SITE_ID", "REMOTE_PRODUCT_REVIEW_ID", "REMOTE_PRODUCT_ID", "DATE_CREATED", "STATUS",
          "REVIEWER_NAME", "REVIEWER_EMAIL", "REVIEW", "RATING", "VERIFIED", "REVIEWER_AVATARS_JSON",
          "_id"])
      ])
    ]
  }

  // WellSqlConfig.kt:857-859
  function Step82(): seq<Step> {
    [Gated(ADDON_WOOCOMMERCE, [AddWithDefault("WCOrderModel", "DATE_PAID", Text(""))])]
  }

  // WellSqlConfig.kt:860-862
  function Step83(): seq<Step> {
    [Gated(ADDON_WOOCOMMERCE, [Add("WCOrderStatusModel", "STATUS_COUNT")])]
  }

  // WellSqlConfig.kt:863-865
  function Step84(): seq<Step> {
    [Ungated([Add("AccountModel", "USERNAME_CAN_BE_CHANGED")])]
  }

  // WellSqlConfig.kt:866-874
  function Step85(): seq<Step> {
    [
      Ungated([
        Add("PostModel", "AUTO_SAVE_REVISION_ID"),
        Add("PostModel", "AUTO_SAVE_MODIFIED"),
        Add("PostModel", "REMOTE_AUTO_SAVE_MODIFIED"),
        Add("PostModel", "AUTO_SAVE_PREVIEW_URL"),
        Add("PostModel", "AUTO_SAVE_TITLE"),
        Add("PostModel", "AUTO_SAVE_CONTENT"),
        Add("PostModel", "AUTO_SAVE_EXCERPT")
      ])
    ]
  }

  // WellSqlConfig.kt:875-877
  function Step86(): seq<Step> {
    [Ungated([Add("PostUploadModel", "NUMBER_OF_AUTO_UPLOAD_ATTEMPTS")])]
  }

  // WellSqlConfig.kt:878-888
  function Step87(): seq<Step> {
    [
      Gated(ADDON_WOOCOMMERCE, [
        DropIfExists("WCRefunds"),
        Create("WCRefunds", ["_id", "LOCAL_SITE_ID", "ORDER_ID", "REFUND_ID", "DATA"])
      ])
    ]
  }
}
