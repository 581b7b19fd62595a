/** The process-wide settings object: values read from environment variables with defaults,
  * the schema mapping per data source, credential lookups and the validators. */
module Settings {
  import opened Values

  /** The attributes `Settings.__init__` defines, with the environment's values or the defaults. */
  datatype Settings = Settings(
    companyName: string,
    environment: string,
    tiktokShopAppKey: string,
    tiktokShopAppSecret: string,
    tiktokShopAccessToken: string,
    tiktokShopRefreshToken: string,
    tiktokShopCipher: string,
    shopeeAppKey: string,
    shopeeAppSecret: string,
    tiktokAdsAppId: string,
    tiktokAdsSecret: string,
    sqlServerHost: string,
    sqlServerDatabase: string,
    sqlServerUsername: string,
    sqlServerPassword: string,
    apiTimeout: int,
    apiRetryAttempts: int,
    apiRetryDelay: int,
    etlBatchSize: int,
    etlPageSize: int)

  /** `os.getenv(key, default)` */
  function GetEnv(env: map<string, string>, key: string, default: string): string
  {
    if key in env then env[key] else default
  }

  /** `int(os.getenv(key, default))`, with the integer variables already parsed. */
  function GetEnvInt(ints: map<string, int>, key: string, default: int): int
  {
    if key in ints then ints[key] else default
  }

  /** `Settings()` built from the environment. */
  function FromEnv(env: map<string, string>, ints: map<string, int>): (s: Settings)
    ensures env == map[] && ints == map[] ==>
      && s.companyName == "Facolos" && s.tiktokShopAppKey == "6h2cosrovhjab"
      && s.tiktokShopAppSecret == "" && s.tiktokShopAccessToken == ""
      && s.sqlServerPassword == "FacolosDB2024!"
      && s.apiTimeout == 30 && s.apiRetryAttempts == 3 && s.apiRetryDelay == 5
  {
    Settings(
      GetEnv(env, "COMPANY_NAME", "Facolos"),
      GetEnv(env, "ENVIRONMENT", "development"),
      GetEnv(env, "TIKTOK_APP_KEY", "6h2cosrovhjab"),
      GetEnv(env, "TIKTOK_APP_SECRET", ""),
      GetEnv(env, "TIKTOK_ACCESS_TOKEN", ""),
      GetEnv(env, "TIKTOK_REFRESH_TOKEN", ""),
      GetEnv(env, "TIKTOK_SHOP_CIPHER", ""),
      GetEnv(env, "SHOPEE_APP_KEY", ""),
      GetEnv(env, "SHOPEE_APP_SECRET", ""),
      GetEnv(env, "TIKTOK_ADS_APP_ID", ""),
      GetEnv(env, "TIKTOK_ADS_SECRET", ""),
      GetEnv(env, "SQL_SERVER_HOST", "localhost"),
      GetEnv(env, "SQL_SERVER_DATABASE", "Facolos_Database"),
      GetEnv(env, "SQL_SERVER_USERNAME", "sa"),
      GetEnv(env, "SQL_SERVER_PASSWORD", "FacolosDB2024!"),
      GetEnvInt(ints, "API_TIMEOUT", 30),
      GetEnvInt(ints, "API_RETRY_ATTEMPTS", 3),
      GetEnvInt(ints, "API_RETRY_DELAY", 5),
      GetEnvInt(ints, "ETL_BATCH_SIZE", 1000),
      GetEnvInt(ints, "ETL_PAGE_SIZE", 50))
  }

  /** Every attribute name a `Settings` instance answers to: the fields set in `__init__`, the
    * properties and the methods. Any other name raises `AttributeError`. */
  const Attributes: set<string> :=
    CredentialAttributes + DatabaseAttributes + TuningAttributes + MemberAttributes

  const CredentialAttributes: set<string> := {
    "company_name", "environment",
    "tiktok_shop_app_key", "tiktok_shop_app_secret", "tiktok_shop_access_token",
    "tiktok_shop_refresh_token", "tiktok_shop_cipher",
    "shopee_app_key", "shopee_app_secret", "tiktok_ads_app_id", "tiktok_ads_secret",
    "facebook_ads_app_id", "facebook_ads_app_secret",
    "google_analytics_client_id", "google_analytics_client_secret"}

  const DatabaseAttributes: set<string> := {
    "sql_server_host", "sql_server_port", "sql_server_database", "sql_server_username",
    "sql_server_password", "schema_mappings",
    "tiktok_shop_schema", "tiktok_shop_orders_table", "tiktok_shop_products_table",
    "tiktok_shop_customers_table", "tiktok_shop_api_base_url"}

  const TuningAttributes: set<string> := {
    "api_timeout", "api_retry_attempts", "api_retry_delay",
    "etl_batch_size", "etl_page_size", "etl_max_days_back", "etl_default_frequency_hours",
    "log_level", "log_format", "log_file_path"}

  const MemberAttributes: set<string> := {
    "sql_server_connection_string", "tiktok_shop_orders_full_table_name", "get_table_full_name",
    "tiktok_shop_api_headers", "get_data_source_credentials", "validate_required_settings",
    "validate_data_source_credentials", "get_active_data_sources", "get_env_summary"}

  /** Names other components read from the settings object that it does not define. */
  const ReadButUndefined: seq<string> := [
    "misa_crm_token_refresh_buffer", "misa_crm_page_size", "misa_crm_max_page_size",
    "etl_rate_limit_delay", "misa_crm_incremental_lookback_hours",
    "tiktok_app_key", "tiktok_app_secret", "tiktok_access_token", "tiktok_refresh_token",
    "staging_schema", "staging_table_orders", "get_misa_crm_table_full_name",
    "misa_crm_etl_batch_size", "misa_crm_data_retention_days"]

  /** Each of those reads raises `AttributeError`, so the components that perform them cannot be
    * built from this settings object; the model takes those values as parameters instead. */
  lemma UndefinedAttributes()
    ensures forall i :: 0 <= i < |ReadButUndefined| ==> ReadButUndefined[i] !in Attributes
  {
    NotCredentials();
    NotDatabase();
    NotTuning();
    NotMembers();
  }

  lemma NotCredentials()
    ensures forall i :: 0 <= i < |ReadButUndefined| ==> ReadButUndefined[i] !in CredentialAttributes
  {
  }

  lemma NotDatabase()
    ensures forall i :: 0 <= i < |ReadButUndefined| ==> ReadButUndefined[i] !in DatabaseAttributes
  {
  }

  lemma NotTuning()
    ensures forall i :: 0 <= i < |ReadButUndefined| ==> ReadButUndefined[i] !in TuningAttributes
  {
  }

  lemma NotMembers()
    ensures forall i :: 0 <= i < |ReadButUndefined| ==> ReadButUndefined[i] !in MemberAttributes
  {
  }

  const SchemaMappings: map<string, string> := map[
    "tiktok_shop" := "Facolos_TikTok_Shop",
    "shopee" := "Facolos_Shopee",
    "lazada" := "Facolos_Lazada",
    "sendo" := "Facolos_Sendo",
    "tiktok_ads" := "Facolos_TikTok_Ads",
    "facebook_ads" := "Facolos_Facebook_Ads",
    "google_ads" := "Facolos_Google_Ads",
    "google_analytics" := "Facolos_Google_Analytics",
    "facebook_pixel" := "Facolos_Facebook_Pixel",
    "misa_crm" := "Facolos_MISA_CRM",
    "internal_erp" := "Facolos_Internal_ERP",
    "data_mart" := "Facolos_Data_Mart",
    "etl_control" := "Facolos_ETL_Control"]

  /** `get_table_full_name`: `<schema>.<table>`, or ValueError for a source with no schema. */
  function TableFullName(dataSource: string, table: string): (r: Result<string>)
    ensures r.Ok? <==> dataSource in SchemaMappings
    ensures r.Ok? ==> var schema := SchemaMappings[dataSource];
      && |r.value| == |schema| + 1 + |table|
      && r.value[..|schema|] == schema && r.value[|schema|] == '.' && r.value[|schema| + 1..] == table
  {
    if dataSource in SchemaMappings && SchemaMappings[dataSource] != "" then
      Ok(SchemaMappings[dataSource] + "." + table)
    else
      Err("no schema mapping for data source: " + dataSource)
  }

  /** `get_data_source_credentials`: only three sources have credentials; any other gets `{}`. */
  function DataSourceCredentials(s: Settings, dataSource: string): (r: map<string, string>)
    ensures dataSource !in {"tiktok_shop", "shopee", "tiktok_ads"} ==> r == map[]
    ensures dataSource == "tiktok_shop" ==>
      r.Keys == {"app_key", "app_secret", "access_token", "refresh_token", "shop_cipher"}
  {
    if dataSource == "tiktok_shop" then
      map["app_key" := s.tiktokShopAppKey, "app_secret" := s.tiktokShopAppSecret,
          "access_token" := s.tiktokShopAccessToken, "refresh_token" := s.tiktokShopRefreshToken,
          "shop_cipher" := s.tiktokShopCipher]
    else if dataSource == "shopee" then
      map["app_key" := s.shopeeAppKey, "app_secret" := s.shopeeAppSecret]
    else if dataSource == "tiktok_ads" then
      map["app_id" := s.tiktokAdsAppId, "secret" := s.tiktokAdsSecret]
    else map[]
  }

  /** The marketplace's secret and access token are read from its two settings. */
  lemma TikTokShopCredentials(s: Settings)
    ensures var r := DataSourceCredentials(s, "tiktok_shop");
      && "app_secret" in r && r["app_secret"] == s.tiktokShopAppSecret
      && "access_token" in r && r["access_token"] == s.tiktokShopAccessToken
  {
  }

  /** The CRM has no credentials entry, so reading its `client_id` raises `KeyError`. */
  lemma CrmHasNoCredentials(s: Settings)
    ensures "client_id" !in DataSourceCredentials(s, "misa_crm")
    ensures "client_secret" !in DataSourceCredentials(s, "misa_crm")
    ensures "base_url" !in DataSourceCredentials(s, "misa_crm")
  {
  }

  /** `getattr(settings, key)` for the string attributes the required-settings check reads. */
  function StringAttribute(s: Settings, key: string): string
  {
    if key == "sql_server_password" then s.sqlServerPassword
    else if key == "company_name" then s.companyName
    else ""
  }

  const RequiredSettings: seq<(string, string)> :=
    [("sql_server_password", "SQL Server Password"), ("company_name", "Company Name")]

  /** The display names of the required settings that are empty, in declaration order. */
  function MissingSettings(s: Settings, required: seq<(string, string)>): seq<string>
  {
    if |required| == 0 then []
    else
      var rest := MissingSettings(s, required[..|required| - 1]);
      var (key, name) := required[|required| - 1];
      if StringAttribute(s, key) == "" then rest + [name] else rest
  }

  lemma {:induction false} MissingSettingsMembers(s: Settings, required: seq<(string, string)>)
    ensures forall name :: name in MissingSettings(s, required) <==>
      exists i :: 0 <= i < |required| && required[i].1 == name && StringAttribute(s, required[i].0) == ""
  {
    if |required| > 0 {
      var init := required[..|required| - 1];
      MissingSettingsMembers(s, init);
      forall name | (exists i :: 0 <= i < |required| && required[i].1 == name && StringAttribute(s, required[i].0) == "")
        ensures name in MissingSettings(s, required)
      {
        var i :| 0 <= i < |required| && required[i].1 == name && StringAttribute(s, required[i].0) == "";
        if i < |init| {
          assert init[i] == required[i];
        }
      }
      forall name | name in MissingSettings(s, required)
        ensures exists i :: 0 <= i < |required| && required[i].1 == name && StringAttribute(s, required[i].0) == ""
      {
        if name in MissingSettings(s, init) {
          var i :| 0 <= i < |init| && init[i].1 == name && StringAttribute(s, init[i].0) == "";
          assert required[i] == init[i];
        } else {
          assert required[|required| - 1].1 == name;
        }
      }
    }
  }

  /** `validate_required_settings`: raises ValueError naming every empty required setting. */
  method ValidateRequiredSettings(s: Settings) returns (r: Result<bool>)
    ensures r.Ok? ==> r.value
    ensures r.Err? ==> r.error == Join(", ", MissingSettings(s, RequiredSettings))
    ensures r.Ok? <==> MissingSettings(s, RequiredSettings) == []
  {
    var missing: seq<string> := [];
    var i := 0;
    while i < |RequiredSettings|
      invariant 0 <= i <= |RequiredSettings|
      invariant missing == MissingSettings(s, RequiredSettings[..i])
    {
      assert RequiredSettings[..i + 1][..i] == RequiredSettings[..i];
      var (key, name) := RequiredSettings[i];
      if StringAttribute(s, key) == "" {
        missing := missing + [name];
      }
      i := i + 1;
    }
    assert RequiredSettings[..i] == RequiredSettings;
    if missing != [] {
      return Err(Join(", ", missing));
    }
    return Ok(true);
  }

  /** The required-settings check raises exactly when the password or the company name is empty. */
  lemma RequiredSettingsFail(s: Settings)
    ensures MissingSettings(s, RequiredSettings) != [] <==>
      s.sqlServerPassword == "" || s.companyName == ""
  {
    var first := RequiredSettings[..1];
    assert first[..0] == [];
    assert MissingSettings(s, first) == if s.sqlServerPassword == "" then ["SQL Server Password"] else [];
    assert RequiredSettings[..|RequiredSettings| - 1] == first;
  }

  /** `validate_data_source_credentials`: only the marketplace is checked; an empty `app_secret`
    * or `access_token` raises ValueError naming them; every other source passes. */
  function ValidateDataSourceCredentials(s: Settings, dataSource: string): (r: Result<bool>)
    ensures r.Ok? ==> r.value
    ensures r.Err? <==>
      dataSource == "tiktok_shop" && (s.tiktokShopAppSecret == "" || s.tiktokShopAccessToken == "")
    ensures r.Err? && s.tiktokShopAppSecret == "" && s.tiktokShopAccessToken == "" ==>
      r.error == "app_secret, access_token"
  {
    if dataSource == "tiktok_shop" then
      var creds := DataSourceCredentials(s, dataSource);
      TikTokShopCredentials(s);
      var missing := (if creds["app_secret"] == "" then ["app_secret"] else [])
        + (if creds["access_token"] == "" then ["access_token"] else []);
      JoinTwo(", ", "app_secret", "access_token");
      assert "app_secret" + ", " + "access_token" == "app_secret, access_token";
      assert ["app_secret"] + ["access_token"] == ["app_secret", "access_token"];
      if missing != [] then Err(Join(", ", missing)) else Ok(true)
    else Ok(true)
  }

  /** The sources checked by `get_active_data_sources`, in its order. */
  const KnownSources: seq<string> := ["tiktok_shop", "shopee", "tiktok_ads"]

  /** A source is active when both of its two credentials are non-empty. */
  predicate Active(s: Settings, source: string)
  {
    if source == "tiktok_shop" then s.tiktokShopAppSecret != "" && s.tiktokShopAccessToken != ""
    else if source == "shopee" then s.shopeeAppKey != "" && s.shopeeAppSecret != ""
    else if source == "tiktok_ads" then s.tiktokAdsAppId != "" && s.tiktokAdsSecret != ""
    else false
  }

  /** `get_active_data_sources` */
  method GetActiveDataSources(s: Settings) returns (active: seq<string>)
    ensures forall src :: src in active <==> src in KnownSources && Active(s, src)
    ensures forall i, j :: 0 <= i < j < |active| ==> IndexIn(KnownSources, active[i]) < IndexIn(KnownSources, active[j])
  {
    active := [];
    if s.tiktokShopAppSecret != "" && s.tiktokShopAccessToken != "" {
      active := active + ["tiktok_shop"];
    }
    if s.shopeeAppKey != "" && s.shopeeAppSecret != "" {
      active := active + ["shopee"];
    }
    if s.tiktokAdsAppId != "" && s.tiktokAdsSecret != "" {
      active := active + ["tiktok_ads"];
    }
  }

  /** Position of `x` in `xs` (|xs| when absent). */
  function IndexIn(xs: seq<string>, x: string): (i: nat)
    ensures i <= |xs|
    ensures i < |xs| ==> xs[i] == x
    ensures forall j :: 0 <= j < i ==> xs[j] != x
  {
    if |xs| == 0 then 0
    else if xs[0] == x then 0
    else 1 + IndexIn(xs[1..], x)
  }
}
