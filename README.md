# Facolos data pipelines: a Dafny model of the ETL engine

This project models the engine that moves records from two REST APIs into a SQL Server staging
database. One source is a CRM platform (customers, sale orders, contacts, stocks, products). The
other is a marketplace (shop orders). The engine has four stages:

- **Extractors** walk the APIs page by page or cursor by cursor, with token handling and retries.
- **Transformers** flatten nested orders into one row per line item and stamp lineage columns.
- **Loaders** write the rows to the staging tables.
- **Drivers** run the endpoints in priority order and report per-endpoint statuses.

Every Python source file of the engine has its own Dafny module:

| module | file | models |
|---|---|---|
| `Settings` | `settings.dfy` | environment-backed settings, the schema mapping per data source, credential lookups, the validators |
| `TikTokAuth` | `auth.dfy` | the marketplace string to sign, the timestamp added to the caller's parameters, token refresh, the shop-cipher call |
| `MisaExtractor` | `misa_extractor.dfy` | the cached CRM bearer token, the retry loop that refreshes on 401, the page loop and its stop rules, the incremental filter |
| `TikTokExtractor` | `tiktok_extractor.dfy` | the cursor loop over order ids, detail requests in chunks of 50 ids, the period and recent-days entry points |
| `CrmTransformer` | `crm_transformer.dfy` | sale-order flattening, column coercion, lineage stamping, validation of the flattened frame |
| `TikTokTransformer` | `tiktok_transformer.dfy` | marketplace order flattening with order, recipient and item fields, then lineage columns |
| `MisaLoader` | `misa_loader.dfy` | table-name parsing, the load (whose bulk write raises before it starts) and its row-wise fallback in batches of 1000, the multi-endpoint load, post-load validation |
| `TikTokStagingLoader` | `tiktok_staging_loader.dfy` | frame validation, text cast and truncation of string columns, the load-mode dispatch |
| `HistoricalBackfill` | `historical_backfill.dfy` | the batch arithmetic, the MERGE statement, the per-row upsert and its counters, the loop over date windows |
| `Pipeline` | `pipeline.dfy` | what the two multi-endpoint drivers share: the endpoint list and its priority sort, one endpoint's outcome, the row count over the six staging tables |
| `ProductionOrchestrator` | `orchestrator.dfy` | the production cycle: CRM endpoints, then marketplace orders, then the data-quality check, and the cycle verdict |
| `ProductionMonitor` | `monitor.dfy` | the bounded metrics history, the failure and no-data counters, the alert rules with one-hour de-duplication, the health status |
| `CompleteBackfill` | `complete_backfill.dfy` | the complete backfill run, its verification over six tables, the final summary |
| `DatabaseSetup` | `db_setup.dfy` | SQL files split at "GO", batch execution with benign failures let through, the required steps, the four connection configurations |

Two support modules complete the model:

- `Values` (`values.dfy`) holds dynamic values, records and tables. A JSON payload, a DataFrame
  cell and an attribute are each a `Value`. A record maps column names to values, and a frame is
  a sequence of records.
- `Net` (`net.dfy`) is a scripted HTTP client. Each request takes the next scripted outcome. Every
  request is logged, and so is every sleep of whole seconds; the marketplace extractor's
  sub-second pauses are not.

The databases are scripted the same way: a map from tables to rows, plus a script of which
round-trips fail. The clock is an explicit `now` parameter. Classes keep the fields that the
Python objects update in place. Each class method is proved against a specification function,
and the lemmas state what the code promises about that function.

Where the code does not do what its names or comments suggest, the model follows the code:

- Both transformers count distinct order ids with pandas `nunique`, which uses Python equality:
  `1`, `1.0` and `True` are one id, and a list or dict id makes the count raise
  (`Values.NUnique`). The CRM validator lets that exception through; the marketplace validator
  answers False.
- The CRM loader's `load_dataframe_to_staging` reads `settings.misa_crm_etl_batch_size` as the
  bulk write's chunk size, and the settings object has no such attribute. The bulk `to_sql`
  therefore never starts: every non-empty mapped frame goes to the row-wise fallback, and
  `if_exists` has no effect (`MisaLoader.LoadAlwaysFallsBack`).
- The fallback passes each cell to `pd.isna` and then to pyodbc. A list or dict cell (other than a
  list holding a single null) makes its batch raise, so the load answers False after committing
  the batches before it (`MisaLoader.FallbackStopsAtUnbindable`).
- A 401 answer uses up one of the CRM extractor's retry attempts, after a forced token refresh
  (`MisaExtractor.Retry401ConsumesAttempt`).
- The marketplace loader's validation only logs negative `item_quantity` values; they do not fail
  it (`TikTokStagingLoader.NegativeQuantityOnlyWarns`).
- `upsert_misa_data` in `run_historical_backfill.py` builds a MERGE with one `?` marker per column
  but passes each row's values twice. Every row is therefore rejected, and both counters stay 0.
  Even so, the upsert answers True whenever the connection, the column query and the commit go
  through. `HistoricalBackfill.UpsertOutcome` states exactly this.
- The marketplace token refresh can store a new access token and then fail on a missing refresh
  token. It reports failure with the access token already changed, as
  `TikTokAuth.RefreshPartialUpdate` states.

## Model

| member | source | states |
|---|---|---|
| Values.PyKey | src/transformers/misa_crm_transformer.py:416 | a value has a Python hash key exactly when it is non-null and neither a list nor a dict |
| Values.NUnique | src/transformers/tiktok_shop_transformer.py:227 | `nunique` succeeds exactly when no cell is a list or dict, and then counts at most one per row |
| Values.ColumnKeysBound | src/transformers/tiktok_shop_transformer.py:227 | a column has no more distinct keys than rows |
| Values.ColumnKeysAppend | src/transformers/misa_crm_transformer.py:416 | the distinct keys of concatenated frames are the union of theirs |
| Values.HashableColumnAppend | src/transformers/tiktok_shop_transformer.py:227 | a concatenation is hashable exactly when both parts are |
| Values.ConstantColumnHashable | src/transformers/tiktok_shop_transformer.py:227 | a column holding one value is hashable exactly when that value is |
| Values.NumericCellsCountOnce | src/transformers/misa_crm_transformer.py:416 | `1`, `1.0` and `True` in one column count as one unique value |
| Values.UnhashableCellRaises | src/transformers/tiktok_shop_transformer.py:227 | a list or dict cell makes `nunique` raise |
| Settings.FromEnv | config/settings.py:14-111 | with no environment variables set, the settings take the source's defaults: company "Facolos", app key "6h2cosrovhjab", empty marketplace secret and token, password "FacolosDB2024!", timeout 30, 3 retries, 5 s delay |
| Settings.UndefinedAttributes | config/settings.py:14-275 | none of the fourteen names the extractor, authenticator and loaders read (CRM refresh buffer, page sizes, rate-limit delay, lookback, `tiktok_*` keys, staging schema and table, CRM table-name helper, CRM bulk chunk size, CRM retention days) is an attribute of the settings object, so each of those reads raises |
| Settings.TableFullName | config/settings.py:127-142 | succeeds exactly for a source with a schema mapping, and then is the schema, a dot and the table name; otherwise an error |
| Settings.DataSourceCredentials | config/settings.py:152-180 | any source other than the marketplace, Shopee and TikTok Ads gets an empty map; the marketplace gets exactly its five credential keys |
| Settings.TikTokShopCredentials | config/settings.py:162-169 | the marketplace credentials hold `app_secret` and `access_token` with the two settings' values |
| Settings.CrmHasNoCredentials | config/settings.py:162-180 | the CRM source has no `client_id`, `client_secret` or `base_url` credential |
| Settings.MissingSettingsMembers | config/settings.py:194-198 | a display name is reported missing exactly when some required setting with that name is empty |
| Settings.ValidateRequiredSettings | config/settings.py:182-205 | succeeds (with True) exactly when no required setting is empty; otherwise fails with the missing display names joined by ", " in declaration order |
| Settings.RequiredSettingsFail | config/settings.py:189-202 | the required-settings check fails exactly when the password or the company name is empty |
| Settings.ValidateDataSourceCredentials | config/settings.py:207-232 | fails exactly for the marketplace with an empty secret or token (naming both when both are empty); True for every other source |
| Settings.GetActiveDataSources | config/settings.py:234-254 | holds exactly the known sources whose two credentials are both non-empty, in the order marketplace, Shopee, TikTok Ads |
| TikTokAuth.StrLessIrreflexive | src/utils/auth.py:48 | Python's string `<`, used by the sort, is irreflexive |
| TikTokAuth.StrLessTransitive | src/utils/auth.py:48 | string `<` is transitive |
| TikTokAuth.StrLessTotal | src/utils/auth.py:48 | of two different strings one is less than the other |
| TikTokAuth.StrLessAsymmetric | src/utils/auth.py:48 | string `<` never holds both ways |
| TikTokAuth.SortByKey | src/utils/auth.py:48 | `sorted(params.items())` is a permutation of the items |
| TikTokAuth.SortByKeySorted | src/utils/auth.py:48 | with distinct keys, the sorted items are in strictly ascending key order |
| TikTokAuth.SortedUnique | src/utils/auth.py:48 | two strictly key-sorted arrangements of the same items are the same sequence |
| TikTokAuth.KeyValues | src/utils/auth.py:51 | one `key=value` text per parameter, in the given order |
| TikTokAuth.StringToSignSorted | src/utils/auth.py:47-54 | the string to sign is the path followed by the `&`-joined `key=value` pairs of every parameter, once each, in ascending key order |
| TikTokAuth.StringToSignOrderFree | src/utils/auth.py:47-54 | the string to sign does not depend on the order in which the parameters were inserted |
| TikTokAuth.Render | src/utils/auth.py:51 | each value is formatted with `str`, keys and order unchanged |
| TikTokAuth.WithTimestamp | src/utils/auth.py:43-45 | an existing `timestamp` is left as it is; otherwise one holding the current time is added to the caller's parameters |
| TikTokAuth.Signature | src/utils/auth.py:32-65 | the caller's parameters end up timestamped, and the signature is the HMAC under the app secret of the string to sign over those parameters |
| TikTokAuth.SignedKeeps | src/utils/auth.py:84-86 | signing a timestamped dictionary adds `sign` and leaves every other key unchanged |
| TikTokAuth.RefreshSpec | src/utils/auth.py:67-112 | a refresh sends exactly one signed POST, never touches the shop cipher, and on failure keeps the refresh token |
| TikTokAuth.RefreshSucceedsIff | src/utils/auth.py:94-102 | the refresh returns True exactly on a 200 reply with code 0 and a `data` object holding both tokens, and then stores both |
| TikTokAuth.RefreshFailureKeepsTokens | src/utils/auth.py:94-112 | a failed refresh leaves both tokens unchanged, except after a reply whose `data` has an access token but no refresh token, which changes only the access token |
| TikTokAuth.RefreshPartialUpdate | src/utils/auth.py:96-99 | a 200, code-0 reply granting only an access token makes the refresh return False with the new access token already stored |
| TikTokAuth.CipherSpec | src/utils/auth.py:114-153 | one signed GET; the first shop's cipher of a successful reply is stored and returned, a null one stored and returned as None; any other reply returns None with every token unchanged |
| TikTokAuth.EnsureRefreshesAtMostOnce | src/utils/auth.py:155-172 | a truthy cipher gives True after one request and no refresh; otherwise exactly one refresh follows, False if it fails, and after a successful refresh the answer is whether the second cipher call returned a non-null cipher |
| TikTokAuth.TikTokAuthenticator.constructor | src/utils/auth.py:25-30 | the app key, secret and the three tokens are taken as given |
| TikTokAuth.TikTokAuthenticator.RefreshAccessToken | src/utils/auth.py:67-112 | the result and the new tokens and network are those of `RefreshSpec` |
| TikTokAuth.TikTokAuthenticator.GetShopCipher | src/utils/auth.py:114-153 | the result and the new state are those of `CipherSpec` |
| TikTokAuth.TikTokAuthenticator.EnsureValidToken | src/utils/auth.py:155-172 | the result and the new state are those of the cipher/refresh/cipher sequence whose properties `EnsureRefreshesAtMostOnce` states |
| MisaExtractor.CredentialsOf | src/extractors/misa_crm_extractor.py:31-34 | construction succeeds exactly when the credentials hold `client_id`, `client_secret` and `base_url` |
| MisaExtractor.ExtractorCannotReadSettings | src/extractors/misa_crm_extractor.py:31-32 | with the settings as written, constructing the extractor raises `KeyError` whatever the settings' values |
| MisaExtractor.TokenExpired | src/extractors/misa_crm_extractor.py:66-72 | a missing or falsy token, or a missing expiry, counts as expired; otherwise the token is expired exactly when its remaining lifetime is at most the refresh buffer |
| MisaExtractor.DecodeTokenExpiry | src/extractors/misa_crm_extractor.py:50-64 | the token's `exp` claim when it decodes to a non-zero value, otherwise one hour from now |
| MisaExtractor.TokenSpec | src/extractors/misa_crm_extractor.py:74-109 | an unexpired cached token is returned with no request and nothing changed; otherwise one POST to `/Account`, storing token and decoded expiry only on a 200 reply with truthy `success` and a `data` field, and returning None with the stored token and expiry unchanged on any other answer |
| MisaExtractor.Attempt | src/extractors/misa_crm_extractor.py:125-152 | one pass of the retry loop consumes only the front of the response script, and a body it returns came from a 200 response of that script |
| MisaExtractor.SendAttempt | src/extractors/misa_crm_extractor.py:127-152 | the request part of a pass: the same two facts once the headers hold a token |
| MisaExtractor.RetryFrom | src/extractors/misa_crm_extractor.py:123-154 | the retry loop consumes only the front of the script, and a body it returns came from a 200 response of it |
| MisaExtractor.TokenLogGrows | src/extractors/misa_crm_extractor.py:74-109 | fetching a token only adds to the request log and sends no data request |
| MisaExtractor.AttemptSendsOne | src/extractors/misa_crm_extractor.py:125-152 | one pass sends at most one data request |
| MisaExtractor.SendSendsOne | src/extractors/misa_crm_extractor.py:131-152 | the request part of a pass sends at most one data request |
| MisaExtractor.RetryRequestBound | src/extractors/misa_crm_extractor.py:125-154 | the loop sends at most `api_retry_attempts` data requests, whatever the responses |
| MisaExtractor.RetryFirst200 | src/extractors/misa_crm_extractor.py:133-134 | with a valid cached token, a first 200 is returned at once after exactly one request |
| MisaExtractor.RetryOtherStatusStops | src/extractors/misa_crm_extractor.py:141-143 | a status other than 200 and 401 returns None after that one request, with no retry |
| MisaExtractor.Retry401ConsumesAttempt | src/extractors/misa_crm_extractor.py:135-140 | a 401 forces one token request and uses up the attempt: the next attempt follows a pause of `api_retry_delay`, and after the last attempt the result is None |
| MisaExtractor.RetryBackoffAfterException | src/extractors/misa_crm_extractor.py:145-152 | after an exception the loop pauses `api_retry_delay * (attempt + 1)` before the next attempt, and returns None after the last |
| MisaExtractor.RetryGivesUpWhenSilent | src/extractors/misa_crm_extractor.py:145-154 | with a valid token and a server that never answers, the result is None |
| MisaExtractor.EndpointParams | src/extractors/misa_crm_extractor.py:179-187 | `stocks` sends no parameters; any other endpoint sends `page` and `pageSize` = min(page size, maximum page size) |
| MisaExtractor.EndpointSpec | src/extractors/misa_crm_extractor.py:156-199 | an unknown endpoint gives None with no request; a body returned was a 200 response of the script |
| MisaExtractor.Classify | src/extractors/misa_crm_extractor.py:224-236 | a falsy result stops with the records so far; the loop goes on only with a full, non-empty `data` list; a short last page is appended before stopping |
| MisaExtractor.PageFetch | src/extractors/misa_crm_extractor.py:222 | the page fetch returns a body only by consuming the 200 response that carries it |
| MisaExtractor.AllFrom | src/extractors/misa_crm_extractor.py:212-242 | the page loop never reports fewer pages requested than it started from (its properties are the lemmas below) |
| MisaExtractor.AllFromKeepsCollected | src/extractors/misa_crm_extractor.py:229 | the records already collected stay, in order, at the front of the result |
| MisaExtractor.PageLimit | src/extractors/misa_crm_extractor.py:218-220 | with a limit m > 0, at most m pages are requested |
| MisaExtractor.PagesComeFromResponses | src/extractors/misa_crm_extractor.py:222-229 | every record collected is in the `data` list of one of the server's 200 responses |
| MisaExtractor.StocksIgnorePage | src/extractors/misa_crm_extractor.py:186-187 | every `stocks` page request carries the same (empty) parameters, whatever the page |
| MisaExtractor.SamePageUnlimited | src/extractors/misa_crm_extractor.py:217-239 | with no limit, k copies of the same full page are collected k times over and a (k+1)-th page is requested |
| MisaExtractor.SamePageLimited | src/extractors/misa_crm_extractor.py:217-239 | with a limit m, the same full page is collected once per remaining page up to m |
| MisaExtractor.FullPageStep | src/extractors/misa_crm_extractor.py:222-239 | a full page is taken and the loop goes on from the next page with the same token |
| MisaExtractor.StocksServeBody | src/extractors/misa_crm_extractor.py:186-199 | while the token is valid, the `stocks` fetch returns the scripted body for every page and nothing once the server is silent |
| MisaExtractor.StocksRepeatUnlimited | src/extractors/misa_crm_extractor.py:186-187 | with no page limit, a server answering every `stocks` request with the same full page makes the loop collect it once per answer; it stops only when the server stops answering |
| MisaExtractor.StocksRepeatLimited | src/extractors/misa_crm_extractor.py:186-187 | with a page limit m, the loop returns the same `stocks` page m times over |
| MisaExtractor.SamePageFromStart | src/extractors/misa_crm_extractor.py:212-239 | the two repeat results, from the first page with nothing collected |
| MisaExtractor.StocksFullPage | src/extractors/misa_crm_extractor.py:186-196 | one `stocks` page with a valid token sends a GET with no parameters and returns the response body |
| MisaExtractor.StocksSilentPage | src/extractors/misa_crm_extractor.py:191-199 | with nothing left to answer, a `stocks` page comes back empty |
| MisaExtractor.ReplaceZSuffix | src/extractors/misa_crm_extractor.py:274 | replacing `Z` turns a trailing `Z` into `+00:00` |
| MisaExtractor.Keep | src/extractors/misa_crm_extractor.py:270-282 | raises exactly for a record that is not a dict; drops a record exactly when `modified_date` is a non-empty string that parses to a naive time before the cutoff, and keeps it otherwise (missing, unparsable or timezone-aware) |
| MisaExtractor.ZSuffixedKept | src/extractors/misa_crm_extractor.py:274-279 | a `Z`-suffixed timestamp that parses as timezone-aware is always kept |
| MisaExtractor.Cutoff | src/extractors/misa_crm_extractor.py:255-256 | the cutoff is now minus the lookback hours, the configured lookback when none is given |
| MisaExtractor.Incremental | src/extractors/misa_crm_extractor.py:261-264 | nothing collected gives `[]`; a raising page loop raises |
| MisaExtractor.FilterKeepsSubsequence | src/extractors/misa_crm_extractor.py:268-285 | the filter keeps an order-preserving subsequence, made of exactly the records `Keep` accepts |
| MisaExtractor.FilterNoneStays | src/extractors/misa_crm_extractor.py:270-271 | once a record that is not a dict is reached, the whole filter raises |
| MisaExtractor.MisaCrmExtractor.constructor | src/extractors/misa_crm_extractor.py:29-46 | the extractor starts with no token and no expiry |
| MisaExtractor.MisaCrmExtractor.IsTokenExpired | src/extractors/misa_crm_extractor.py:66-72 | the same rule over the extractor's stored token and expiry |
| MisaExtractor.MisaCrmExtractor.GetAccessToken | src/extractors/misa_crm_extractor.py:74-109 | the token returned and the new token fields and network are those of `TokenSpec` |
| MisaExtractor.MisaCrmExtractor.MakeRequestWithRetry | src/extractors/misa_crm_extractor.py:123-154 | the body returned and the new state are those of `RetryFrom` from attempt 0 |
| MisaExtractor.MisaCrmExtractor.RequestOnce | src/extractors/misa_crm_extractor.py:126-152 | one pass ends or goes on exactly as `Attempt` says, in the state it gives |
| MisaExtractor.MisaCrmExtractor.SendWithToken | src/extractors/misa_crm_extractor.py:131-152 | the request of one pass ends or goes on exactly as `SendAttempt` says |
| MisaExtractor.MisaCrmExtractor.ExtractEndpointData | src/extractors/misa_crm_extractor.py:156-199 | the body and new state are those of `EndpointSpec` |
| MisaExtractor.MisaCrmExtractor.ExtractAllDataFromEndpoint | src/extractors/misa_crm_extractor.py:201-242 | the records and new state are those of the page loop `AllFrom` from page 0 |
| MisaExtractor.MisaCrmExtractor.ExtractIncrementalData | src/extractors/misa_crm_extractor.py:244-285 | at most ten pages are read, and the result is those records filtered against now minus the lookback |
| MisaExtractor.MisaCrmExtractor.IncrementalFilter | src/extractors/misa_crm_extractor.py:263-285 | nothing to filter gives `[]`, otherwise the `modified_date` filter |
| MisaExtractor.MisaCrmExtractor.FilterRecent | src/extractors/misa_crm_extractor.py:266-285 | the loop's result is the filter's, which keeps an order-preserving subsequence of accepted records |
| TikTokExtractor.SearchParamsOptional | src/extractors/tiktok_shop_extractor.py:61-78 | `cursor` is sent only after a non-empty cursor was received, `order_status` only when a non-empty one is given, and no `sign` is present before signing |
| TikTokExtractor.SearchBaseLacks | src/extractors/tiktok_shop_extractor.py:61-72 | the fixed search parameters hold no cursor, status or signature |
| TikTokExtractor.SearchParamsWindow | src/extractors/tiktok_shop_extractor.py:61-72 | the window bounds, the page size and the timestamp go out as decimal text |
| TikTokExtractor.SearchRequestShape | src/extractors/tiktok_shop_extractor.py:61-84 | the request sent carries the optional parameters under the same rule, and a signature |
| TikTokExtractor.IdsOfList | src/extractors/tiktok_shop_extractor.py:90 | the ids are each order's `order_id`, in list order; it raises exactly when some order lacks one |
| TikTokExtractor.SearchFrom | src/extractors/tiktok_shop_extractor.py:58-109 | the cursor loop keeps the tokens and consumes only the front of the response script |
| TikTokExtractor.SearchCollectsInOrder | src/extractors/tiktok_shop_extractor.py:58-113 | the loop consumes responses in order, going on only after a page whose `has_more` is truthy; when it ends normally (a non-200 status, a non-zero code or a last page) the result is every page's ids concatenated in page order, and after an exception it is `[]` |
| TikTokExtractor.ConsumedAfterPage | src/extractors/tiktok_shop_extractor.py:86-97 | a first page with more to come puts its ids in front of what the following responses give |
| TikTokExtractor.SearchFollowsCursor | src/extractors/tiktok_shop_extractor.py:58-95 | the loop only appends to the log; the first request carries the starting cursor and each later request carries the cursor of the page before it |
| TikTokExtractor.SearchNeedsToken | src/extractors/tiktok_shop_extractor.py:50-52 | when the token check fails no search request is sent and no ids are returned |
| TikTokExtractor.SlicesPartition | src/extractors/tiktok_shop_extractor.py:131-135 | the chunks concatenate back to the ids in order; there are ceil(n/50) of them, each non-empty, of at most 50 ids, and all but the last of exactly 50 |
| TikTokExtractor.JoinIds | src/extractors/tiktok_shop_extractor.py:145 | joining the chunk with commas succeeds exactly when every id is a string |
| TikTokExtractor.DetailsFrom | src/extractors/tiktok_shop_extractor.py:134-171 | the chunk loop leaves the tokens unchanged |
| TikTokExtractor.DetailsOneRequestPerChunk | src/extractors/tiktok_shop_extractor.py:134-171 | with string ids and no response that raises, each chunk gets exactly one request for its comma-joined ids, in order, and the result is the orders of every non-skipped response in chunk order (a failed chunk is skipped, the others kept) |
| TikTokExtractor.DetailsUnfold | src/extractors/tiktok_shop_extractor.py:134-164 | one pass requests the first chunk, consumes one response and goes on from the next chunk |
| TikTokExtractor.DetailsCrashLosesAll | src/extractors/tiktok_shop_extractor.py:173-175 | a response that raises makes the whole call return `[]`, whatever was collected before |
| TikTokExtractor.PeriodSkipsDetailsWithoutIds | src/extractors/tiktok_shop_extractor.py:198-202 | no ids means no detail request and an empty result |
| TikTokExtractor.PeriodFetchesFoundIds | src/extractors/tiktok_shop_extractor.py:198-208 | with ids, the details call receives exactly the ids the search returned, in their order |
| TikTokExtractor.TikTokShopOrderExtractor.constructor | src/extractors/tiktok_shop_extractor.py:27-29 | the extractor uses the given authenticator |
| TikTokExtractor.TikTokShopOrderExtractor.SearchOrdersForIds | src/extractors/tiktok_shop_extractor.py:31-113 | ids and new state are those of the token check followed by the cursor loop from an empty cursor |
| TikTokExtractor.TikTokShopOrderExtractor.CollectIds | src/extractors/tiktok_shop_extractor.py:54-109 | the `while has_more` loop returns what `SearchFrom` returns from an empty cursor, in the state it leaves |
| TikTokExtractor.TikTokShopOrderExtractor.SearchNext | src/extractors/tiktok_shop_extractor.py:59-95 | one request with the current cursor, answered by the next response |
| TikTokExtractor.TikTokShopOrderExtractor.GetOrderDetailsWithIds | src/extractors/tiktok_shop_extractor.py:115-175 | orders and new state are those of the token check followed by the chunk loop |
| TikTokExtractor.TikTokShopOrderExtractor.CollectDetails | src/extractors/tiktok_shop_extractor.py:131-171 | the chunk loop returns what `DetailsFrom` returns from offset 0 |
| TikTokExtractor.TikTokShopOrderExtractor.ExtractOrdersForPeriod | src/extractors/tiktok_shop_extractor.py:177-212 | search with page size 50 and no status, then details only when there are ids |
| TikTokExtractor.TikTokShopOrderExtractor.ExtractRecentOrders | src/extractors/tiktok_shop_extractor.py:214-227 | the period is [now - days_back days, now] |
| CrmTransformer.OrderKeyIsNotItemKey | src/transformers/misa_crm_transformer.py:143-152 | an `order_` column can never be overwritten by an `item_` column or a count column |
| CrmTransformer.ItemKeyIsNotOrderKey | src/transformers/misa_crm_transformer.py:143-152 | an `item_` column can never be overwritten by an `order_` column or a count column |
| CrmTransformer.OrderMain | src/transformers/misa_crm_transformer.py:132 | the order without `sale_order_product_mappings`, every other key and value kept |
| CrmTransformer.NullItemRow | src/transformers/misa_crm_transformer.py:164-169 | exactly the ten listed `item_` fields, each null |
| CrmTransformer.RowsOf | src/transformers/misa_crm_transformer.py:137-175 | an order with k items gives max(1, k) rows |
| CrmTransformer.FlattenLength | src/transformers/misa_crm_transformer.py:128-175 | flattening succeeds exactly when every order's mappings can be iterated, and then gives the sum over the orders of max(1, k) rows |
| CrmTransformer.FlattenPrefix | src/transformers/misa_crm_transformer.py:130-175 | the rows of the first n orders are a prefix of the rows of all orders |
| CrmTransformer.FlattenRowsOfOrder | src/transformers/misa_crm_transformer.py:130-175 | the rows of order i come right after the rows of the orders before it, items in list order |
| CrmTransformer.OrderFieldsOnEveryRow | src/transformers/misa_crm_transformer.py:132-161 | every row of an order carries `order_<key>` = the order's value for every key but the mappings, so these fields agree across the order's rows |
| CrmTransformer.ItemFieldsOnItemRow | src/transformers/misa_crm_transformer.py:147-148 | the row of item j carries `item_<key>` = the item's value for every key of the item |
| CrmTransformer.ItemCountsOnEveryRow | src/transformers/misa_crm_transformer.py:151-173 | every row of an order with k items has `has_multiple_items` = (k > 1) and `total_items_in_order` = k; False and 0 for a childless order |
| CrmTransformer.ChildlessRowItemFields | src/transformers/misa_crm_transformer.py:155-175 | a childless order gives one row whose `item_` fields are exactly the ten listed ones, all null |
| CrmTransformer.NullFieldsOnChildlessRow | src/transformers/misa_crm_transformer.py:164-169 | the ten listed `item_` fields of a childless row are null |
| CrmTransformer.ItemKeysOfChildlessRow | src/transformers/misa_crm_transformer.py:159-169 | a childless row has no other `item_` field |
| CrmTransformer.FlattenStep | src/transformers/misa_crm_transformer.py:130-175 | one more order appends its rows to the rows so far, or makes the flattening raise |
| CrmTransformer.FlattenNoneStays | src/transformers/misa_crm_transformer.py:137-139 | once an order's mappings cannot be iterated, the whole flattening raises |
| CrmTransformer.FlattenOrders | src/transformers/misa_crm_transformer.py:128-175 | the nested loops build exactly the flattened rows of the specification |
| CrmTransformer.AppendOrderRows | src/transformers/misa_crm_transformer.py:137-175 | appends exactly the order's rows to those built so far |
| CrmTransformer.AppendRows | src/transformers/misa_crm_transformer.py:139-154 | appends one row per item in list order, or the single childless row |
| CrmTransformer.ConvertColumn | src/transformers/misa_crm_transformer.py:82-84 | converting a column keeps the row count |
| CrmTransformer.ConvertColumns | src/transformers/misa_crm_transformer.py:82-104 | converting a list of columns keeps the row count |
| CrmTransformer.ApplySteps | src/transformers/misa_crm_transformer.py:74-104 | the numeric, date and boolean passes keep the row count |
| CrmTransformer.ColumnsAfterUpdate | src/transformers/misa_crm_transformer.py:84 | assigning an existing column on every row leaves the frame's columns as they were |
| CrmTransformer.ConvertColumnEffect | src/transformers/misa_crm_transformer.py:82-104 | a conversion keeps the columns and every other cell; a present column becomes the converted old cells (unparsable ones become null inside the coercion), or stays unchanged when the boolean cast fails on some cell |
| CrmTransformer.ConvertColumnsFrame | src/transformers/misa_crm_transformer.py:82-104 | converting a list of columns keeps the columns and every unlisted column's cells |
| CrmTransformer.ConvertColumnsCells | src/transformers/misa_crm_transformer.py:82-104 | each listed column that is present holds the converted original cells |
| CrmTransformer.ConvertColumnsLoop | src/transformers/misa_crm_transformer.py:82-84 | the `for col in cols: if col in df.columns` loop computes exactly the listed conversions |
| CrmTransformer.Stamp | src/transformers/misa_crm_transformer.py:47-53 | stamping keeps the row count |
| CrmTransformer.StampEffect | src/transformers/misa_crm_transformer.py:47-53 | every row of the copy gets the batch id, the two timestamps and `etl_source` = `misa_crm_api`, and keeps every other cell |
| CrmTransformer.ApplyStepsFrame | src/transformers/misa_crm_transformer.py:74-104 | the conversion passes keep the columns and every column no pass lists |
| CrmTransformer.TransformRows | src/transformers/misa_crm_transformer.py:55-110 | a plain transform keeps one row per record, in order; every row carries the batch id and source, and every unlisted column keeps the record's value |
| CrmTransformer.ValidateFlattenedData | src/transformers/misa_crm_transformer.py:388-447 | an empty frame fails with zero counts; a list or dict `order_id` raises; otherwise the counts of the specification, and the verdict passes exactly when the number of `order_id` values distinct under Python equality equals the number of orders and the non-null `item_id` count equals the original item total |
| CrmTransformer.UnhashableOrderIdRaises | src/transformers/misa_crm_transformer.py:416 | a list or dict `order_id` in any row makes the validator raise |
| CrmTransformer.TallyNoneStays | src/transformers/misa_crm_transformer.py:419-421 | once an order's mappings have no length, the counting loop raises |
| CrmTransformer.IdSetSize | src/transformers/misa_crm_transformer.py:416 | hashable order ids that are pairwise unequal in Python have as many keys as there are orders |
| CrmTransformer.IdSetMembers | src/transformers/misa_crm_transformer.py:416 | every key in the set is the key of some order's id |
| CrmTransformer.NotNullCountAppend | src/transformers/misa_crm_transformer.py:429 | non-null counts add up over concatenated frames |
| CrmTransformer.ConstantColumn | src/transformers/misa_crm_transformer.py:416 | a column holding one non-null hashable value has exactly that value's key as its distinct keys |
| CrmTransformer.NonNullColumn | src/transformers/misa_crm_transformer.py:429 | a column with no nulls counts every row |
| CrmTransformer.OneOrderIds | src/transformers/misa_crm_transformer.py:130-175 | all rows of a well-formed order carry its id as `order_id`, so their only distinct key is that id's |
| CrmTransformer.OneOrderItems | src/transformers/misa_crm_transformer.py:130-175 | among a well-formed order's rows, exactly its items have a non-null `item_id` |
| CrmTransformer.ItemsLenMatchesChildren | src/transformers/misa_crm_transformer.py:420-421 | the validator's item length is the number of items the flattening iterates |
| CrmTransformer.PrefixOrderIds | src/transformers/misa_crm_transformer.py:130-175 | the `order_id` cells of the first n orders' rows are all hashable, and their distinct keys are those orders' ids |
| CrmTransformer.PrefixItemIds | src/transformers/misa_crm_transformer.py:130-175 | the non-null `item_id` cells of the first n orders' rows number their items |
| CrmTransformer.FlattenedDataValidates | src/transformers/misa_crm_transformer.py:412-437 | orders as the API sends them (non-null hashable ids, pairwise unequal under Python equality, and list mappings of items with ids) flatten into a frame the validator passes |
| CrmTransformer.FirstRowColumns | src/transformers/misa_crm_transformer.py:416-429 | that frame has `order_id` and `item_id` columns |
| CrmTransformer.MisaCrmTransformer.constructor | src/transformers/misa_crm_transformer.py:27-30 | a new transformer has no batch id |
| CrmTransformer.MisaCrmTransformer.SetBatchId | src/transformers/misa_crm_transformer.py:32-35 | the batch id becomes the one given |
| CrmTransformer.MisaCrmTransformer.AddEtlMetadata | src/transformers/misa_crm_transformer.py:37-53 | a copy with as many rows, every row stamped with the current batch id and `etl_source` = `misa_crm_api` |
| CrmTransformer.MisaCrmTransformer.TransformRecords | src/transformers/misa_crm_transformer.py:67-107 | no records gives an empty frame; otherwise each conversion pass in order, then the metadata |
| CrmTransformer.MisaCrmTransformer.TransformCustomers | src/transformers/misa_crm_transformer.py:55-110 | the customer columns' numeric, date and boolean passes, then the metadata |
| CrmTransformer.MisaCrmTransformer.TransformContacts | src/transformers/misa_crm_transformer.py:239-278 | the contact passes, then the metadata |
| CrmTransformer.MisaCrmTransformer.TransformStocks | src/transformers/misa_crm_transformer.py:280-306 | the stock passes, then the metadata |
| CrmTransformer.MisaCrmTransformer.TransformProducts | src/transformers/misa_crm_transformer.py:308-347 | the product passes, then the metadata |
| CrmTransformer.MisaCrmTransformer.TransformSaleOrdersFlattened | src/transformers/misa_crm_transformer.py:112-237 | no orders gives an empty frame; otherwise the flattened rows (one per item, or one per childless order: the sum of max(1, k) rows), converted and stamped |
| CrmTransformer.MisaCrmTransformer.AllEndpointsFailure | src/transformers/misa_crm_transformer.py:370-371 | the whole call raises exactly when sale orders are present and cannot be flattened |
| CrmTransformer.MisaCrmTransformer.AllEndpointsShape | src/transformers/misa_crm_transformer.py:364-386 | the keys are exactly the endpoints present with records, `sale_orders` renamed `sale_orders_flattened`, each holding that endpoint's transform stamped with its own clock reading |
| CrmTransformer.MisaCrmTransformer.TransformAllEndpoints | src/transformers/misa_crm_transformer.py:349-386 | sets the batch id first, then gives the map of the specification, each endpoint stamped with that batch id and the clock reading of its own metadata call |
| TikTokTransformer.EmptyItemFields | src/transformers/tiktok_shop_transformer.py:152-167 | every field of the childless-order filler is a null `item_` column |
| TikTokTransformer.NotItemField | src/transformers/tiktok_shop_transformer.py:152-167 | a column not starting with 'i' is not one of the filler's item columns |
| TikTokTransformer.RecipientInfo | src/transformers/tiktok_shop_transformer.py:112-127 | the recipient part only holds `recipient_` columns (none can clash with order or item columns) |
| TikTokTransformer.Stamp | src/transformers/tiktok_shop_transformer.py:169-177 | stamping keeps one row per row and adds the lineage columns to each |
| TikTokTransformer.StampCarriesMetadata | src/transformers/tiktok_shop_transformer.py:171-175 | every stamped row carries the batch id, and created and updated times from one clock read |
| TikTokTransformer.ValidateDataframe | src/transformers/tiktok_shop_transformer.py:197-234 | passes exactly when the frame has columns, `order_id` and `etl_batch_id` among them, and no `order_id` cell is a list or dict; null ids do not fail it |
| TikTokTransformer.StampKeepsIds | src/transformers/tiktok_shop_transformer.py:169-177 | stamping leaves the `order_id` column as it was, so its hashability is unchanged |
| TikTokTransformer.ValidatedIffHashable | src/transformers/tiktok_shop_transformer.py:197-234 | a frame with both columns passes exactly when its `order_id` column can be hashed |
| TikTokTransformer.TikTokShopOrderTransformer.constructor | src/transformers/tiktok_shop_transformer.py:19-20 | the batch id is fixed at construction |
| TikTokTransformer.TikTokShopOrderTransformer.SafeFloat | src/transformers/tiktok_shop_transformer.py:179-186 | None, '' and anything `float` rejects become null; any other result is what `float` gives |
| TikTokTransformer.TikTokShopOrderTransformer.SafeInt | src/transformers/tiktok_shop_transformer.py:188-195 | None, '' and anything `int` rejects become null; any other result is what `int` gives |
| TikTokTransformer.TikTokShopOrderTransformer.OrderInfo | src/transformers/tiktok_shop_transformer.py:75-110 | when `order_amount` is a dict, the order part carries the order's `order_id` and no column starting with 'i' |
| TikTokTransformer.TikTokShopOrderTransformer.ItemInfo | src/transformers/tiktok_shop_transformer.py:129-150 | a readable item gives exactly the twelve item columns of the childless filler |
| TikTokTransformer.TikTokShopOrderTransformer.SalesAttributesText | src/transformers/tiktok_shop_transformer.py:131-149 | `item_sku_sales_attributes` is null when `sales_attributes` is missing or empty, and its JSON text otherwise |
| TikTokTransformer.TikTokShopOrderTransformer.OrderPart | src/transformers/tiktok_shop_transformer.py:41-59 | the order-and-recipient part of each row keeps the order's `order_id` and has no item column |
| TikTokTransformer.TikTokShopOrderTransformer.ItemRowsLength | src/transformers/tiktok_shop_transformer.py:56-60 | one row per line item, in order, each the order part merged with that item's fields |
| TikTokTransformer.TikTokShopOrderTransformer.OrderRowsLength | src/transformers/tiktok_shop_transformer.py:47-60 | an order gives one row when it has no line items and one per line item otherwise |
| TikTokTransformer.TikTokShopOrderTransformer.FlattenLength | src/transformers/tiktok_shop_transformer.py:39-60 | the flattened table has the sum over orders of max(1, line items) rows |
| TikTokTransformer.TikTokShopOrderTransformer.ChildlessOrderRow | src/transformers/tiktok_shop_transformer.py:49-53 | a childless order gives one row: its order and recipient fields, and the twelve item columns all null |
| TikTokTransformer.TikTokShopOrderTransformer.ItemRowContents | src/transformers/tiktok_shop_transformer.py:54-60 | the row of line item j holds the order's fields, the same on every item row, and that item's twelve fields |
| TikTokTransformer.TikTokShopOrderTransformer.TransformStampsRows | src/transformers/tiktok_shop_transformer.py:63-177 | every row of one call has the instance's batch id and equal created and updated times |
| TikTokTransformer.TikTokShopOrderTransformer.TransformEmptyCases | src/transformers/tiktok_shop_transformer.py:32-73 | no orders, or an order the code cannot read, gives an empty table; otherwise the row count is the sum of max(1, line items), at least one row per order |
| TikTokTransformer.TikTokShopOrderTransformer.RowCountAtLeast | src/transformers/tiktok_shop_transformer.py:49-60 | every order contributes at least one row |
| TikTokTransformer.TikTokShopOrderTransformer.TransformOutputValidates | src/transformers/tiktok_shop_transformer.py:197-231 | a non-empty output of the transform passes `validate_dataframe` exactly when no order's `order_id` is a list or dict; a null `order_id` passes |
| TikTokTransformer.TikTokShopOrderTransformer.OutputColumns | src/transformers/tiktok_shop_transformer.py:166-177 | the transform's non-empty output has columns, `order_id` and `etl_batch_id` among them |
| TikTokTransformer.TikTokShopOrderTransformer.OrderRowIds | src/transformers/tiktok_shop_transformer.py:41-60 | every row of one order carries that order's `order_id` |
| TikTokTransformer.TikTokShopOrderTransformer.RowOrderId | src/transformers/tiktok_shop_transformer.py:41-60 | row r of an order holds the order's `order_id` |
| TikTokTransformer.TikTokShopOrderTransformer.ChildlessRowOrderId | src/transformers/tiktok_shop_transformer.py:49-53 | the one row of a childless order holds the order's `order_id` |
| TikTokTransformer.TikTokShopOrderTransformer.ItemRowOrderId | src/transformers/tiktok_shop_transformer.py:54-60 | each line item's row holds the order's `order_id` |
| TikTokTransformer.TikTokShopOrderTransformer.ItemOrderRows | src/transformers/tiktok_shop_transformer.py:54-60 | an order with line items gives the item rows over its order part |
| TikTokTransformer.TikTokShopOrderTransformer.ItemRowsKeepPart | src/transformers/tiktok_shop_transformer.py:56-60 | every item row keeps each order-level field unchanged |
| TikTokTransformer.TikTokShopOrderTransformer.HashableSnoc | src/transformers/tiktok_shop_transformer.py:39-60 | appending an order's rows keeps the correspondence between a hashable `order_id` column and hashable order ids |
| TikTokTransformer.TikTokShopOrderTransformer.FlattenSnoc | src/transformers/tiktok_shop_transformer.py:39-60 | the rows of a list of orders are those of all but the last, then the last order's |
| TikTokTransformer.TikTokShopOrderTransformer.FlattenOrderIds | src/transformers/tiktok_shop_transformer.py:39-60 | the flattened `order_id` column is hashable exactly when every order's `order_id` is |
| TikTokTransformer.TikTokShopOrderTransformer.FirstRowHasOrderId | src/transformers/tiktok_shop_transformer.py:41-80 | the first flattened row has an `order_id` column |
| TikTokTransformer.TikTokShopOrderTransformer.TransformOrdersToDataframe | src/transformers/tiktok_shop_transformer.py:22-73 | returns the table of the transform specification |
| TikTokTransformer.TikTokShopOrderTransformer.FlattenOrders | src/transformers/tiktok_shop_transformer.py:37-60 | the loop over orders builds exactly the specified flattened rows, or fails where the code raises |
| TikTokTransformer.TikTokShopOrderTransformer.FlattenNext | src/transformers/tiktok_shop_transformer.py:39-60 | one pass appends order i's rows to the rows so far |
| TikTokTransformer.TikTokShopOrderTransformer.BuildOrderRows | src/transformers/tiktok_shop_transformer.py:41-60 | builds exactly the rows of one order |
| TikTokTransformer.TikTokShopOrderTransformer.FlattenStep | src/transformers/tiktok_shop_transformer.py:39-60 | the rows of i+1 orders are those of i orders followed by order i's rows |
| TikTokTransformer.TikTokShopOrderTransformer.AppendItemRows | src/transformers/tiktok_shop_transformer.py:56-60 | the inner loop builds exactly one row per line item, or fails on an unreadable item |
| TikTokTransformer.TikTokShopOrderTransformer.FlattenNoneStays | src/transformers/tiktok_shop_transformer.py:39-73 | once an order cannot be read, the whole flattening fails |
| TikTokTransformer.TikTokShopOrderTransformer.ItemRowsNoneStays | src/transformers/tiktok_shop_transformer.py:56-60 | once an item cannot be read, the order's rows fail |
| MisaLoader.Split | src/loaders/misa_crm_loader.py:54 | `split` always gives at least one part |
| MisaLoader.SplitCount | src/loaders/misa_crm_loader.py:54-55 | there is one more part than there are separators, so two parts means exactly one dot |
| MisaLoader.SplitParts | src/loaders/misa_crm_loader.py:54 | no part holds the separator |
| MisaLoader.SplitJoin | src/loaders/misa_crm_loader.py:54 | joining the parts with the separator gives the name back |
| MisaLoader.DotSplitUnique | src/loaders/misa_crm_loader.py:54-56 | a name with a dot-free part before its dot splits in only one way |
| MisaLoader.TableInfo | src/loaders/misa_crm_loader.py:44-58 | the result is either the whole name in `staging`, or a dot-free schema and table that rejoin to the name |
| MisaLoader.TableInfoDots | src/loaders/misa_crm_loader.py:44-58 | a name with exactly one dot gives the dot-free schema and table around it, which rejoin to the name; any other name is a table of that whole name in `staging` |
| MisaLoader.CountAppend | src/loaders/misa_crm_loader.py:54-55 | dots of a concatenation add up |
| MisaLoader.CountAbsent | src/loaders/misa_crm_loader.py:54-55 | a dot-free name has no dots |
| MisaLoader.TableInfoOfFullName | src/loaders/misa_crm_loader.py:33-58 | parsing undoes building: `schema.table` with dot-free parts parses back into that schema and table |
| MisaLoader.Drop | src/loaders/misa_crm_loader.py:76-122 | each round-trip uses up one entry of the fault script |
| MisaLoader.Append | src/loaders/misa_crm_loader.py:200-202 | appending rows to a table puts them at its end and leaves every other table alone |
| MisaLoader.Matching | src/loaders/misa_crm_loader.py:171 | the matching columns are exactly the target's columns that the frame has, in the target's order, and all of them when the frame has every one |
| MisaLoader.Project | src/loaders/misa_crm_loader.py:189-198 | an inserted row has exactly the matching columns; a cell is sent as NULL exactly when `pd.isna` holds for it (missing, null, or a list holding a single null), and as it is otherwise |
| MisaLoader.ProjectAll | src/loaders/misa_crm_loader.py:185-198 | one projected row per frame row, in order |
| MisaLoader.ProjectAllAppend | src/loaders/misa_crm_loader.py:185-198 | projecting two runs of rows is projecting each in turn |
| MisaLoader.BatchesTouchOneTable | src/loaders/misa_crm_loader.py:185-205 | the batch loop changes no table but the target |
| MisaLoader.BatchesCommitAll | src/loaders/misa_crm_loader.py:185-211 | when every batch goes through, every row from the start position is in the target, projected, in order, after the rows it had |
| MisaLoader.BatchesOkBindable | src/loaders/misa_crm_loader.py:185-211 | when every batch goes through, every row from the start position had only bindable matching cells |
| MisaLoader.AppendTwice | src/loaders/misa_crm_loader.py:200-203 | two appends in turn are one append of both |
| MisaLoader.CommitWholeStep | src/loaders/misa_crm_loader.py:185-203 | a committed batch followed by k committed batches is k+1 committed batches |
| MisaLoader.BatchesCommitWhole | src/loaders/misa_crm_loader.py:185-215 | when a batch raises, at binding or in its `executemany`, the target holds only the batches committed before it, a whole multiple of 1000 rows |
| MisaLoader.BatchesStopAtUnbindable | src/loaders/misa_crm_loader.py:185-215 | a row with a list or dict cell makes the loop fail, with only whole batches from before that row committed |
| MisaLoader.BatchesSucceed | src/loaders/misa_crm_loader.py:185-211 | with no failing round-trip and every cell bindable, the loop succeeds |
| MisaLoader.ToSql | src/loaders/tiktok_shop_staging_loader.py:110-115 | `to_sql` uses one round-trip; it raises exactly in the listed cases and then writes nothing; `replace` leaves exactly the frame, the other modes append it; no other table changes |
| MisaLoader.Truncated | src/loaders/misa_crm_loader.py:76-86 | `TRUNCATE` uses one round-trip; it empties the table exactly when it does not raise; no other table changes |
| MisaLoader.LoadGuards | src/loaders/misa_crm_loader.py:101-107 | an empty frame succeeds without touching the database; an unmapped endpoint fails without touching it |
| MisaLoader.ChunkSizeUndefined | src/loaders/misa_crm_loader.py:121 | the chunk size the bulk write reads is one of the names the settings object never defines |
| MisaLoader.LoadAlwaysFallsBack | src/loaders/misa_crm_loader.py:112-131 | because the chunk-size read raises first, a non-empty mapped load is the same for every `if_exists` (`replace` keeps the old rows), and a successful load has appended every row, projected onto the matching columns, with every cell bindable |
| MisaLoader.FallbackInsertsAll | src/loaders/misa_crm_loader.py:133-215 | when the fallback succeeds there were matching columns, every matching cell was bindable and every row went in, projected onto them; when it fails the target holds a whole number of 1000-row batches from the frame's front |
| MisaLoader.FallbackStopsAtUnbindable | src/loaders/misa_crm_loader.py:185-215 | a row with a list or dict cell in a matching column makes the fallback return False, keeping only whole batches from before that row |
| MisaLoader.FallbackSucceedsIff | src/loaders/misa_crm_loader.py:133-215 | with no failing round-trip, the fallback succeeds exactly when some column matches and every matching cell is bindable |
| MisaLoader.FallbackBatches | src/loaders/misa_crm_loader.py:182-215 | the batch loop from the first row commits all rows, every cell bindable, on success, and whole batches otherwise |
| MisaLoader.NoRowsProjected | src/loaders/misa_crm_loader.py:185-198 | no rows project to no rows |
| MisaLoader.LoadAllCounts | src/loaders/misa_crm_loader.py:217-261 | one count per endpoint, in input order: the frame's length when its load succeeded, 0 when the frame was empty or the load failed |
| MisaLoader.BatchesGrow | src/loaders/misa_crm_loader.py:185-215 | the batch loop only adds rows at the end of tables |
| MisaLoader.LoadOneGrows | src/loaders/misa_crm_loader.py:233-256 | one appending load without truncation only adds rows at the end of tables |
| MisaLoader.LoadAllOnlyAppends | src/loaders/misa_crm_loader.py:217-261 | without `truncate_first`, loading all endpoints keeps every table's old rows as a prefix |
| MisaLoader.LatestEtl | src/loaders/misa_crm_loader.py:295-296 | `MAX(etl_created_at)` is a timestamp some row has and no row exceeds, or NULL when no row has one |
| MisaLoader.CheckTable | src/loaders/misa_crm_loader.py:288-304 | a table check that reaches the database has `count_match` exactly when the table holds at least the expected rows, and `has_recent_data` exactly when its newest timestamp is under an hour old |
| MisaLoader.ValidateVerdict | src/loaders/misa_crm_loader.py:263-323 | unmapped endpoints get no entry, each mapped one exactly one in order; the expected total stays the sum of the counts; the verdict passes exactly when every entry passes |
| MisaLoader.ValidateMapped | src/loaders/misa_crm_loader.py:282-319 | the step of that loop for an endpoint that has a table |
| MisaLoader.StagingDatabase.constructor | src/loaders/misa_crm_loader.py:28-30 | the database starts with the given tables, columns and fault script |
| MisaLoader.StagingDatabase.RoundTrip | src/loaders/misa_crm_loader.py:287-290 | a round-trip consumes one fault entry, reports whether it raised and changes no table |
| MisaLoader.StagingDatabase.Truncate | src/loaders/tiktok_shop_staging_loader.py:95 | truncating behaves as `TRUNCATE TABLE` specifies |
| MisaLoader.StagingDatabase.InsertDataframe | src/loaders/tiktok_shop_staging_loader.py:110-115 | a bulk insert behaves as `to_sql` specifies, reporting False where it raises |
| MisaLoader.StagingDatabase.InsertBatch | src/loaders/misa_crm_loader.py:200-202 | one `executemany` and commit: appends the batch unless the round-trip raises |
| MisaLoader.MisaCrmLoader.constructor | src/loaders/misa_crm_loader.py:28-39 | the loader keeps the endpoint-to-table mapping and the database |
| MisaLoader.MisaCrmLoader.TruncateTable | src/loaders/misa_crm_loader.py:60-86 | an unmapped endpoint fails untouched; otherwise the mapped table is truncated |
| MisaLoader.MisaCrmLoader.LoadDataframeToStaging | src/loaders/misa_crm_loader.py:88-131 | the result and new database state are those of the load specification: the guards, then the fallback, since the bulk write raises before it starts |
| MisaLoader.MisaCrmLoader.LoadWithFallback | src/loaders/misa_crm_loader.py:133-215 | the result and new database state are those of the fallback specification, whose outcomes the fallback lemmas state |
| MisaLoader.MisaCrmLoader.InsertBatches | src/loaders/misa_crm_loader.py:182-211 | the batch loop's result and database are those of the batch specification, including the stop at an unbindable batch |
| MisaLoader.MisaCrmLoader.ProjectBatch | src/loaders/misa_crm_loader.py:186-198 | reports whether every cell of the batch can be bound, and when so builds exactly its projected rows |
| MisaLoader.MisaCrmLoader.LoadAllDataToStaging | src/loaders/misa_crm_loader.py:217-261 | the counts and database are those of the specification, so every property of it holds |
| MisaLoader.MisaCrmLoader.ValidateLoadedData | src/loaders/misa_crm_loader.py:263-323 | the validation result and database are those of the specification, so every property of it holds |
| TikTokStagingLoader.ValidFrameRejects | src/loaders/tiktok_shop_staging_loader.py:217-230 | a frame missing any of the four required columns, or with a null `order_id` in any row, fails validation |
| TikTokStagingLoader.ValidFrame | src/loaders/tiktok_shop_staging_loader.py:205-250 | a frame that passes has the four required columns, and every row holds a non-null `order_id` |
| TikTokStagingLoader.NegativeQuantityOnlyWarns | src/loaders/tiktok_shop_staging_loader.py:239-246 | making one `item_quantity` negative leaves the verdict as it was: negative quantities only warn |
| TikTokStagingLoader.RowwiseSameVerdict | src/loaders/tiktok_shop_staging_loader.py:215-250 | frames that agree row by row on keys, on `order_id` and on whether `item_quantity` compares with zero get the same verdict |
| TikTokStagingLoader.SameIds | src/loaders/tiktok_shop_staging_loader.py:227-230 | frames with the same `order_id` cells agree on having no null id |
| TikTokStagingLoader.SameQuantities | src/loaders/tiktok_shop_staging_loader.py:239-243 | frames agreeing on which quantities compare with zero agree on whether the comparison raises |
| TikTokStagingLoader.SameKeysSameColumns | src/loaders/tiktok_shop_staging_loader.py:221 | frames with the same keys row by row have the same columns |
| TikTokStagingLoader.ValidatorsDisagreeOnNullIds | src/loaders/tiktok_shop_staging_loader.py:217-230 | everything the loader's validator accepts with hashable order ids, the transformer's `validate_dataframe` (src/transformers/tiktok_shop_transformer.py:208-231) accepts too; a frame with a null `order_id` passes the transformer's check and fails the loader's, and one with a list `order_id` passes the loader's and fails the transformer's |
| TikTokStagingLoader.LimitsAtLeastTen | src/loaders/tiktok_shop_staging_loader.py:276-284 | every string limit is at least 10, long enough for the text "None" |
| TikTokStagingLoader.Cut | src/loaders/tiktok_shop_staging_loader.py:288 | `.str[:n]` is the prefix of length min(n, len), and leaves a text within the limit unchanged |
| TikTokStagingLoader.CastKeepsColumns | src/loaders/tiktok_shop_staging_loader.py:286-288 | casting a present column adds and removes no column |
| TikTokStagingLoader.PrepareFromRows | src/loaders/tiktok_shop_staging_loader.py:286-291 | the column loop keeps the row count and acts on each row independently |
| TikTokStagingLoader.RowFromKeeps | src/loaders/tiktok_shop_staging_loader.py:286-288 | a column no remaining entry names passes through untouched |
| TikTokStagingLoader.RowFromListed | src/loaders/tiktok_shop_staging_loader.py:286-288 | a listed column the frame has ends as the cut text of the row's original cell |
| TikTokStagingLoader.PreparedCells | src/loaders/tiktok_shop_staging_loader.py:252-297 | preparing keeps every row; each listed column the frame has holds the original cell's text cut to its limit, so a null becomes the text "None"; every other key of a row is untouched |
| TikTokStagingLoader.LoadOrdersGuards | src/loaders/tiktok_shop_staging_loader.py:76-107 | an empty frame succeeds without writing; a frame failing validation, or an unknown mode, fails without writing or any round-trip |
| TikTokStagingLoader.LoadOrdersModes | src/loaders/tiktok_shop_staging_loader.py:93-121 | `append` adds the prepared rows at the end of the staging table; `replace` and `truncate_insert` leave exactly the prepared rows; a failed truncation fails with the table as it was; no other table changes |
| TikTokStagingLoader.IncrementalIsValidatedAppend | src/loaders/tiktok_shop_staging_loader.py:128-153 | the incremental load is exactly `load_orders(df, 'append', validate_before_load=True)` |
| TikTokStagingLoader.TikTokShopOrderLoader.constructor | src/loaders/tiktok_shop_staging_loader.py:23-26 | the loader keeps the database and its staging table |
| TikTokStagingLoader.TikTokShopOrderLoader.LoadOrders | src/loaders/tiktok_shop_staging_loader.py:61-126 | the result and new database state are those of the `load_orders` specification |
| TikTokStagingLoader.TikTokShopOrderLoader.LoadIncrementalOrders | src/loaders/tiktok_shop_staging_loader.py:128-153 | the result and new database state are those of the incremental specification |
| TikTokStagingLoader.TikTokShopOrderLoader.PrepareDataframeForLoad | src/loaders/tiktok_shop_staging_loader.py:252-297 | the column loop over a copy builds exactly the prepared frame |
| HistoricalBackfill.FloorDivBounds | run_historical_backfill.py:39 | Python's `//` rounds toward negative infinity: the greatest multiple not above the dividend for a positive divisor |
| HistoricalBackfill.WindowsChain | run_historical_backfill.py:298-313 | the windows form a chain: the first starts at the start date, each ends at the earlier of its start plus `batch_days` and the end date, each next one starts the day after (never past the end), at most `total_batches` of them |
| HistoricalBackfill.WindowsReachEnd | run_historical_backfill.py:300-313 | with enough batch numbers left, the last window ends exactly at the end date |
| HistoricalBackfill.WindowsCoverPeriod | run_historical_backfill.py:298-313 | with a positive batch length, `total_days // batch_days + 1` windows always suffice: they run without a gap from the start date to the end date |
| HistoricalBackfill.RunOverWindows | run_historical_backfill.py:300-313 | the loop completes one batch per window and adds up the records of exactly those windows, numbered from 1 |
| HistoricalBackfill.KeyColumns | run_historical_backfill.py:160-163 | the ON conditions name exactly the primary keys that are among the columns |
| HistoricalBackfill.NonKeyColumns | run_historical_backfill.py:168 | the UPDATE list holds exactly the columns that are not primary keys, in column order, and all of them when no key is a column |
| HistoricalBackfill.MapText | run_historical_backfill.py:163-179 | one clause per name, in order |
| HistoricalBackfill.JoinStartsWithFirst | run_historical_backfill.py:165 | a join of parts starts with its first part |
| HistoricalBackfill.OnClauseKeys | run_historical_backfill.py:159-165 | the ON clause holds `target.pk = source.pk` for each primary key present among the columns, in key order, and is `1=0` exactly when none is present |
| HistoricalBackfill.JoinAvoids | run_historical_backfill.py:156-179 | joining parts without a character, by a separator without it, gives a text without it |
| HistoricalBackfill.PlaceholdersCount | run_historical_backfill.py:157 | the marker list holds exactly one `?` per column |
| HistoricalBackfill.NamePlain | run_historical_backfill.py:163-179 | a clause built from a name without `?` has no `?` |
| HistoricalBackfill.HeadPlain | run_historical_backfill.py:172-173 | the statement head has no `?` |
| HistoricalBackfill.SourcePartPlain | run_historical_backfill.py:173-174 | the USING and ON part has no `?` |
| HistoricalBackfill.MatchedPartPlain | run_historical_backfill.py:175-176 | the UPDATE part has no `?` |
| HistoricalBackfill.InsertPartPlain | run_historical_backfill.py:177-180 | the INSERT part has no `?` |
| HistoricalBackfill.MergeTailPlain | run_historical_backfill.py:171-181 | outside the marker list the statement has no `?` |
| HistoricalBackfill.MergeMarkers | run_historical_backfill.py:152-183 | the MERGE statement holds exactly one `?` per column |
| HistoricalBackfill.RowValues | run_historical_backfill.py:120-126 | one value per matching column, a missing or NaN cell sent as None |
| HistoricalBackfill.RowsCount | run_historical_backfill.py:117-139 | each row adds to at most one of the two counters |
| HistoricalBackfill.RowsAllRejected | run_historical_backfill.py:129 | with one marker per column, every row's doubled values are rejected: nothing is counted and no statement reaches the server |
| HistoricalBackfill.UpsertOutcome | run_historical_backfill.py:86-150 | no row is ever merged (both counters stay 0), yet the upsert answers True exactly when columns match and the connection, the column query and the commit go through |
| HistoricalBackfill.UpsertCountsBounded | run_historical_backfill.py:114-139 | whatever the server answers, inserted + updated never exceeds the frame's rows |
| HistoricalBackfill.HistoricalBackfillOrchestrator.constructor | run_historical_backfill.py:32-64 | the end date is today, `total_days` is their difference, `total_batches` = `total_days // batch_days + 1`, and both counters start at 0 |
| HistoricalBackfill.HistoricalBackfillOrchestrator.BuildMergeStatement | run_historical_backfill.py:152-183 | the key-condition loop builds exactly the specified statement |
| HistoricalBackfill.HistoricalBackfillOrchestrator.Exchange | run_historical_backfill.py:91-141 | one round-trip consumes one fault entry and leaves the counters alone |
| HistoricalBackfill.HistoricalBackfillOrchestrator.UpsertMisaData | run_historical_backfill.py:86-150 | the verdict, counters and server are those of the upsert specification; the run counters are untouched |
| HistoricalBackfill.HistoricalBackfillOrchestrator.MergeRows | run_historical_backfill.py:114-139 | the row loop computes exactly the specified counters and server |
| HistoricalBackfill.HistoricalBackfillOrchestrator.RunHistoricalBackfill | run_historical_backfill.py:282-331 | a failed initialisation returns False and changes nothing; otherwise `batches_completed` rises by the number of windows and `total_records_processed` by their records, and the answer is True unless there are no batches, where the summary's division by zero makes it False |
| HistoricalBackfill.StartAfterTodayHasNoBatches | run_historical_backfill.py:39 | a start date one day after today with 30-day batches gives zero batches |
| Pipeline.Names | run_complete_backfill.py:116-124 | the names of the endpoints, one per endpoint, in order |
| Pipeline.InsertKeepsOrder | run_complete_backfill.py:124 | inserting into a list ordered by priority keeps it ordered |
| Pipeline.InsertAddsOne | run_complete_backfill.py:124 | inserting adds exactly that endpoint |
| Pipeline.SortIsOrderedPermutation | run_complete_backfill.py:124 | `sort(key=priority)` gives a list ordered by priority holding the same endpoints |
| Pipeline.SortKeepsSorted | src/orchestrators/production_etl_orchestrator.py:137-145 | a list already in priority order is left as it is |
| Pipeline.AppendInsert | run_complete_backfill.py:124 | an endpoint whose priority is not below any other's goes last, after equal ones (the sort is stable) |
| Pipeline.TallyCounts | src/orchestrators/production_etl_orchestrator.py:289-300 | the tally succeeds exactly when every count query answers; it then holds each table's count in order, `total_records` is the sum of the counts, and `tables_with_data` is the number of non-empty tables |
| Pipeline.EmptyTablesBound | src/orchestrators/production_etl_orchestrator.py:293-300 | no more tables are empty than there are tables |
| Pipeline.CountTables | run_complete_backfill.py:258-298 | connects, then counts the tables in order; a raising connection or query gives that error, otherwise exactly the specified tally |
| Pipeline.TallyStopsAtError | src/orchestrators/production_etl_orchestrator.py:293-295 | once a query raises, the whole count is that error |
| Pipeline.FiveOfSix | src/orchestrators/production_etl_orchestrator.py:307-308 | of the six staging tables, at least five have data exactly when at most one is empty |
| ProductionOrchestrator.CycleOrder | src/orchestrators/production_etl_orchestrator.py:137-145 | sorting the declared endpoints keeps them: sale_orders, customers, contacts, stocks, products |
| ProductionOrchestrator.EntryStatuses | src/orchestrators/production_etl_orchestrator.py:147-262 | every endpoint gets exactly one of `no_data`, `success`, `duplicate_skipped` (orders: `load_failed`) or `error`; `success` exactly when the load returned True; `records` is the loaded row count on success and 0 otherwise |
| ProductionOrchestrator.CrmEntries | src/orchestrators/production_etl_orchestrator.py:147-202 | one entry per endpoint, in order, each that endpoint's own outcome |
| ProductionOrchestrator.CrmTotalIsLoadedRows | src/orchestrators/production_etl_orchestrator.py:329-338 | the CRM records add up to the rows loaded by the endpoints that succeeded; no other status contributes |
| ProductionOrchestrator.AnySuccessIff | src/orchestrators/production_etl_orchestrator.py:358-362 | `any(...)` holds exactly when some CRM entry has status `success` |
| ProductionOrchestrator.DetermineCycleSuccess | src/orchestrators/production_etl_orchestrator.py:346-368 | a cycle succeeds exactly when it has no errors, the quality check passed, and some CRM entry or the orders entry succeeded |
| ProductionOrchestrator.QualityOf | src/orchestrators/production_etl_orchestrator.py:264-327 | the quality check has a verdict exactly when the tally succeeded, and passes exactly when at least 5 tables have data |
| ProductionOrchestrator.QualityFiveOfSix | src/orchestrators/production_etl_orchestrator.py:280-308 | the quality check passes exactly when the connection and every query answer and at most one of the six tables is empty |
| ProductionOrchestrator.ProductionETLOrchestrator.constructor | src/orchestrators/production_etl_orchestrator.py:35-50 | a new orchestrator has no components and `cycle_count` 0 |
| ProductionOrchestrator.ProductionETLOrchestrator.InitializeComponents | src/orchestrators/production_etl_orchestrator.py:52-72 | succeeds exactly when all six components are built; the CRM extractor counts as built once the first one is |
| ProductionOrchestrator.ProductionETLOrchestrator.ProcessMisaCrmEndpoints | src/orchestrators/production_etl_orchestrator.py:131-204 | every endpoint in priority order gets its entry, whatever happened to the ones before it |
| ProductionOrchestrator.ProductionETLOrchestrator.ProcessTikTokShopData | src/orchestrators/production_etl_orchestrator.py:206-262 | the orders entry of the outcome; `success` exactly when the load returned True |
| ProductionOrchestrator.ProductionETLOrchestrator.VerifyDataQuality | src/orchestrators/production_etl_orchestrator.py:264-327 | the verdict of the quality check on what the queries answer |
| ProductionOrchestrator.ProductionETLOrchestrator.CalculateTotalRecords | src/orchestrators/production_etl_orchestrator.py:329-344 | `total_records` is the sum of the CRM entries' records plus the orders entry's |
| ProductionOrchestrator.ProductionETLOrchestrator.RunProductionCycle | src/orchestrators/production_etl_orchestrator.py:74-129 | `cycle_count` rises by exactly one; a failed initialisation records one error and processes no endpoint; otherwise the CRM entries in priority order, the orders entry, the quality verdict, the total and the success verdict; the monitor records the cycle |
| ProductionOrchestrator.ProductionETLOrchestrator.ProcessSources | src/orchestrators/production_etl_orchestrator.py:104-121 | fills in the three phases, the total and the verdict, and keeps the rest of the results |
| ProductionOrchestrator.ProductionETLOrchestrator.FinalizeCycleResults | src/orchestrators/production_etl_orchestrator.py:370-391 | stamps the duration and appends the cycle's metrics to the monitor's history |
| ProductionMonitor.SuccessCountBounds | src/monitoring/production_monitor.py:50-51 | `misa_success_count` is at most the number of CRM entries; it is 0 exactly when no entry has status `success`, and it equals the number of entries exactly when every entry does |
| ProductionMonitor.SuccessCountNone | src/monitoring/production_monitor.py:50-51 | the success count is zero if and only if no CRM entry has status `success` |
| ProductionMonitor.SuccessCountAll | src/monitoring/production_monitor.py:50-51 | the success count equals the number of entries if and only if every CRM entry has status `success` |
| ProductionMonitor.AppendedKeepsRecent | src/monitoring/production_monitor.py:62-66 | recording one cycle leaves min(old length + 1, 100) entries, the new metrics last, and drops only the oldest entries |
| ProductionMonitor.LastSnoc | src/monitoring/production_monitor.py:62-66 | cutting to the last n before or after appending gives the same sequence, so the cap can be applied once per append |
| ProductionMonitor.HistoryIsMostRecent | src/monitoring/production_monitor.py:62-66 | after any run of cycles the history is exactly the 100 most recent metrics ever recorded, in recording order |
| ProductionMonitor.CounterRules | src/monitoring/production_monitor.py:69-77 | a successful cycle resets `consecutive_failures` and resets `consecutive_no_data` exactly when it brought records (else adds one); a failed cycle adds one to the failures and leaves the no-data count alone |
| ProductionMonitor.FailuresCountTrailing | src/monitoring/production_monitor.py:69-77 | once any cycle has succeeded, `consecutive_failures` is the number of failed cycles since the last success; before that it is the starting count plus every cycle |
| ProductionMonitor.RateBelowEight | src/monitoring/production_monitor.py:115-116 | a ten-cycle success rate below 0.8 means fewer than 8 successes, and conversely |
| ProductionMonitor.AlertRules | src/monitoring/production_monitor.py:89-121 | each alert is raised exactly under its rule: PERFORMANCE/WARNING past 600 seconds, RELIABILITY/CRITICAL at 3 consecutive failures, DATA_QUALITY/WARNING at 5 cycles without data, RELIABILITY/WARNING when at least 10 cycles are recorded and fewer than 8 of the last 10 succeeded; at most four alerts |
| ProductionMonitor.SentRecordsUnlessRecent | src/monitoring/production_monitor.py:132-146 | an alert whose type and severity were recorded in the past hour leaves the history unchanged; otherwise exactly one record is appended, with that type, severity and the current time |
| ProductionMonitor.NoRepeatWithinHour | src/monitoring/production_monitor.py:132-146 | after an alert is recorded, the same alert sent again less than an hour later is skipped |
| ProductionMonitor.SentAllAppends | src/monitoring/production_monitor.py:124-125 | sending a list of alerts keeps the earlier history as a prefix and adds at most one record per alert |
| ProductionMonitor.ScalePositive | src/monitoring/production_monitor.py:242 | multiplying both sides by a positive factor keeps a strict comparison, in both directions |
| ProductionMonitor.RateBelowEighty | src/monitoring/production_monitor.py:222-242 | a percentage success rate below 80 means five times the successes is less than four times the cycles, and conversely |
| ProductionMonitor.SuccessesBound | src/monitoring/production_monitor.py:214 | the successful cycles never outnumber the cycles |
| ProductionMonitor.ProductionETLMonitor.constructor | src/monitoring/production_monitor.py:32-41 | a new monitor has empty metric and alert histories, both counters at 0 and no last successful run |
| ProductionMonitor.ProductionETLMonitor.RecordCycleMetrics | src/monitoring/production_monitor.py:43-82 | returns the cycle's metrics (success count of CRM entries, rate count/5, marketplace and quality flags); the history becomes the capped append; the counters follow the counter rules; the last successful run is set exactly on success; the alerts raised on the new counters and history are sent |
| ProductionMonitor.ProductionETLMonitor.CheckAlertConditions | src/monitoring/production_monitor.py:84-125 | the alerts sent are exactly those the rules give for the metrics, current counters and history, in rule order; nothing but the alert history changes |
| ProductionMonitor.ProductionETLMonitor.SendAlerts | src/monitoring/production_monitor.py:124-125 | each alert is sent in turn against the history the earlier ones left; nothing but the alert history changes |
| ProductionMonitor.ProductionETLMonitor.SendAlert | src/monitoring/production_monitor.py:127-146 | the alert history becomes the de-duplicated append of the alert; nothing else changes |
| ProductionMonitor.ProductionETLMonitor.PerformanceSummary | src/monitoring/production_monitor.py:201-230 | a summary exists exactly when some metrics fall after the cutoff `now - hours`; its successful cycles never exceed its total cycles |
| ProductionMonitor.ProductionETLMonitor.GenerateHealthReport | src/monitoring/production_monitor.py:232-265 | CRITICAL exactly at 3 or more consecutive failures; HEALTHY exactly when there is no current failure and the past hour is empty or at least 80% successful; otherwise WARNING; at most the 10 latest alerts are listed |
| CompleteBackfill.BackfillOrder | run_complete_backfill.py:115-124 | sorting the declared endpoints by priority puts sale_orders first, then customers, contacts, stocks and products |
| CompleteBackfill.EntryRules | run_complete_backfill.py:139-239 | every endpoint run ends in exactly one of `no_data`, `success`, `load_failed` or `error`; `success` exactly when the load returned True, `error` exactly when a step raised; only a success carries `loaded`, equal to the transformed row count |
| CompleteBackfill.Entries | run_complete_backfill.py:126-189 | one entry per endpoint in the given order, each that endpoint's own outcome; a failing endpoint does not affect the others |
| CompleteBackfill.LookupEntries | run_complete_backfill.py:141-184 | with distinct endpoint names, looking an endpoint up in the results gives the entry of its own run |
| CompleteBackfill.VerificationOf | run_complete_backfill.py:294-303 | verification yields counts exactly when the table queries succeed, and then succeeds exactly when at least 5 of the 6 tables hold rows |
| CompleteBackfill.FiguresCountSuccesses | run_complete_backfill.py:364-372 | `successful_misa` counts exactly the priority endpoints whose entry is a success, so it is at most the number of endpoints |
| CompleteBackfill.FiguresOfEntries | run_complete_backfill.py:364-372 | summed over a prefix of the endpoints, `total_misa_loaded` is the rows of the loads that were accepted |
| CompleteBackfill.SummaryOfBackfill | run_complete_backfill.py:359-372 | after a backfill of the five endpoints, `total_misa_loaded` is the total rows of every accepted load |
| CompleteBackfill.CompleteBackfillOrchestrator.constructor | run_complete_backfill.py:35-54 | the period ends now and starts `days_back` days earlier; no results yet |
| CompleteBackfill.CompleteBackfillOrchestrator.BackfillMisaCrmData | run_complete_backfill.py:107-189 | the results are the entries of the five endpoints in priority order, each built from its own run |
| CompleteBackfill.CompleteBackfillOrchestrator.VerifyAllData | run_complete_backfill.py:241-303 | a connection failure gives the error result; otherwise the total and the per-table counts over the six staging tables, succeeding exactly when at least 5 hold rows |
| CompleteBackfill.CompleteBackfillOrchestrator.RunCompleteBackfill | run_complete_backfill.py:305-349 | fails with nothing recorded when initialisation or either connection test fails; otherwise records the CRM entries, the marketplace entry and the verification, returns the verification's verdict and produces the summary |
| CompleteBackfill.CompleteBackfillOrchestrator.GenerateFinalSummary | run_complete_backfill.py:351-420 | overall success exactly when at least 5 tables hold rows and the database total is positive; the CRM success count is the number of successful priority endpoints, at most 5 |
| DatabaseSetup.SplitGo | create_complete_database_setup.py:245 | the split always yields at least one piece, the first a prefix of the text |
| DatabaseSetup.SplitGoJoins | create_complete_database_setup.py:245 | joining the pieces of `split('GO')` back with "GO" gives the original text, so splitting loses nothing |
| DatabaseSetup.SplitGoPiecesFree | create_complete_database_setup.py:245 | no piece contains "GO": every occurrence was a split point |
| DatabaseSetup.Strip | create_complete_database_setup.py:240-245 | `strip()` returns a slice of the text with no whitespace at either end, empty exactly when the text is all whitespace |
| DatabaseSetup.BatchesClean | create_complete_database_setup.py:245 | keeping the stripped non-empty pieces gives batches that are non-empty, free of "GO" and without surrounding whitespace |
| DatabaseSetup.SqlBatchesClean | create_complete_database_setup.py:244-246 | every batch of a file is non-empty, holds no "GO" and has no whitespace at either end |
| DatabaseSetup.Lower | create_complete_database_setup.py:265 | lower-casing keeps the length and maps every character through the letter mapping |
| DatabaseSetup.RunBatches | create_complete_database_setup.py:255-278 | the number of batches sent never exceeds the number of batches |
| DatabaseSetup.RunBatchesOutcome | create_complete_database_setup.py:255-278 | a file goes through exactly when every batch succeeds or fails only with "already exists"/"duplicate"; then all batches were sent; otherwise it stops right after the first other failure, every earlier batch having passed |
| DatabaseSetup.FileEdgeCases | create_complete_database_setup.py:224-242 | a missing file fails and an all-whitespace file succeeds, neither sending any batch |
| DatabaseSetup.FirstReach | create_complete_database_setup.py:124-149 | the connection returned is the first configuration, in order 1 to 4, that answers on the target database; none exactly when no configuration answers |
| DatabaseSetup.SetupVerdict | create_complete_database_setup.py:370-410 | started without a connection, the setup succeeds exactly when the configured database can be reached (when a later step needs it) and every required step succeeds; on success every step ran |
| DatabaseSetup.FiveStepVerdict | create_complete_database_setup.py:355-416 | the five-step setup succeeds exactly when the database is created or found, the configured database is reachable, all three SQL files go through and all six staging tables exist |
| DatabaseSetup.CountInAll | create_complete_database_setup.py:344-349 | the count of existing tables is at most the number expected, and equals it exactly when every expected table exists |
| DatabaseSetup.DatabaseSetupOrchestrator.constructor | create_complete_database_setup.py:27-63 | a new orchestrator has no connection and the five required steps in order |
| DatabaseSetup.DatabaseSetupOrchestrator.GetConnection | create_complete_database_setup.py:65-153 | the target is 'master' for database creation, else the requested database when it is given and non-empty, else the configured one; the result is the first of the four configurations that answers on it |
| DatabaseSetup.DatabaseSetupOrchestrator.CreateDatabase | create_complete_database_setup.py:155-219 | succeeds exactly when 'master' can be reached and the staging database either exists already or is created without error and then found |
| DatabaseSetup.DatabaseSetupOrchestrator.ExecuteSqlFile | create_complete_database_setup.py:221-282 | a missing file fails, a blank file succeeds, no connection fails; otherwise the batch run's verdict, with exactly the batches it sent |
| DatabaseSetup.DatabaseSetupOrchestrator.RunFileBatches | create_complete_database_setup.py:252-278 | the batches sent are the prefix up to and including the first non-benign failure, and the verdict is that of the batch rules |
| DatabaseSetup.DatabaseSetupOrchestrator.VerifySetup | create_complete_database_setup.py:308-353 | succeeds exactly when a connection is open and all six staging tables exist |
| DatabaseSetup.DatabaseSetupOrchestrator.ExecuteCompleteSetup | create_complete_database_setup.py:355-416 | the verdict, the number of steps run and the connection left behind are those of the step loop: it connects before step 2 when needed and stops at the first failed required step |
| DatabaseSetup.DatabaseSetupOrchestrator.RunStep | create_complete_database_setup.py:284-306 | a step's answer is that of its function: database creation, the step's SQL file, or the table check |

## Left out

- HTTP, SQL execution, the clock and sleeping are not real here. Responses and database faults
  come from scripts, and `now` is a parameter.
- JWT decoding (the `exp` claim, section 4.1.4 of RFC 7519) is an `Option<int>` input.
- The HMAC-SHA256 digest of RFC 2104 is an opaque function of the secret and the string to sign.
- ISO 8601 parsing (`fromisoformat`) is a function parameter. Times are whole seconds, and dates are day numbers.
- Pandas dtype coercion is represented by total functions passed to the transformers. The
  `errors='ignore'` boolean cast is a function that may answer "raised", and then the column is
  left unchanged. NaN and None are both the missing value `Null`. Pandas' column-level dtype
  inference is not modelled: each cell is converted on its own. So `to_numeric` does not promote
  an integer column to float when some cell is NaN, and `to_datetime` does not infer one format
  for the whole column.
- Floating-point values are not modelled exactly. This covers `_safe_float`, the monitor's success
  rates and averages, and the backfill's percentage log lines. Durations are reals.
- Logging, email and Slack alert delivery, and the alert message texts are not modelled.
- `health_check` and `test_api_connection` of the extractors are not modelled. Drivers that call a
  connection test receive its answer as a boolean parameter.
- Malformed JSON bodies are not modelled. A body is already a `Value`.
- `get_load_statistics`, `get_staging_data_summary`, `cleanup_old_data`, `initialize_staging`,
  `test_connection` and `test_database_connection` are not modelled. They are read-only
  introspection or maintenance outside the load path.
- The marketplace extractor's 0.1 s and 0.2 s sleeps are not recorded in the request log, because
  the log counts whole seconds.
- TikTokExtractor: a non-empty dict or string `order_list` ends the detail call on the exception
  path. Python would extend the orders with the dict's keys or the string's characters. (The
  search loop's `orders` field is modelled exactly: a non-empty dict or string makes
  `order['order_id']` raise.)
- MisaExtractor.Classify: a truthy `data` field that is not a list gives `None`. Python would extend
  the result with a dict's keys or a string's characters.
- The settings attributes the marketplace authenticator reads (`tiktok_app_key` and the others)
  are not defined by `config/settings.py`. They are constructor parameters here.
- MisaLoader.MisaCrmLoader.constructor: the table mapping is given, because the settings read
  raises as written. `get_misa_crm_table_full_name` is not a method of the settings object, so
  `MISACRMLoader()` raises AttributeError (misa_crm_loader.py:34).
- TikTokStagingLoader.TikTokShopOrderLoader.constructor: the staging table is given, because the
  settings read raises as written. `settings.staging_schema` is not defined, so
  `TikTokShopOrderLoader()` raises AttributeError (tiktok_shop_staging_loader.py:25).
- MisaExtractor.Config: the CRM credentials and tuning values are given, because the settings do
  not define most of them (`Settings.UndefinedAttributes`). As written, `MISACRMExtractor()`
  raises (`MisaExtractor.ExtractorCannotReadSettings`).
- As written, all three drivers stop at initialisation. Each `initialize_components` builds the CRM
  extractor first (production_etl_orchestrator.py:58, run_complete_backfill.py:63,
  run_historical_backfill.py:72), catches the raise and returns False. So the only as-written
  inputs to `InitializeComponents`, `RunProductionCycle`, `RunCompleteBackfill` and
  `RunHistoricalBackfill` are no components built and a failed initialisation. What the model
  proves past initialisation holds for settings that define these names.
- `get_env_summary`, the connection string and the request headers of the settings are not modelled.
- MisaLoader: a batch with a cell pyodbc rejects fails without a round-trip. Rows of
  that batch that pyodbc may already have sent are not modelled; they are never committed.
- MisaLoader: `pd.isna` on a list is modelled through the list's shape (a single null,
  possibly nested); numpy's treatment of other array-likes is not modelled.
- MisaLoader: the database manager's bulk `to_sql` write, which the marketplace loader uses, is all or nothing. A partial write before a failure, and the
  column types of a table that `to_sql` creates, are not modelled.
- The validity of generated SQL is not modelled. The MERGE text is modelled without its line
  breaks and indentation, and what a MERGE does to the table is not modelled. Only its
  `OUTPUT $action` answer is.
- TikTokStagingLoader: the exception path of `_prepare_dataframe_for_load` is not modelled.
- TikTokStagingLoader.ValidatorsDisagreeOnNullIds: no longer promises that every frame the
  loader's validator accepts passes the transformer's. That fails for a list or dict `order_id`,
  and the lemma shows such a frame.
- HistoricalBackfill: the `process_batch` work for one date window is a function parameter, and a
  zero `batch_days` (a division by zero in the source) is excluded by a precondition.
- ProductionOrchestrator: the components are represented by what running them comes to
  (`Attempt`). The cycle's catch-all exception branch (production_etl_orchestrator.py lines
  125-129) is not modelled, because each modelled phase catches its own exceptions.
  `execution_context` and `end_time` are not kept.
- ProductionMonitor.ProductionETLMonitor.PerformanceSummary: states only when a summary exists and
  that successful cycles never exceed total cycles. The averages and the percentage are
  floating-point figures and are not specified.
- The monitor's `system_info` block of the health report is not modelled.
- DatabaseSetup: the UTF-8-with-BOM fallback when reading a file is not modelled; files are
  already text. `strip()` and `lower()` cover ASCII and Latin-1 whitespace and ASCII letters
  only. What the SQL files create is not modelled; the server's answers stand for it. The
  half-second pause between steps and the closing of the connection at the end are not modelled.
- `dags/`, `src/utils/database.py`, `src/utils/logging.py`, `run_etl.py`, `test_project.py`,
  `config/production.py`, `monitor_airflow_production.py` and `deploy_airflow_dags.py` are not
  part of this model. From `config/production.py`, only the 600 s maximum execution time
  appears, as the monitor's threshold. The CRM page limit and the marketplace day buffer shape
  extractor calls that the orchestrator receives as `Attempt` values. Calls into
  `src/utils/database.py` are modelled at their call sites in the loaders.
