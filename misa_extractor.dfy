/** The CRM extractor: a cached bearer token with an expiry, a bounded retry loop that refreshes
  * the token on 401, one request per page, the page loop with its stop rules, and the
  * incremental filter on `modified_date`. */
module MisaExtractor {
  import opened Values
  import opened Net
  import Settings

  /** The settings the extractor reads. The CRM credentials and most tuning values are not
    * defined by the settings object (see `Settings.UndefinedAttributes`), so they are parameters. */
  datatype Config = Config(
    clientId: string,
    clientSecret: string,
    baseUrl: string,
    refreshBuffer: int,
    retryAttempts: int,
    retryDelay: int,
    pageSize: int,
    maxPageSize: int,
    rateLimitDelay: int,
    lookbackHours: int)

  /** `__init__` reads `client_id`, `client_secret` and `base_url` from the CRM credentials;
    * a missing key raises `KeyError` (None). */
  function CredentialsOf(creds: map<string, string>): (r: Option<(string, string, string)>)
    ensures r.Some? <==> "client_id" in creds && "client_secret" in creds && "base_url" in creds
  {
    if "client_id" in creds && "client_secret" in creds && "base_url" in creds then
      Some((creds["client_id"], creds["client_secret"], creds["base_url"]))
    else None
  }

  /** With the settings as written, constructing the extractor raises `KeyError`. */
  lemma ExtractorCannotReadSettings(s: Settings.Settings)
    ensures CredentialsOf(Settings.DataSourceCredentials(s, "misa_crm")).None?
  {
    Settings.CrmHasNoCredentials(s);
  }

  const EndpointPaths: map<string, string> := map[
    "customers" := "/Customers",
    "sale_orders" := "/SaleOrders",
    "contacts" := "/Contacts",
    "stocks" := "/Stocks",
    "products" := "/Products"]

  /** What the extractor's calls change: its two token fields and the network. */
  datatype World = World(token: Value, expiresAt: Option<int>, pending: seq<Outcome>, log: seq<Event>)

  function SendIn(w: World, request: Request): World
  {
    w.(pending := Rest(w.pending), log := w.log + [Sent(request)])
  }

  function SleepIn(w: World, seconds: int): World
  {
    w.(log := w.log + [Slept(seconds)])
  }

  // ---------------------------------------------------------------------------------------------
  // Token

  /** `_is_token_expired`: no token, no expiry, or the expiry falls within the refresh buffer. */
  function TokenExpired(cfg: Config, token: Value, expiresAt: Option<int>, now: int): (expired: bool)
    ensures !Truthy(token) || expiresAt.None? ==> expired
    ensures Truthy(token) && expiresAt.Some? ==> (expired <==> expiresAt.value - now <= cfg.refreshBuffer)
  {
    !Truthy(token) || expiresAt.None? || now + cfg.refreshBuffer >= expiresAt.value
  }

  /** `_decode_token_expiry`: the `exp` claim, or one hour from now when decoding fails or the
    * claim is absent or zero. `decodeExp` stands for the unverified JWT decode. */
  function DecodeTokenExpiry(decodeExp: Value -> Option<int>, token: Value, now: int): (r: int)
    ensures decodeExp(token).None? || decodeExp(token) == Some(0) ==> r == now + 3600
    ensures decodeExp(token).Some? && decodeExp(token) != Some(0) ==> r == decodeExp(token).value
  {
    match decodeExp(token)
    case Some(exp) => if exp != 0 then exp else now + 3600
    case None => now + 3600
  }

  function TokenRequest(cfg: Config): Request
  {
    Request("POST", cfg.baseUrl + "/Account",
      [("client_id", Str(cfg.clientId)), ("client_secret", Str(cfg.clientSecret))], Null)
  }

  /** The token a response grants: HTTP 200 with a JSON object whose `success` is truthy and
    * which has a `data` field. */
  function GrantedToken(o: Outcome): Option<Value>
  {
    match o
    case Response(200, Obj(m)) =>
      if Truthy(Get(m, "success")) && "data" in m then Some(m["data"]) else None
    case _ => None
  }

  /** `get_access_token`: the token returned (Null for None) and the new world. */
  function TokenSpec(cfg: Config, decodeExp: Value -> Option<int>, w: World, force: bool, now: int)
    : (r: (Value, World))
    ensures !force && !TokenExpired(cfg, w.token, w.expiresAt, now) ==> r == (w.token, w)
    ensures (force || TokenExpired(cfg, w.token, w.expiresAt, now)) ==>
      && r.1.pending == Rest(w.pending) && r.1.log == w.log + [Sent(TokenRequest(cfg))]
      && match GrantedToken(Next(w.pending))
         case Some(t) => r.0 == t && r.1.token == t && r.1.expiresAt == Some(DecodeTokenExpiry(decodeExp, t, now))
         case None => r.0 == Null && r.1.token == w.token && r.1.expiresAt == w.expiresAt
    ensures Suffix(r.1.pending, w.pending)
  {
    if !force && !TokenExpired(cfg, w.token, w.expiresAt, now) then (w.token, w)
    else
      var w1 := SendIn(w, TokenRequest(cfg));
      SuffixRest(w.pending);
      match GrantedToken(Next(w.pending))
      case Some(t) => (t, w1.(token := t, expiresAt := Some(DecodeTokenExpiry(decodeExp, t, now))))
      case None => (Null, w1)
  }

  // ---------------------------------------------------------------------------------------------
  // Retry

  /** The log of `w2` extends the log of `w1`. */
  ghost predicate LogExtends(w1: World, w2: World)
  {
    |w1.log| <= |w2.log| && w2.log[..|w1.log|] == w1.log
  }

  lemma LogExtendsTrans(a: World, b: World, c: World)
    requires LogExtends(a, b) && LogExtends(b, c)
    ensures LogExtends(a, c)
  {
    assert c.log[..|a.log|] == c.log[..|b.log|][..|a.log|];
  }

  /** How one pass through the retry loop ends: with a result, or by going on to the next attempt. */
  datatype Step = Done(body: Option<Value>, world: World) | Again(world: World)

  /** One pass of `_make_request_with_retry` at attempt `attempt` (of `api_retry_attempts`). */
  function Attempt(cfg: Config, decodeExp: Value -> Option<int>, w: World, url: string,
                   params: Assoc, attempt: nat, now: int): (s: Step)
    ensures Suffix(s.world.pending, w.pending)
    ensures s.Done? && s.body.Some? ==>
      |s.world.pending| < |w.pending| && Response(200, s.body.value) in w.pending
  {
    var (token, w1) := TokenSpec(cfg, decodeExp, w, false, now);
    if !Truthy(token) then
      // `_get_headers` raises and the `except` branch handles it
      if attempt < cfg.retryAttempts - 1 then Again(SleepIn(w1, cfg.retryDelay * (attempt + 1)))
      else Done(None, w1)
    else
      var s := SendAttempt(cfg, decodeExp, w1, url, params, token, attempt, now);
      SuffixTrans(s.world.pending, w1.pending, w.pending);
      if s.Done? && s.body.Some? then
        SuffixMember(Response(200, s.body.value), w1.pending, w.pending);
        s
      else s
  }

  /** The rest of the pass once the headers carry `token`: the GET and what its answer leads to. */
  function SendAttempt(cfg: Config, decodeExp: Value -> Option<int>, w1: World, url: string,
                       params: Assoc, token: Value, attempt: nat, now: int): (s: Step)
    ensures Suffix(s.world.pending, w1.pending)
    ensures s.Done? && s.body.Some? ==>
      |s.world.pending| < |w1.pending| && Response(200, s.body.value) in w1.pending
  {
    var w2 := SendIn(w1, Request("GET", url, params, token));
    SuffixRest(w1.pending);
    match Next(w1.pending)
    case Raised =>
      if attempt < cfg.retryAttempts - 1 then Again(SleepIn(w2, cfg.retryDelay * (attempt + 1)))
      else Done(None, w2)
    case Response(status, body) =>
      if status == 200 then Done(Some(body), w2)
      else if status == 401 then
        var w3 := TokenSpec(cfg, decodeExp, w2, true, now).1;
        SuffixTrans(w3.pending, w2.pending, w1.pending);
        Again(if attempt < cfg.retryAttempts - 1 then SleepIn(w3, cfg.retryDelay) else w3)
      else Done(None, w2)
  }

  /** `_make_request_with_retry` from attempt `attempt` on: the body of the response returned
    * (None for None) and the new world. */
  function RetryFrom(cfg: Config, decodeExp: Value -> Option<int>, w: World, url: string,
                     params: Assoc, attempt: nat, now: int): (r: (Option<Value>, World))
    decreases cfg.retryAttempts - attempt
    ensures Suffix(r.1.pending, w.pending)
    ensures r.0.Some? ==> |r.1.pending| < |w.pending| && Response(200, r.0.value) in w.pending
  {
    if attempt >= cfg.retryAttempts then (None, w)
    else
      match Attempt(cfg, decodeExp, w, url, params, attempt, now)
      case Done(body, w1) => (body, w1)
      case Again(w1) =>
        var r := RetryFrom(cfg, decodeExp, w1, url, params, attempt + 1, now);
        SuffixTrans(r.1.pending, w1.pending, w.pending);
        if r.0.Some? then SuffixMember(Response(200, r.0.value), w1.pending, w.pending); r else r
  }

  /** A token request adds no data request to the log. */
  lemma TokenLogGrows(cfg: Config, decodeExp: Value -> Option<int>, w: World, force: bool, now: int)
    ensures var w1 := TokenSpec(cfg, decodeExp, w, force, now).1;
      LogExtends(w, w1) && CountSent(w1.log, "GET") == CountSent(w.log, "GET")
  {
    var w1 := TokenSpec(cfg, decodeExp, w, force, now).1;
    if w1.log != w.log {
      CountSentAppend(w.log, [Sent(TokenRequest(cfg))], "GET");
      assert [Sent(TokenRequest(cfg))][..0] == [];
    }
  }

  lemma SleepLogGrows(w: World, seconds: int)
    ensures LogExtends(w, SleepIn(w, seconds))
    ensures CountSent(SleepIn(w, seconds).log, "GET") == CountSent(w.log, "GET")
  {
    CountSentAppend(w.log, [Slept(seconds)], "GET");
    assert [Slept(seconds)][..0] == [];
  }

  /** One pass sends at most one data request. */
  lemma AttemptSendsOne(cfg: Config, decodeExp: Value -> Option<int>, w: World, url: string,
                        params: Assoc, attempt: nat, now: int)
    ensures var s := Attempt(cfg, decodeExp, w, url, params, attempt, now);
      LogExtends(w, s.world) && CountSent(s.world.log, "GET") <= CountSent(w.log, "GET") + 1
  {
    var (token, w1) := TokenSpec(cfg, decodeExp, w, false, now);
    if !Truthy(token) {
      var s := Attempt(cfg, decodeExp, w, url, params, attempt, now);
      TokenLogGrows(cfg, decodeExp, w, false, now);
      if attempt < cfg.retryAttempts - 1 {
        SleepLogGrows(w1, cfg.retryDelay * (attempt + 1));
        LogExtendsTrans(w, w1, s.world);
      }
    } else {
      TokenLogGrows(cfg, decodeExp, w, false, now);
      SendSendsOne(cfg, decodeExp, w1, url, params, token, attempt, now);
      LogExtendsTrans(w, w1, SendAttempt(cfg, decodeExp, w1, url, params, token, attempt, now).world);
    }
  }

  lemma SendSendsOne(cfg: Config, decodeExp: Value -> Option<int>, w1: World, url: string,
                     params: Assoc, token: Value, attempt: nat, now: int)
    ensures var s := SendAttempt(cfg, decodeExp, w1, url, params, token, attempt, now);
      LogExtends(w1, s.world) && CountSent(s.world.log, "GET") <= CountSent(w1.log, "GET") + 1
  {
    var s := SendAttempt(cfg, decodeExp, w1, url, params, token, attempt, now);
    var req := Request("GET", url, params, token);
    var w2 := SendIn(w1, req);
    CountSentAppend(w1.log, [Sent(req)], "GET");
    assert [Sent(req)][..0] == [];
    if Next(w1.pending).Raised? {
      if attempt < cfg.retryAttempts - 1 {
        SleepLogGrows(w2, cfg.retryDelay * (attempt + 1));
        LogExtendsTrans(w1, w2, s.world);
      }
    } else if Next(w1.pending).status == 401 {
      var w3 := TokenSpec(cfg, decodeExp, w2, true, now).1;
      TokenLogGrows(cfg, decodeExp, w2, true, now);
      LogExtendsTrans(w1, w2, w3);
      if attempt < cfg.retryAttempts - 1 {
        SleepLogGrows(w3, cfg.retryDelay);
        LogExtendsTrans(w1, w3, s.world);
      }
    }
  }



  /** At most `api_retry_attempts` data requests are sent, whatever the responses. */
  lemma {:induction false} RetryRequestBound(cfg: Config, decodeExp: Value -> Option<int>, w: World,
                                             url: string, params: Assoc, attempt: nat, now: int)
    requires attempt <= cfg.retryAttempts
    ensures var r := RetryFrom(cfg, decodeExp, w, url, params, attempt, now);
      LogExtends(w, r.1) && CountSent(r.1.log, "GET") <= CountSent(w.log, "GET") + cfg.retryAttempts - attempt
    decreases cfg.retryAttempts - attempt
  {
    if attempt < cfg.retryAttempts {
      var s := Attempt(cfg, decodeExp, w, url, params, attempt, now);
      AttemptSendsOne(cfg, decodeExp, w, url, params, attempt, now);
      if s.Again? {
        RetryRequestBound(cfg, decodeExp, s.world, url, params, attempt + 1, now);
        LogExtendsTrans(w, s.world, RetryFrom(cfg, decodeExp, s.world, url, params, attempt + 1, now).1);
      }
    }
  }

  /** With a valid cached token, a first response of 200 is returned at once after one request. */
  lemma RetryFirst200(cfg: Config, decodeExp: Value -> Option<int>, w: World, url: string,
                      params: Assoc, now: int, body: Value)
    requires cfg.retryAttempts > 0 && !TokenExpired(cfg, w.token, w.expiresAt, now)
    requires Next(w.pending) == Response(200, body)
    ensures RetryFrom(cfg, decodeExp, w, url, params, 0, now)
      == (Some(body), SendIn(w, Request("GET", url, params, w.token)))
  {
  }

  /** A status other than 200 and 401 ends the loop with None after that one request. */
  lemma RetryOtherStatusStops(cfg: Config, decodeExp: Value -> Option<int>, w: World, url: string,
                              params: Assoc, attempt: nat, now: int, status: int, body: Value)
    requires attempt < cfg.retryAttempts && !TokenExpired(cfg, w.token, w.expiresAt, now)
    requires Next(w.pending) == Response(status, body) && status != 200 && status != 401
    ensures RetryFrom(cfg, decodeExp, w, url, params, attempt, now)
      == (None, SendIn(w, Request("GET", url, params, w.token)))
  {
  }

  /** A 401 forces a token request and uses up the attempt: the next attempt (or None, after
    * the last one) starts from the refreshed state, after a pause of `api_retry_delay`. */
  lemma Retry401ConsumesAttempt(cfg: Config, decodeExp: Value -> Option<int>, w: World, url: string,
                                params: Assoc, attempt: nat, now: int, body: Value)
    requires attempt < cfg.retryAttempts && !TokenExpired(cfg, w.token, w.expiresAt, now)
    requires Next(w.pending) == Response(401, body)
    ensures var w2 := SendIn(w, Request("GET", url, params, w.token));
      var w3 := TokenSpec(cfg, decodeExp, w2, true, now).1;
      && w3.log == w2.log + [Sent(TokenRequest(cfg))]
      && RetryFrom(cfg, decodeExp, w, url, params, attempt, now) ==
         if attempt < cfg.retryAttempts - 1
         then RetryFrom(cfg, decodeExp, SleepIn(w3, cfg.retryDelay), url, params, attempt + 1, now)
         else (None, w3)
  {
  }

  /** After an exception on a request, the loop waits `api_retry_delay * (attempt + 1)` before
    * the next attempt, and gives up with None after the last attempt. */
  lemma RetryBackoffAfterException(cfg: Config, decodeExp: Value -> Option<int>, w: World,
                                   url: string, params: Assoc, attempt: nat, now: int)
    requires attempt < cfg.retryAttempts && !TokenExpired(cfg, w.token, w.expiresAt, now)
    requires Next(w.pending) == Raised
    ensures var w2 := SendIn(w, Request("GET", url, params, w.token));
      RetryFrom(cfg, decodeExp, w, url, params, attempt, now) ==
        if attempt < cfg.retryAttempts - 1
        then RetryFrom(cfg, decodeExp, SleepIn(w2, cfg.retryDelay * (attempt + 1)), url, params, attempt + 1, now)
        else (None, w2)
  {
  }

  /** With a valid token and a silent server, every attempt raises and the result is None. */
  lemma {:induction false} RetryGivesUpWhenSilent(cfg: Config, decodeExp: Value -> Option<int>, w: World,
                                                  url: string, params: Assoc, attempt: nat, now: int)
    requires w.pending == [] && !TokenExpired(cfg, w.token, w.expiresAt, now)
    ensures RetryFrom(cfg, decodeExp, w, url, params, attempt, now).0 == None
    decreases cfg.retryAttempts - attempt
  {
    if attempt < cfg.retryAttempts - 1 {
      var w2 := SendIn(w, Request("GET", url, params, w.token));
      RetryGivesUpWhenSilent(cfg, decodeExp, SleepIn(w2, cfg.retryDelay * (attempt + 1)), url, params, attempt + 1, now);
    }
  }

  // ---------------------------------------------------------------------------------------------
  // Pages

  /** The query parameters of one page: page and capped page size, updated with the extra
    * parameters; `stocks` sends none at all. */
  function EndpointParams(cfg: Config, endpoint: string, page: int, pageSize: int, extra: Assoc): (p: Assoc)
    ensures endpoint == "stocks" ==> p == []
    ensures endpoint != "stocks" && extra == [] ==>
      AssocGet(p, "page") == Some(Int(page)) && AssocGet(p, "pageSize") == Some(Int(Min(pageSize, cfg.maxPageSize)))
      && |p| == 2
  {
    if endpoint == "stocks" then []
    else AssocUpdate([("page", Int(page)), ("pageSize", Int(Min(pageSize, cfg.maxPageSize)))], extra)
  }

  /** `extract_endpoint_data`: the parsed body (Null for None) and the new world. */
  function EndpointSpec(cfg: Config, decodeExp: Value -> Option<int>, w: World, endpoint: string,
                        page: int, pageSize: Option<int>, extra: Assoc, now: int): (r: (Value, World))
    ensures endpoint !in EndpointPaths ==> r == (Null, w)
    ensures Suffix(r.1.pending, w.pending)
    ensures r.0 != Null ==> |r.1.pending| < |w.pending| && Response(200, r.0) in w.pending
  {
    if endpoint !in EndpointPaths then (Null, w)
    else
      var size := if pageSize.None? then cfg.pageSize else pageSize.value;
      var url := cfg.baseUrl + EndpointPaths[endpoint];
      var (response, w1) := RetryFrom(cfg, decodeExp, w, url, EndpointParams(cfg, endpoint, page, size, extra), 0, now);
      if response.Some? then (response.value, w1) else (Null, w1)
  }

  /** `if max_pages and page >= max_pages`: None and 0 both mean no limit. */
  predicate Limited(maxPages: Option<int>)
  {
    maxPages.Some? && maxPages.value != 0
  }

  /** What the loop does with one page's result: stop with the records so far (None where
    * Python raises), or take a full page and go on. */
  datatype PageStep = Stop(data: Option<seq<Value>>) | More(batch: seq<Value>)

  /** `if not result or 'data' not in result or not result['data']`, then the short-page test.
    * `in` on a list tests membership and on a string tests for a substring; on a number it raises. */
  function Classify(pageSize: int, result: Value, acc: seq<Value>): (s: PageStep)
    ensures s.More? ==> Truthy(result) && |s.batch| >= pageSize && s.batch != []
    ensures s.More? ==> result.Obj? && "data" in result.fields && result.fields["data"] == List(s.batch)
    ensures s.Stop? && s.data.Some? && s.data.value != acc ==>
      && result.Obj? && "data" in result.fields && result.fields["data"].List?
      && s.data.value == acc + result.fields["data"].items && |result.fields["data"].items| < pageSize
    ensures !Truthy(result) ==> s == Stop(Some(acc))
  {
    if !Truthy(result) then Stop(Some(acc))
    else if result.Obj? then
      var m := result.fields;
      if "data" !in m || !Truthy(m["data"]) then Stop(Some(acc))
      else if !m["data"].List? then Stop(None)
      else if |m["data"].items| < pageSize then Stop(Some(acc + m["data"].items))
      else More(m["data"].items)
    else if result.List? then (if Str("data") in result.items then Stop(None) else Stop(Some(acc)))
    else if result.Str? then (if ContainsText(result.s, "data") then Stop(None) else Stop(Some(acc)))
    else Stop(None)
  }

  /** How the page loop fetches one page: from a world and a page number to the parsed body
    * (Null for None) and the new world. */
  type Fetch = (World, nat) -> (Value, World)

  /** A fetch that returns a body consumed the server's 200 response carrying it. */
  ghost predicate Consumes(fetch: Fetch)
  {
    forall w: World, p: nat :: fetch(w, p).0 != Null ==>
      && |fetch(w, p).1.pending| < |w.pending|
      && Suffix(fetch(w, p).1.pending, w.pending)
      && Response(200, fetch(w, p).0) in w.pending
  }

  /** The page fetch of `extract_all_data_from_endpoint`: `extract_endpoint_data` with the
    * configured page size. */
  function PageFetch(cfg: Config, decodeExp: Value -> Option<int>, endpoint: string, now: int): (f: Fetch)
    ensures Consumes(f)
  {
    (w: World, p: nat) => EndpointSpec(cfg, decodeExp, w, endpoint, p, Some(cfg.pageSize), [], now)
  }

  /** The page loop's result: the records (None where the source raises), the new world and how
    * many pages were requested. */
  datatype Pages = Pages(data: Option<seq<Value>>, world: World, fetched: nat)

  /** `extract_all_data_from_endpoint` from page `page` on, with `acc` collected so far. */
  function AllFrom(cfg: Config, fetch: Fetch, w: World, maxPages: Option<int>, page: nat, acc: seq<Value>): (r: Pages)
    requires Consumes(fetch)
    decreases |w.pending|
    ensures r.fetched >= page
  {
    if Limited(maxPages) && page >= maxPages.value then Pages(Some(acc), w, page)
    else
      var (result, w1) := fetch(w, page);
      match Classify(cfg.pageSize, result, acc)
      case Stop(data) => Pages(data, w1, page + 1)
      case More(batch) => AllFrom(cfg, fetch, SleepIn(w1, cfg.rateLimitDelay), maxPages, page + 1, acc + batch)
  }

  /** The records collected so far are kept, in order, at the front of the result. */
  lemma {:induction false} AllFromKeepsCollected(cfg: Config, fetch: Fetch, w: World, maxPages: Option<int>,
                                                 page: nat, acc: seq<Value>)
    requires Consumes(fetch)
    ensures var r := AllFrom(cfg, fetch, w, maxPages, page, acc);
      r.data.Some? ==> |acc| <= |r.data.value| && r.data.value[..|acc|] == acc
    decreases |w.pending|
  {
    if !(Limited(maxPages) && page >= maxPages.value) {
      var (result, w1) := fetch(w, page);
      var s := Classify(cfg.pageSize, result, acc);
      if s.More? {
        AllFromKeepsCollected(cfg, fetch, SleepIn(w1, cfg.rateLimitDelay), maxPages, page + 1, acc + s.batch);
        var r := AllFrom(cfg, fetch, w, maxPages, page, acc);
        assert r.data.Some? ==> r.data.value[..|acc|] == r.data.value[..|acc + s.batch|][..|acc|];
      } else if s.data.Some? && s.data.value != acc {
        assert s.data.value[..|acc|] == acc;
      }
    }
  }

  /** With a page limit m > 0 the loop requests at most m pages. */
  lemma {:induction false} PageLimit(cfg: Config, fetch: Fetch, w: World, maxPages: Option<int>,
                                     page: nat, acc: seq<Value>)
    requires Consumes(fetch) && Limited(maxPages) && page <= maxPages.value
    ensures AllFrom(cfg, fetch, w, maxPages, page, acc).fetched <= maxPages.value
    decreases |w.pending|
  {
    if page < maxPages.value {
      var (result, w1) := fetch(w, page);
      var s := Classify(cfg.pageSize, result, acc);
      if s.More? {
        PageLimit(cfg, fetch, SleepIn(w1, cfg.rateLimitDelay), maxPages, page + 1, acc + s.batch);
      }
    }
  }

  /** `o` is one of the server's responses: a 200 whose `data` list holds `record`. */
  ghost predicate FromResponse(o: Outcome, pending: seq<Outcome>, record: Value)
  {
    o in pending && o.Response? && o.status == 200 && o.body.Obj?
    && "data" in o.body.fields && o.body.fields["data"].List? && record in o.body.fields["data"].items
  }

  /** `record` is in the `data` list of one of the server's 200 responses. */
  ghost predicate Sourced(record: Value, pending: seq<Outcome>)
  {
    exists o :: FromResponse(o, pending, record)
  }

  /** Every record collected came from a 200 response of the server. */
  lemma {:induction false} PagesComeFromResponses(cfg: Config, fetch: Fetch, w: World, maxPages: Option<int>,
                                                  page: nat, acc: seq<Value>)
    requires Consumes(fetch)
    ensures var r := AllFrom(cfg, fetch, w, maxPages, page, acc);
      r.data.Some? ==> forall i :: |acc| <= i < |r.data.value| ==> Sourced(r.data.value[i], w.pending)
    decreases |w.pending|
  {
    var r := AllFrom(cfg, fetch, w, maxPages, page, acc);
    if !(Limited(maxPages) && page >= maxPages.value) && r.data.Some? {
      var (result, w1) := fetch(w, page);
      var s := Classify(cfg.pageSize, result, acc);
      if s.More? {
        var ws := SleepIn(w1, cfg.rateLimitDelay);
        PagesComeFromResponses(cfg, fetch, ws, maxPages, page + 1, acc + s.batch);
        assert r == AllFrom(cfg, fetch, ws, maxPages, page + 1, acc + s.batch);
        assert result != Null;
        forall i | |acc| <= i < |r.data.value|
          ensures Sourced(r.data.value[i], w.pending)
        {
          if i < |acc + s.batch| {
            AllFromKeepsCollected(cfg, fetch, ws, maxPages, page + 1, acc + s.batch);
            assert r.data.value[i] == (acc + s.batch)[i] == s.batch[i - |acc|];
            assert FromResponse(Response(200, result), w.pending, r.data.value[i]);
          } else {
            assert Sourced(r.data.value[i], ws.pending);
            var o :| FromResponse(o, ws.pending, r.data.value[i]);
            SuffixMember(o, w1.pending, w.pending);
            assert FromResponse(o, w.pending, r.data.value[i]);
          }
        }
      } else if r.data.value != acc {
        assert result != Null;
        forall i | |acc| <= i < |r.data.value|
          ensures Sourced(r.data.value[i], w.pending)
        {
          var batch := result.fields["data"].items;
          assert r.data.value == acc + batch;
          assert r.data.value[i] == batch[i - |acc|];
          assert FromResponse(Response(200, result), w.pending, r.data.value[i]);
        }
      }
    }
  }

  /** `Repeat(xs, k)` is `xs` k times over. */
  function Repeat<T>(xs: seq<T>, k: nat): (r: seq<T>)
    ensures |r| == |xs| * k
  {
    if k == 0 then [] else Repeat(xs, k - 1) + xs
  }

  function Copies<T>(x: T, k: nat): (r: seq<T>)
    ensures |r| == k && forall i :: 0 <= i < k ==> r[i] == x
  {
    if k == 0 then [] else [x] + Copies(x, k - 1)
  }

  /** `stocks` sends no paging parameters, so every page request is the same request. */
  lemma StocksIgnorePage(cfg: Config, p1: int, p2: int, size1: int, size2: int, extra: Assoc)
    ensures EndpointParams(cfg, "stocks", p1, size1, extra) == EndpointParams(cfg, "stocks", p2, size2, extra) == []
  {
  }

  /** A fetch that, for worlds holding the given token, returns `body` for a scripted
    * `Response(200, body)` (consuming it and keeping the token) and nothing once the script
    * is exhausted. */
  ghost predicate ServesBody(fetch: Fetch, body: Value, token: Value, expiresAt: Option<int>)
  {
    forall w: World, p: nat {:trigger fetch(w, p)} :: w.token == token && w.expiresAt == expiresAt ==>
      && (w.pending == [] ==> fetch(w, p).0 == Null)
      && (w.pending != [] && w.pending[0] == Response(200, body) ==>
            && fetch(w, p).0 == body && fetch(w, p).1.pending == w.pending[1..]
            && fetch(w, p).1.token == token && fetch(w, p).1.expiresAt == expiresAt)
  }

  /** A page loop without a limit, fed k copies of the same full page, collects it k times and
    * asks for a (k+1)-th page. */
  lemma {:induction false} SamePageUnlimited(cfg: Config, fetch: Fetch, w: World, records: seq<Value>,
                                             k: nat, page: nat, acc: seq<Value>)
    requires Consumes(fetch) && 0 < cfg.pageSize <= |records|
    requires ServesBody(fetch, Obj(map["data" := List(records)]), w.token, w.expiresAt)
    requires w.pending == Copies(Response(200, Obj(map["data" := List(records)])), k)
    ensures var r := AllFrom(cfg, fetch, w, None, page, acc);
      r.data == Some(acc + Repeat(records, k)) && r.fetched == page + k + 1
    decreases k
  {
    if k == 0 {
      var body := Obj(map["data" := List(records)]);
      assert fetch(w, page).0 == Null;
      assert acc + Repeat(records, 0) == acc;
    } else {
      var ws := FullPageStep(cfg, fetch, w, records, None, page, acc);
      CopiesTail(Response(200, Obj(map["data" := List(records)])), k);
      SamePageUnlimited(cfg, fetch, ws, records, k - 1, page + 1, acc + records);
      RepeatAfter(acc, records, k);
    }
  }

  /** With a limit m, the same loop collects the page m times over and stops. */
  lemma {:induction false} SamePageLimited(cfg: Config, fetch: Fetch, w: World, records: seq<Value>,
                                           k: nat, m: nat, page: nat, acc: seq<Value>)
    requires Consumes(fetch) && 0 < cfg.pageSize <= |records| && 0 < m && page <= m && m - page <= k
    requires ServesBody(fetch, Obj(map["data" := List(records)]), w.token, w.expiresAt)
    requires w.pending == Copies(Response(200, Obj(map["data" := List(records)])), k)
    ensures var r := AllFrom(cfg, fetch, w, Some(m), page, acc);
      r.data == Some(acc + Repeat(records, m - page)) && r.fetched == m
    decreases m - page
  {
    if page == m {
      assert acc + Repeat(records, 0) == acc;
    } else {
      var ws := FullPageStep(cfg, fetch, w, records, Some(m), page, acc);
      CopiesTail(Response(200, Obj(map["data" := List(records)])), k);
      SamePageLimited(cfg, fetch, ws, records, k - 1, m, page + 1, acc + records);
      RepeatAfter(acc, records, m - page);
    }
  }

  /** One full page: the loop takes its records and goes on from the next page in the world the
    * fetch and the pause leave, which still holds the same token. */
  lemma FullPageStep(cfg: Config, fetch: Fetch, w: World, records: seq<Value>, maxPages: Option<int>,
                     page: nat, acc: seq<Value>) returns (ws: World)
    requires Consumes(fetch) && 0 < cfg.pageSize <= |records|
    requires ServesBody(fetch, Obj(map["data" := List(records)]), w.token, w.expiresAt)
    requires w.pending != [] && w.pending[0] == Response(200, Obj(map["data" := List(records)]))
    requires !(Limited(maxPages) && page >= maxPages.value)
    ensures ws.token == w.token && ws.expiresAt == w.expiresAt && ws.pending == w.pending[1..]
    ensures AllFrom(cfg, fetch, w, maxPages, page, acc) == AllFrom(cfg, fetch, ws, maxPages, page + 1, acc + records)
  {
    var body := Obj(map["data" := List(records)]);
    var (result, w1) := fetch(w, page);
    assert result == body;
    assert "data" in body.fields && records != [];
    assert Classify(cfg.pageSize, body, acc) == More(records);
    ws := SleepIn(w1, cfg.rateLimitDelay);
  }

  lemma CopiesTail<T>(x: T, k: nat)
    requires k > 0
    ensures Copies(x, k)[0] == x && Copies(x, k)[1..] == Copies(x, k - 1)
  {
  }

  lemma RepeatAfter<T>(acc: seq<T>, xs: seq<T>, k: nat)
    requires k > 0
    ensures acc + xs + Repeat(xs, k - 1) == acc + Repeat(xs, k)
  {
    RepeatFront(xs, k);
    AppendAssoc(acc, xs, Repeat(xs, k - 1));
  }

  /** The `stocks` fetch serves the same body for every page while the token stays valid. */
  lemma StocksServeBody(cfg: Config, decodeExp: Value -> Option<int>, body: Value, token: Value,
                        expiresAt: Option<int>, now: int)
    requires cfg.retryAttempts > 0 && !TokenExpired(cfg, token, expiresAt, now)
    ensures ServesBody(PageFetch(cfg, decodeExp, "stocks", now), body, token, expiresAt)
  {
    var fetch := PageFetch(cfg, decodeExp, "stocks", now);
    forall w: World, p: nat | w.token == token && w.expiresAt == expiresAt
      ensures w.pending == [] ==> fetch(w, p).0 == Null
      ensures w.pending != [] && w.pending[0] == Response(200, body) ==>
            && fetch(w, p).0 == body && fetch(w, p).1.pending == w.pending[1..]
            && fetch(w, p).1.token == token && fetch(w, p).1.expiresAt == expiresAt
    {
      if w.pending == [] {
        StocksSilentPage(cfg, decodeExp, w, p, now);
      } else if w.pending[0] == Response(200, body) {
        StocksFullPage(cfg, decodeExp, w, body, p, now);
      }
    }
  }

  /** With no page limit, a server that answers every `stocks` request with the same full page
    * makes the loop collect that page once per response: it stops only when the server stops
    * answering. */
  lemma StocksRepeatUnlimited(cfg: Config, decodeExp: Value -> Option<int>, w: World, records: seq<Value>,
                              k: nat, now: int)
    requires cfg.retryAttempts > 0 && 0 < cfg.pageSize <= |records|
    requires !TokenExpired(cfg, w.token, w.expiresAt, now)
    requires w.pending == Copies(Response(200, Obj(map["data" := List(records)])), k)
    ensures var r := AllFrom(cfg, PageFetch(cfg, decodeExp, "stocks", now), w, None, 0, []);
      r.data == Some(Repeat(records, k)) && r.fetched == k + 1
  {
    StocksServeBody(cfg, decodeExp, Obj(map["data" := List(records)]), w.token, w.expiresAt, now);
    SamePageFromStart(cfg, PageFetch(cfg, decodeExp, "stocks", now), w, records, k, None);
  }

  /** With a page limit m, the same server makes the loop return the page m times over. */
  lemma StocksRepeatLimited(cfg: Config, decodeExp: Value -> Option<int>, w: World, records: seq<Value>,
                            k: nat, m: nat, now: int)
    requires cfg.retryAttempts > 0 && 0 < cfg.pageSize <= |records| && 0 < m <= k
    requires !TokenExpired(cfg, w.token, w.expiresAt, now)
    requires w.pending == Copies(Response(200, Obj(map["data" := List(records)])), k)
    ensures AllFrom(cfg, PageFetch(cfg, decodeExp, "stocks", now), w, Some(m), 0, []).data == Some(Repeat(records, m))
  {
    StocksServeBody(cfg, decodeExp, Obj(map["data" := List(records)]), w.token, w.expiresAt, now);
    SamePageFromStart(cfg, PageFetch(cfg, decodeExp, "stocks", now), w, records, k, Some(m));
  }

  /** The two lemmas above from the first page on, with nothing collected yet. */
  lemma SamePageFromStart(cfg: Config, fetch: Fetch, w: World, records: seq<Value>, k: nat, limit: Option<nat>)
    requires Consumes(fetch) && 0 < cfg.pageSize <= |records|
    requires limit.Some? ==> 0 < limit.value <= k
    requires ServesBody(fetch, Obj(map["data" := List(records)]), w.token, w.expiresAt)
    requires w.pending == Copies(Response(200, Obj(map["data" := List(records)])), k)
    ensures var r := AllFrom(cfg, fetch, w, if limit.Some? then Some(limit.value) else None, 0, []);
      && (limit.None? ==> r.data == Some(Repeat(records, k)) && r.fetched == k + 1)
      && (limit.Some? ==> r.data == Some(Repeat(records, limit.value)))
  {
    if limit.Some? {
      SamePageLimited(cfg, fetch, w, records, k, limit.value, 0, []);
      EmptyAppend(Repeat(records, limit.value - 0));
    } else {
      SamePageUnlimited(cfg, fetch, w, records, k, 0, []);
      EmptyAppend(Repeat(records, k));
    }
  }

  /** One `stocks` page with a valid token: the request goes out with no parameters and the
    * response body is returned. */
  lemma StocksFullPage(cfg: Config, decodeExp: Value -> Option<int>, w: World, body: Value, page: nat, now: int)
    requires cfg.retryAttempts > 0 && !TokenExpired(cfg, w.token, w.expiresAt, now)
    requires Next(w.pending) == Response(200, body)
    ensures var url := cfg.baseUrl + EndpointPaths["stocks"];
      PageFetch(cfg, decodeExp, "stocks", now)(w, page) == (body, SendIn(w, Request("GET", url, [], w.token)))
  {
    var url := cfg.baseUrl + EndpointPaths["stocks"];
    assert EndpointParams(cfg, "stocks", page, cfg.pageSize, []) == [];
    RetryFirst200(cfg, decodeExp, w, url, [], now, body);
    assert EndpointSpec(cfg, decodeExp, w, "stocks", page, Some(cfg.pageSize), [], now)
      == (body, SendIn(w, Request("GET", url, [], w.token)));
  }

  /** With nothing left to answer, a `stocks` page comes back empty. */
  lemma StocksSilentPage(cfg: Config, decodeExp: Value -> Option<int>, w: World, page: nat, now: int)
    requires w.pending == [] && !TokenExpired(cfg, w.token, w.expiresAt, now)
    ensures PageFetch(cfg, decodeExp, "stocks", now)(w, page).0 == Null
  {
    RetryGivesUpWhenSilent(cfg, decodeExp, w, cfg.baseUrl + EndpointPaths["stocks"], [], 0, now);
  }

  lemma {:induction false} RepeatFront<T>(xs: seq<T>, k: nat)
    requires k > 0
    ensures Repeat(xs, k) == xs + Repeat(xs, k - 1)
  {
    if k > 1 {
      RepeatFront(xs, k - 1);
    }
  }

  // ---------------------------------------------------------------------------------------------
  // Incremental filter

  /** A parsed ISO 8601 timestamp: without or with a UTC offset (seconds since the epoch). */
  datatype Timestamp = Naive(seconds: int) | Aware(seconds: int)

  /** `s.replace('Z', '+00:00')` */
  function ReplaceZ(s: string): string
  {
    if |s| == 0 then ""
    else ReplaceZ(s[..|s| - 1]) + (if s[|s| - 1] == 'Z' then "+00:00" else [s[|s| - 1]])
  }

  lemma ReplaceZSuffix(s: string)
    ensures ReplaceZ(s + "Z") == ReplaceZ(s) + "+00:00"
  {
    assert (s + "Z")[..|s + "Z"| - 1] == s;
  }

  /** Whether the filter keeps a record; None where `record.get` raises (not a dict). A record
    * is dropped only when `modified_date` is a string that parses to a naive time before the
    * cutoff; an aware time cannot be compared with the naive cutoff and is kept. */
  function Keep(parseIso: string -> Option<Timestamp>, record: Value, cutoff: int): (r: Option<bool>)
    ensures r.None? <==> !record.Obj?
    ensures r == Some(false) <==>
      && record.Obj? && Get(record.fields, "modified_date").Str?
      && var s := Get(record.fields, "modified_date").s;
         s != [] && parseIso(ReplaceZ(s)).Some? && parseIso(ReplaceZ(s)).value.Naive?
         && parseIso(ReplaceZ(s)).value.seconds < cutoff
  {
    if !record.Obj? then None
    else
      var md := Get(record.fields, "modified_date");
      if !Truthy(md) then Some(true)
      else if !md.Str? then Some(true)
      else match parseIso(ReplaceZ(md.s))
        case None => Some(true)
        case Some(Aware(_)) => Some(true)
        case Some(Naive(t)) => Some(t >= cutoff)
  }

  /** A `Z`-suffixed timestamp that the parser reads as UTC-aware is always kept. */
  lemma ZSuffixedKept(parseIso: string -> Option<Timestamp>, record: Value, s: string, cutoff: int)
    requires record.Obj? && Get(record.fields, "modified_date") == Str(s + "Z")
    requires parseIso(ReplaceZ(s) + "+00:00").Some? ==> parseIso(ReplaceZ(s) + "+00:00").value.Aware?
    ensures Keep(parseIso, record, cutoff) == Some(true)
  {
    ReplaceZSuffix(s);
  }

  function FilterSpec(parseIso: string -> Option<Timestamp>, records: seq<Value>, cutoff: int): Option<seq<Value>>
  {
    if |records| == 0 then Some([])
    else
      match FilterSpec(parseIso, records[..|records| - 1], cutoff)
      case None => None
      case Some(kept) =>
        match Keep(parseIso, records[|records| - 1], cutoff)
        case None => None
        case Some(k) => Some(if k then kept + [records[|records| - 1]] else kept)
  }

  /** `datetime.now() - timedelta(hours=lookback_hours)`, with the configured default. */
  function Cutoff(cfg: Config, lookbackHours: Option<int>, now: int): (c: int)
    ensures lookbackHours.None? ==> c == now - cfg.lookbackHours * 3600
    ensures lookbackHours.Some? ==> c == now - lookbackHours.value * 3600
  {
    now - (if lookbackHours.None? then cfg.lookbackHours else lookbackHours.value) * 3600
  }

  /** The filter applied to what the page loop returned: nothing to filter gives `[]`. */
  function Incremental(parseIso: string -> Option<Timestamp>, all: Option<seq<Value>>, cutoff: int): (r: Option<seq<Value>>)
    ensures all.None? ==> r.None?
    ensures all == Some([]) ==> r == Some([])
  {
    match all
    case None => None
    case Some(records) => if records == [] then Some([]) else FilterSpec(parseIso, records, cutoff)
  }

  /** `a` is `b` with some elements left out, order kept. */
  ghost predicate Subsequence<T>(a: seq<T>, b: seq<T>)
    decreases |b|
  {
    if |b| == 0 then a == []
    else
      || Subsequence(a, b[..|b| - 1])
      || (|a| > 0 && a[|a| - 1] == b[|b| - 1] && Subsequence(a[..|a| - 1], b[..|b| - 1]))
  }

  /** The filter keeps an order-preserving subsequence, exactly the records `Keep` accepts. */
  lemma {:induction false} FilterKeepsSubsequence(parseIso: string -> Option<Timestamp>, records: seq<Value>, cutoff: int)
    requires FilterSpec(parseIso, records, cutoff).Some?
    ensures var out := FilterSpec(parseIso, records, cutoff).value;
      && Subsequence(out, records)
      && (forall x :: x in out <==> x in records && Keep(parseIso, x, cutoff) == Some(true))
  {
    if |records| > 0 {
      var init := records[..|records| - 1];
      var last := records[|records| - 1];
      FilterKeepsSubsequence(parseIso, init, cutoff);
      var out := FilterSpec(parseIso, records, cutoff).value;
      if Keep(parseIso, last, cutoff) == Some(true) {
        assert out[..|out| - 1] == FilterSpec(parseIso, init, cutoff).value;
      }
      assert records == init + [last];
    }
  }

  /** A record the filter is given but does not parse as a dict makes the whole call raise. */
  lemma {:induction false} FilterNoneStays(parseIso: string -> Option<Timestamp>, records: seq<Value>, n: nat, cutoff: int)
    requires n <= |records| && FilterSpec(parseIso, records[..n], cutoff).None?
    ensures FilterSpec(parseIso, records, cutoff).None?
  {
    if n < |records| {
      var init := records[..|records| - 1];
      assert init[..n] == records[..n];
      FilterNoneStays(parseIso, init, n, cutoff);
    } else {
      assert records[..n] == records;
    }
  }

  // ---------------------------------------------------------------------------------------------
  // The extractor

  class MisaCrmExtractor {
    const cfg: Config
    /** The JWT decode of the `exp` claim (None when decoding fails or there is no claim). */
    const decodeExp: Value -> Option<int>
    /** `datetime.fromisoformat` */
    const parseIso: string -> Option<Timestamp>
    const net: Network
    var accessToken: Value
    var tokenExpiresAt: Option<int>

    constructor (cfg: Config, decodeExp: Value -> Option<int>, parseIso: string -> Option<Timestamp>, net: Network)
      ensures this.cfg == cfg && this.decodeExp == decodeExp && this.parseIso == parseIso && this.net == net
      ensures accessToken == Null && tokenExpiresAt == None
    {
      this.cfg := cfg;
      this.decodeExp := decodeExp;
      this.parseIso := parseIso;
      this.net := net;
      accessToken := Null;
      tokenExpiresAt := None;
    }

    function Snapshot(): World
      reads this, net
    {
      World(accessToken, tokenExpiresAt, net.pending, net.log)
    }

    function IsTokenExpired(now: int): (expired: bool)
      reads this
      ensures !Truthy(accessToken) || tokenExpiresAt.None? ==> expired
      ensures Truthy(accessToken) && tokenExpiresAt.Some? ==>
        (expired <==> tokenExpiresAt.value - now <= cfg.refreshBuffer)
    {
      TokenExpired(cfg, accessToken, tokenExpiresAt, now)
    }

    /** `get_access_token` */
    method GetAccessToken(force: bool, now: int) returns (token: Value)
      modifies this, net
      ensures (token, Snapshot()) == TokenSpec(cfg, decodeExp, old(Snapshot()), force, now)
    {
      if !force && !IsTokenExpired(now) {
        return accessToken;
      }
      var o := net.Send(TokenRequest(cfg));
      match GrantedToken(o)
      case Some(t) =>
        accessToken := t;
        tokenExpiresAt := Some(DecodeTokenExpiry(decodeExp, t, now));
        return accessToken;
      case None =>
        return Null;
    }

    /** `_make_request_with_retry` */
    method MakeRequestWithRetry(url: string, params: Assoc, now: int) returns (body: Option<Value>)
      modifies this, net
      ensures (body, Snapshot()) == RetryFrom(cfg, decodeExp, old(Snapshot()), url, params, 0, now)
    {
      var attempt: nat := 0;
      while attempt < cfg.retryAttempts
        invariant RetryFrom(cfg, decodeExp, Snapshot(), url, params, attempt, now)
          == RetryFrom(cfg, decodeExp, old(Snapshot()), url, params, 0, now)
        decreases cfg.retryAttempts - attempt
      {
        var done, b := RequestOnce(url, params, attempt, now);
        if done {
          return b;
        }
        attempt := attempt + 1;
      }
      return None;
    }

    /** One pass of the retry loop: fetch the token, then send the request with it. */
    method RequestOnce(url: string, params: Assoc, attempt: nat, now: int) returns (done: bool, body: Option<Value>)
      modifies this, net
      ensures Attempt(cfg, decodeExp, old(Snapshot()), url, params, attempt, now)
        == if done then Done(body, Snapshot()) else Again(Snapshot())
    {
      var token := GetAccessToken(false, now);
      if !Truthy(token) {
        if attempt < cfg.retryAttempts - 1 {
          net.Sleep(cfg.retryDelay * (attempt + 1));
          return false, None;
        }
        return true, None;
      }
      done, body := SendWithToken(url, params, token, attempt, now);
    }

    /** The request of one pass, sent with `token`, and what its answer leads to. */
    method SendWithToken(url: string, params: Assoc, token: Value, attempt: nat, now: int)
      returns (done: bool, body: Option<Value>)
      modifies this, net
      ensures SendAttempt(cfg, decodeExp, old(Snapshot()), url, params, token, attempt, now)
        == if done then Done(body, Snapshot()) else Again(Snapshot())
    {
      var o := net.Send(Request("GET", url, params, token));
      if o.Raised? {
        if attempt < cfg.retryAttempts - 1 {
          net.Sleep(cfg.retryDelay * (attempt + 1));
          return false, None;
        }
        return true, None;
      }
      if o.status == 200 {
        return true, Some(o.body);
      } else if o.status == 401 {
        var _ := GetAccessToken(true, now);
        if attempt < cfg.retryAttempts - 1 {
          net.Sleep(cfg.retryDelay);
        }
        return false, None;
      }
      return true, None;
    }

    /** `extract_endpoint_data` */
    method ExtractEndpointData(endpoint: string, page: int, pageSize: Option<int>, extra: Assoc, now: int)
      returns (result: Value)
      modifies this, net
      ensures (result, Snapshot()) == EndpointSpec(cfg, decodeExp, old(Snapshot()), endpoint, page, pageSize, extra, now)
    {
      if endpoint !in EndpointPaths {
        return Null;
      }
      var size := if pageSize.None? then cfg.pageSize else pageSize.value;
      var url := cfg.baseUrl + EndpointPaths[endpoint];
      var response := MakeRequestWithRetry(url, EndpointParams(cfg, endpoint, page, size, extra), now);
      if response.Some? {
        return response.value;
      }
      return Null;
    }

    /** `extract_all_data_from_endpoint` */
    method ExtractAllDataFromEndpoint(endpoint: string, maxPages: Option<int>, now: int)
      returns (data: Option<seq<Value>>)
      modifies this, net
      ensures var r := AllFrom(cfg, PageFetch(cfg, decodeExp, endpoint, now), old(Snapshot()), maxPages, 0, []);
        data == r.data && Snapshot() == r.world
    {
      var all: seq<Value> := [];
      var page: nat := 0;
      while true
        invariant AllFrom(cfg, PageFetch(cfg, decodeExp, endpoint, now), Snapshot(), maxPages, page, all)
          == AllFrom(cfg, PageFetch(cfg, decodeExp, endpoint, now), old(Snapshot()), maxPages, 0, [])
        decreases |net.pending|
      {
        if Limited(maxPages) && page >= maxPages.value {
          return Some(all);
        }
        ghost var w := Snapshot();
        var result := ExtractEndpointData(endpoint, page, Some(cfg.pageSize), [], now);
        var step := Classify(cfg.pageSize, result, all);
        if step.Stop? {
          return step.data;
        }
        all := all + step.batch;
        page := page + 1;
        net.Sleep(cfg.rateLimitDelay);
        assert |net.pending| < |w.pending|;
      }
    }

    /** `extract_incremental_data`: at most ten pages, filtered on `modified_date` against
      * `now - lookback_hours`. */
    method ExtractIncrementalData(endpoint: string, lookbackHours: Option<int>, now: int)
      returns (records: Option<seq<Value>>)
      modifies this, net
      ensures var r := AllFrom(cfg, PageFetch(cfg, decodeExp, endpoint, now), old(Snapshot()), Some(10), 0, []);
        && Snapshot() == r.world
        && records == Incremental(parseIso, r.data, Cutoff(cfg, lookbackHours, now))
    {
      var all := ExtractAllDataFromEndpoint(endpoint, Some(10), now);
      records := IncrementalFilter(all, Cutoff(cfg, lookbackHours, now));
    }

    /** The tail of `extract_incremental_data`: nothing to filter gives `[]`, otherwise the
      * `modified_date` filter. */
    method IncrementalFilter(all: Option<seq<Value>>, cutoff: int) returns (records: Option<seq<Value>>)
      ensures records == Incremental(parseIso, all, cutoff)
    {
      if all.None? {
        return None;
      }
      if all.value == [] {
        return Some([]);
      }
      records := FilterRecent(all.value, cutoff);
    }

    /** The `modified_date` filter loop of `extract_incremental_data`. */
    method FilterRecent(all: seq<Value>, cutoff: int) returns (records: Option<seq<Value>>)
      ensures records == FilterSpec(parseIso, all, cutoff)
    {
      var filtered: seq<Value> := [];
      var i := 0;
      while i < |all|
        invariant 0 <= i <= |all|
        invariant FilterSpec(parseIso, all[..i], cutoff) == Some(filtered)
      {
        assert all[..i + 1][..i] == all[..i];
        var keep := Keep(parseIso, all[i], cutoff);
        if keep.None? {
          FilterNoneStays(parseIso, all, i + 1, cutoff);
          return None;
        }
        if keep.value {
          filtered := filtered + [all[i]];
        }
        i := i + 1;
      }
      assert all[..i] == all;
      return Some(filtered);
    }
  }
}
