/**
 * api-proxy-secure.php: the hardened production proxy. CORS is restricted to
 * four origins, the five upstream endpoints and three parameters are
 * allowed, every client is rate-limited, and an upstream failure is answered
 * (and cached) with demo data.
 *
 * On an upstream failure makeSecureApiRequest hands getFallbackData's array
 * to processApiResponse, whose processors then `json_decode` it. The model
 * follows PHP 7, where that decode yields null with a warning, so each
 * processor answers with its own fallback data.
 */
module SecureProxy {
  import opened Wrappers
  import opened Weather
  import opened Http
  import Text
  import Normalize
  import Params
  import Store

  const AllowedOrigins: seq<string> := [
    "https://tropicstracker.net", "https://www.tropicstracker.net",
    "http://localhost:8000", "http://127.0.0.1:8000"]

  /** The Access-Control-Allow-Origin value: the origin when listed, else the literal `null`. */
  function AllowOrigin(origin: Option<string>): (r: string)
    ensures r == origin.GetOr("") <==> origin.GetOr("") in AllowedOrigins || origin.GetOr("") == "null"
    ensures r != "null" ==> r in AllowedOrigins
  {
    var o := origin.GetOr("");
    if o in AllowedOrigins then o else "null"
  }

  /** `$VALID_ENDPOINTS`. */
  const Endpoints: seq<Endpoint> := [NhcStorms, NhcSample, NwsAlerts, Hurdat2, WeatherApi]

  const AllowedParams: seq<string> := ["q", "area", "year"]

  /** validateEndpoint: a missing or `empty()` name, or one not in the list, is a 400. */
  function ValidateEndpoint(name: Option<string>): (r: Result<Endpoint, Body>)
    ensures (name.None? || Text.PhpEmpty(name.value)) ==> r == Err(ErrorWithCode("Missing endpoint parameter", 400))
    ensures r.Ok? ==> name == Some(r.value.Name()) && r.value.IsUpstream()
    ensures name.Some? && !Text.PhpEmpty(name.value) ==>
      (r.Ok? || r == Err(ErrorWithCode("Invalid endpoint", 400)))
  {
    var n := name.GetOr("");
    if Text.PhpEmpty(n) then Err(ErrorWithCode("Missing endpoint parameter", 400))
    else match Named(n, Endpoints)
      case Some(e) => Ok(e)
      case None => Err(ErrorWithCode("Invalid endpoint", 400))
  }

  /** The accepted endpoints are exactly the five upstream ones. */
  lemma AcceptsExactlyUpstream(e: Endpoint)
    ensures ValidateEndpoint(Some(e.Name())).Ok? <==> e.IsUpstream()
    ensures e.IsUpstream() ==> ValidateEndpoint(Some(e.Name())) == Ok(e)
  {
    if e.IsUpstream() {
      NamedComplete(e.Name(), Endpoints, e);
    }
  }

  /** `!getenv('WEATHERAPI_KEY')`: unset, empty or "0". */
  predicate KeyFalsy(key: Option<string>) {
    key.None? || Text.PhpEmpty(key.value)
  }

  const Unavailable: Body := ErrorWithCode("Service temporarily unavailable", 503)

  /**
   * buildSecureApiUrl: the endpoint's URL, with `key` and `q` for a weatherapi
   * city and `area` for NWS alerts; a weatherapi city without a key aborts
   * with a 503.
   */
  function BuildSecureApiUrl(e: Endpoint, params: Query, key: Option<string>): (r: Result<Url, Body>)
    ensures r.Err? <==> e == WeatherApi && HasValue(params, "q") && KeyFalsy(key)
    ensures r.Err? ==> r.error == Unavailable
    ensures r.Ok? ==> r.value.base == e.BaseUrl()
    ensures r.Ok? && e == WeatherApi && HasValue(params, "q") ==>
      key.Some? && r.value.query == [("key", key.value), ("q", Get(params, "q").value)]
    ensures r.Ok? && e == NwsAlerts && HasValue(params, "area") ==> r.value.query == [("area", Get(params, "area").value)]
    ensures r.Ok? && !(e == WeatherApi && HasValue(params, "q")) && !(e == NwsAlerts && HasValue(params, "area")) ==>
      r.value.query == []
  {
    if e == WeatherApi && HasValue(params, "q") then
      if KeyFalsy(key) then Err(Unavailable)
      else Ok(Url(e.BaseUrl(), [("key", key.value), ("q", Get(params, "q").value)]))
    else if e == NwsAlerts && HasValue(params, "area") then
      Ok(Url(e.BaseUrl(), [("area", Get(params, "area").value)]))
    else Ok(Url(e.BaseUrl(), []))
  }

  /** makeSecureApiRequest's result: the body of a 200 reply; None where it returns the fallback instead. */
  function Received(reply: Fetch): (r: Option<Payload>)
    ensures r.Some? <==> reply.Reply? && reply.status == 200
  {
    if reply.Reply? && reply.status == 200 then Some(reply.payload) else None
  }

  /** The demo storm of getFallbackData. */
  function DemoStorm(now: nat): Storm {
    Storm("demo-storm-1", "Demo Hurricane", Atlantic, Cat2, 105.0, 970.0, Coord(25.0, -75.0), 15.0, "NW",
          At(now), [Coord(25.0, -75.0), Coord(26.0, -76.0)])
  }

  /** The demo storm agrees with the classifier and the three-box basin lookup. */
  lemma DemoStormConsistent(now: nat)
    ensures DemoStorm(now).classification == Classify(DemoStorm(now).windSpeed)
    ensures DemoStorm(now).basin == DetermineBasin3(DemoStorm(now).coordinates.lat, DemoStorm(now).coordinates.lon)
  {
  }

  const DemoAlertId: string := "demo-alert-1"

  /** getFallbackData: one demo storm, one status alert, and an error for every other endpoint. */
  function FallbackData(e: Endpoint, now: nat): (r: Body)
    ensures (e == NhcStorms || e == NhcSample) ==>
      r.Storms? && |r.storms| == 1 && r.storms[0].classification == Classify(r.storms[0].windSpeed)
    ensures e == NwsAlerts ==> r.Alerts? && |r.alerts| == 1 && r.alerts[0].expires == At(now + DaySeconds)
    ensures r.Failure? <==> !(e == NhcStorms || e == NhcSample || e == NwsAlerts)
  {
    match e
    case NhcStorms => Storms([DemoStorm(now)])
    case NhcSample => Storms([DemoStorm(now)])
    case NwsAlerts => Alerts([Alert(DemoAlertId, "System Operating Normally", "No active weather alerts at this time.",
        "Minor", "Future", "All Areas", At(now), At(now + DaySeconds))])
    case _ => Error("Service temporarily unavailable")
  }

  /** What processNHCStorms answers: the fallback for a falsy document, else one hardened storm per entry. */
  function NhcStormsBody(doc: Option<StormDoc>, now: nat, sanitize: string -> string): Body {
    if StormDocFalsy(doc) then FallbackData(NhcStorms, now)
    else Storms(Normalize.Mapped(Normalize.StormsOrEmpty(doc.value), s => Normalize.HardenedStorm(s, now, sanitize)))
  }

  /** processNHCStorms. */
  method ProcessNHCStorms(doc: Option<StormDoc>, now: nat, sanitize: string -> string) returns (body: Body)
    ensures body == NhcStormsBody(doc, now, sanitize)
    ensures StormDocFalsy(doc) ==> body == Storms([DemoStorm(now)])
    ensures !StormDocFalsy(doc) ==>
      var raw := Normalize.StormsOrEmpty(doc.value);
      body.Storms? && |body.storms| == |raw| &&
      forall i :: 0 <= i < |raw| ==> body.storms[i] == Normalize.HardenedStorm(raw[i], now, sanitize)
  {
    if StormDocFalsy(doc) {
      return FallbackData(NhcStorms, now);
    }
    var storms := Normalize.MapEach(Normalize.StormsOrEmpty(doc.value), s => Normalize.HardenedStorm(s, now, sanitize));
    return Storms(storms);
  }

  /** What processNWSAlerts answers: the demo alert when `features` is unset, else one alert per feature. */
  function NwsAlertsBody(doc: Option<AlertDoc>, now: nat, sanitize: string -> string): Body {
    if doc.None? || doc.value.features.None? then FallbackData(NwsAlerts, now)
    else Alerts(Normalize.Mapped(doc.value.features.value, f => Normalize.HardenedAlert(f, now, sanitize)))
  }

  /** processNWSAlerts. */
  method ProcessNWSAlerts(doc: Option<AlertDoc>, now: nat, sanitize: string -> string) returns (body: Body)
    ensures body == NwsAlertsBody(doc, now, sanitize)
    ensures (doc.None? || doc.value.features.None?) ==>
      body.Alerts? && |body.alerts| == 1 && body.alerts[0].id == DemoAlertId
    ensures doc.Some? && doc.value.features.Some? ==>
      var fs := doc.value.features.value;
      body.Alerts? && |body.alerts| == |fs| &&
      forall i :: 0 <= i < |fs| ==> body.alerts[i] == Normalize.HardenedAlert(fs[i], now, sanitize)
  {
    if doc.None? || doc.value.features.None? {
      return FallbackData(NwsAlerts, now);
    }
    var alerts := Normalize.MapEach(doc.value.features.value, f => Normalize.HardenedAlert(f, now, sanitize));
    return Alerts(alerts);
  }

  /**
   * What processApiResponse answers for the upstream body, or for the
   * fallback array handed over instead of one (None).
   */
  function Processed(e: Endpoint, response: Option<Payload>, now: nat, sanitize: string -> string): Body {
    match e
    case NhcStorms => NhcStormsBody(if response.Some? then response.value.storms else None, now, sanitize)
    case NhcSample => NhcStormsBody(if response.Some? then response.value.storms else None, now, sanitize)
    case NwsAlerts => NwsAlertsBody(if response.Some? then response.value.alerts else None, now, sanitize)
    case _ => if response.Some? && response.value.json.Some? then Document(response.value.json.value) else FallbackData(e, now)
  }

  /** processApiResponse, with processWeatherAPI and the default `json_decode(...) ?: fallback` branch. */
  method ProcessApiResponse(e: Endpoint, response: Option<Payload>, now: nat, sanitize: string -> string) returns (body: Body)
    ensures body == Processed(e, response, now, sanitize)
  {
    match e {
      case NhcStorms =>
        body := ProcessNHCStorms(if response.Some? then response.value.storms else None, now, sanitize);
      case NhcSample =>
        body := ProcessNHCStorms(if response.Some? then response.value.storms else None, now, sanitize);
      case NwsAlerts =>
        body := ProcessNWSAlerts(if response.Some? then response.value.alerts else None, now, sanitize);
      case _ =>
        body := if response.Some? && response.value.json.Some? then Document(response.value.json.value) else FallbackData(e, now);
    }
  }

  /** A failed upstream call is answered with the endpoint's own fallback data, whichever processor reads it. */
  lemma FailureFallsBack(e: Endpoint, now: nat, sanitize: string -> string)
    ensures Processed(e, None, now, sanitize) == FallbackData(e, now)
  {
  }

  /** HURDAT2 text goes through the default branch: unless it decodes as JSON, the answer is the fallback error. */
  lemma HurdatIsNotParsed(p: Payload, now: nat, sanitize: string -> string)
    requires p.json.None?
    ensures Processed(Hurdat2, Some(p), now, sanitize) == Error("Service temporarily unavailable")
  {
  }

  // ---------------------------------------------------------------------
  // One request, start to finish.

  datatype Outcome = Outcome(response: Response, files: map<Store.FileName, Store.File>, sent: Option<Upstream>)

  const MethodNotAllowed: Body := Error("Method not allowed")
  const RateLimited: Body := Failure("Rate limit exceeded", None, Some(Store.RateWindow), Some(Store.RateLimit))

  /** What a cache miss comes to: the processed answer and the request made for it, or a 503 abort. */
  datatype Missed = Answered(body: Body, sent: Option<Upstream>) | Aborted(body: Body)

  /** The miss of one request: `reply` is what the upstream service answers if it is called. */
  function Fetched(e: Endpoint, params: Query, key: Option<string>, now: nat, reply: Fetch, sanitize: string -> string): Missed {
    match BuildSecureApiUrl(e, params, key)
    case Err(b) => Aborted(b)
    case Ok(url) => Answered(Processed(e, Received(reply), now, sanitize), Some(Upstream(url, ApiHeaders(e))))
  }

  type MissHandler = (Endpoint, Query) -> Missed

  function OnMiss(key: Option<string>, now: nat, reply: Fetch, sanitize: string -> string): MissHandler {
    (e, params) => Fetched(e, params, key, now, reply, sanitize)
  }

  /** The script, for any miss handler; `sweep` is the one-in-a-thousand draw of `rand(1, 1000)`. */
  function Serve(files: map<Store.FileName, Store.File>, req: Request, now: nat, sweep: bool,
                 sanitize: string -> string, miss: MissHandler): Outcome
  {
    if req.verb == "OPTIONS" then Outcome(Response(204, Empty, NoCacheHeader), files, None)
    else if req.verb != "GET" then Outcome(Response(405, MethodNotAllowed, NoCacheHeader), files, None)
    else match ValidateEndpoint(Get(req.query, "endpoint"))
      case Err(b) => Outcome(Response(400, b, NoCacheHeader), files, None)
      case Ok(e) => ServeEndpoint(files, e, req, now, sweep, sanitize, miss)
  }

  /** For a valid endpoint: parameter validation, the rate check, then the cache. */
  function ServeEndpoint(files: map<Store.FileName, Store.File>, e: Endpoint, req: Request, now: nat,
                         sweep: bool, sanitize: string -> string, miss: MissHandler): Outcome
  {
    var params := Params.Validated(req.query, Some(AllowedParams), sanitize);
    var d := Store.WindowDecision(Store.RateOf(files, req.client), now, Store.RateLimit, Store.RateWindow);
    if d.Deny? then Outcome(Response(429, RateLimited, NoCacheHeader), files, None)
    else ServeCached(files[Store.RateFile(req.client) := Store.File(Store.Rate(d.record), now)],
                     Store.CacheKey(e.Name(), params), now, sweep, miss(e, params))
  }

  /** A fresh cache file answers; otherwise the miss is answered and, unless it aborted, cached. */
  function ServeCached(files: map<Store.FileName, Store.File>, key: Store.CacheKey, now: nat, sweep: bool,
                       fetched: Missed): Outcome
  {
    var n := Store.CacheFile(key);
    if n in files && Store.Fresh(files[n], now, Store.CacheExpiry) then
      Outcome(Response(200, Store.BodyOf(files[n]), Hit(Some(now - files[n].mtime))), files, None)
    else match fetched
      case Aborted(b) => Outcome(Response(503, b, Miss), files, None)
      case Answered(b, sent) =>
        var cached := (files - {Store.TempFile(key)})[n := Store.File(Store.Cached(b), now)];
        Outcome(Response(200, b, Miss), if sweep then Store.Swept(cached, now, Store.SweepAge) else cached, sent)
  }

  /** The request handler, changing the cache directory in place. */
  method Handle(dir: Store.Directory, req: Request, key: Option<string>, now: nat, reply: Fetch, sweep: bool,
                sanitize: string -> string)
    returns (resp: Response, sent: Option<Upstream>)
    modifies dir
    ensures Outcome(resp, dir.files, sent) == Serve(old(dir.files), req, now, sweep, sanitize, OnMiss(key, now, reply, sanitize))
  {
    if req.verb == "OPTIONS" {
      return Response(204, Empty, NoCacheHeader), None;
    }
    if req.verb != "GET" {
      return Response(405, MethodNotAllowed, NoCacheHeader), None;
    }
    var valid := ValidateEndpoint(Get(req.query, "endpoint"));
    if valid.Err? {
      return Response(400, valid.error, NoCacheHeader), None;
    }
    resp, sent := HandleEndpoint(dir, valid.value, req, key, now, reply, sweep, sanitize);
  }

  method HandleEndpoint(dir: Store.Directory, e: Endpoint, req: Request, key: Option<string>, now: nat, reply: Fetch,
                        sweep: bool, sanitize: string -> string)
    returns (resp: Response, sent: Option<Upstream>)
    modifies dir
    ensures Outcome(resp, dir.files, sent) == ServeEndpoint(old(dir.files), e, req, now, sweep, sanitize, OnMiss(key, now, reply, sanitize))
  {
    var params := Params.ValidateParams(req.query, Some(AllowedParams), sanitize);
    var allowed := dir.CheckRateLimit(req.client, Store.RateLimit, Store.RateWindow, now);
    if !allowed {
      return Response(429, RateLimited, NoCacheHeader), None;
    }
    resp, sent := HandleCached(dir, e, params, key, now, reply, sweep, sanitize);
  }

  method HandleCached(dir: Store.Directory, e: Endpoint, params: Query, key: Option<string>, now: nat, reply: Fetch,
                      sweep: bool, sanitize: string -> string)
    returns (resp: Response, sent: Option<Upstream>)
    modifies dir
    ensures Outcome(resp, dir.files, sent) ==
      ServeCached(old(dir.files), Store.CacheKey(e.Name(), params), now, sweep, Fetched(e, params, key, now, reply, sanitize))
  {
    var cacheKey := Store.CacheKey(e.Name(), params);
    var hit := dir.Lookup(cacheKey, now, Store.CacheExpiry);
    if hit.Some? {
      return Response(200, Store.BodyOf(hit.value), Hit(Some(now - hit.value.mtime))), None;
    }
    var fetched := FetchBody(e, params, key, now, reply, sanitize);
    resp, sent := Answer(dir, cacheKey, now, sweep, fetched);
  }

  /** The end of a miss: an abort answers 503; an answer is cached, then maybe swept. */
  method Answer(dir: Store.Directory, cacheKey: Store.CacheKey, now: nat, sweep: bool, fetched: Missed)
    returns (resp: Response, sent: Option<Upstream>)
    requires !(Store.CacheFile(cacheKey) in dir.files && Store.Fresh(dir.files[Store.CacheFile(cacheKey)], now, Store.CacheExpiry))
    modifies dir
    ensures Outcome(resp, dir.files, sent) == ServeCached(old(dir.files), cacheKey, now, sweep, fetched)
  {
    if fetched.Aborted? {
      return Response(503, fetched.body, Miss), None;
    }
    dir.CacheResponse(cacheKey, fetched.body, now);
    if sweep {
      dir.Sweep(now, Store.SweepAge);
    }
    resp, sent := Response(200, fetched.body, Miss), fetched.sent;
  }

  /** A cache miss: build the URL (or abort), call upstream and process what comes back. */
  method FetchBody(e: Endpoint, params: Query, key: Option<string>, now: nat, reply: Fetch, sanitize: string -> string)
    returns (fetched: Missed)
    ensures fetched == Fetched(e, params, key, now, reply, sanitize)
  {
    var url := BuildSecureApiUrl(e, params, key);
    if url.Err? {
      return Aborted(url.error);
    }
    var body := ProcessApiResponse(e, Received(reply), now, sanitize);
    fetched := Answered(body, Some(Upstream(url.value, ApiHeaders(e))));
  }

  // ---------------------------------------------------------------------
  // Properties of a request.

  function KeyOf(e: Endpoint, req: Request, sanitize: string -> string): (k: Store.CacheKey)
    ensures k.endpoint == e.Name()
    ensures forall p :: p in k.params ==> p.0 in AllowedParams && !Text.PhpEmpty(p.1) && |p.1| <= Params.MaxLength
  {
    Params.ValidatedShape(req.query, Some(AllowedParams), sanitize);
    Store.CacheKey(e.Name(), Params.Validated(req.query, Some(AllowedParams), sanitize))
  }

  /** After the rate check: the directory stays consistent and an answered miss is cached. */
  lemma CachedStage(files: map<Store.FileName, Store.File>, key: Store.CacheKey, now: nat, sweep: bool, fetched: Missed)
    requires Store.Consistent(files)
    ensures var o := ServeCached(files, key, now, sweep, fetched);
      var n := Store.CacheFile(key);
      Store.Consistent(o.files) &&
      (o.response.cache == Miss && o.response.status == 200 ==>
        n in o.files && o.files[n] == Store.File(Store.Cached(o.response.body), now)) &&
      (o.response.status != 200 ==> o.files == files)
  {
    var n := Store.CacheFile(key);
    if !(n in files && Store.Fresh(files[n], now, Store.CacheExpiry)) && fetched.Answered? {
      var cached := (files - {Store.TempFile(key)})[n := Store.File(Store.Cached(fetched.body), now)];
      assert Store.Consistent(cached);
      assert n in Store.Swept(cached, now, Store.SweepAge);
    }
  }

  /** The same from the rate check on. */
  lemma EndpointStage(files: map<Store.FileName, Store.File>, e: Endpoint, req: Request, now: nat,
                      sweep: bool, sanitize: string -> string, miss: MissHandler)
    requires Store.Consistent(files)
    ensures var o := ServeEndpoint(files, e, req, now, sweep, sanitize, miss);
      var n := Store.CacheFile(KeyOf(e, req, sanitize));
      Store.Consistent(o.files) &&
      (o.response.cache == Miss && o.response.status == 200 ==>
        n in o.files && o.files[n] == Store.File(Store.Cached(o.response.body), now))
  {
    var params := Params.Validated(req.query, Some(AllowedParams), sanitize);
    var d := Store.WindowDecision(Store.RateOf(files, req.client), now, Store.RateLimit, Store.RateWindow);
    if d.Allow? {
      var admitted := files[Store.RateFile(req.client) := Store.File(Store.Rate(d.record), now)];
      assert Store.Consistent(admitted);
      CachedStage(admitted, Store.CacheKey(e.Name(), params), now, sweep, miss(e, params));
    }
  }

  /** Every request leaves rate files holding rate records and cache files holding bodies. */
  lemma ServeConsistent(files: map<Store.FileName, Store.File>, req: Request, now: nat, sweep: bool,
                        sanitize: string -> string, miss: MissHandler)
    requires Store.Consistent(files)
    ensures Store.Consistent(Serve(files, req, now, sweep, sanitize, miss).files)
  {
    if req.verb == "GET" && ValidateEndpoint(Get(req.query, "endpoint")).Ok? {
      EndpointStage(files, ValidateEndpoint(Get(req.query, "endpoint")).value, req, now, sweep, sanitize, miss);
    }
  }

  /**
   * A preflight, another method or a bad endpoint is answered before the
   * rate check: nothing is written and nothing sent; only the endpoint
   * errors carry a `code` field.
   */
  lemma RejectedUntouched(files: map<Store.FileName, Store.File>, req: Request, now: nat, sweep: bool,
                          sanitize: string -> string, miss: MissHandler)
    requires req.verb != "GET" || ValidateEndpoint(Get(req.query, "endpoint")).Err?
    ensures var o := Serve(files, req, now, sweep, sanitize, miss);
      o.files == files && o.sent.None? &&
      o.response.status == (if req.verb == "OPTIONS" then 204 else if req.verb != "GET" then 405 else 400) &&
      (o.response.status == 405 ==> o.response.body == Failure("Method not allowed", None, None, None)) &&
      (o.response.status == 400 ==> o.response.body.Failure? && o.response.body.code == Some(400))
  {
  }

  /** A denied client gets 429 with `retry_after` and `limit` and no `code`, and nothing is written. */
  lemma DeniedUntouched(files: map<Store.FileName, Store.File>, e: Endpoint, req: Request, now: nat,
                        sweep: bool, sanitize: string -> string, miss: MissHandler)
    requires Store.WindowDecision(Store.RateOf(files, req.client), now, Store.RateLimit, Store.RateWindow).Deny?
    ensures var o := ServeEndpoint(files, e, req, now, sweep, sanitize, miss);
      o == Outcome(Response(429, Failure("Rate limit exceeded", None, Some(60), Some(60)), NoCacheHeader), files, None)
  {
  }

  /** A fresh cache file is served as it is to an admitted client, with no upstream call. */
  lemma FreshIsHit(files: map<Store.FileName, Store.File>, e: Endpoint, req: Request, now: nat,
                   sweep: bool, sanitize: string -> string, miss: MissHandler)
    requires var n := Store.CacheFile(KeyOf(e, req, sanitize));
      n in files && Store.Fresh(files[n], now, Store.CacheExpiry)
    ensures var o := ServeEndpoint(files, e, req, now, sweep, sanitize, miss);
      var f := files[Store.CacheFile(KeyOf(e, req, sanitize))];
      o.response.status == 429 ||
      (o.response == Response(200, Store.BodyOf(f), Hit(Some(now - f.mtime))) && o.sent.None?)
  {
  }

  /**
   * What a miss produces: a weatherapi city with no key aborts with 503
   * before any call; every call goes to the endpoint's base URL with its
   * headers.
   */
  lemma MissCases(e: Endpoint, params: Query, key: Option<string>, now: nat, reply: Fetch, sanitize: string -> string)
    ensures var f := Fetched(e, params, key, now, reply, sanitize);
      (f.Aborted? <==> e == WeatherApi && HasValue(params, "q") && KeyFalsy(key)) &&
      (f.Aborted? ==> f == Aborted(ErrorWithCode("Service temporarily unavailable", 503))) &&
      (f.Answered? ==> f.sent.Some? && f.sent.value.url.base == e.BaseUrl() && f.sent.value.headers == ApiHeaders(e))
  {
  }

  /** A failed call (transport error or any status but 200) is answered with the endpoint's fallback data. */
  lemma FailedCallFallsBack(e: Endpoint, params: Query, key: Option<string>, now: nat, reply: Fetch,
                            sanitize: string -> string)
    requires !(reply.Reply? && reply.status == 200)
    ensures var f := Fetched(e, params, key, now, reply, sanitize);
      f.Answered? ==> f.body == FallbackData(e, now)
  {
    FailureFallsBack(e, now, sanitize);
  }

  /**
   * A weatherapi city with no key costs the client a rate slot but caches
   * nothing: the 503 leaves only the new rate record behind.
   */
  lemma MissingKeyAborts(files: map<Store.FileName, Store.File>, req: Request, key: Option<string>, now: nat,
                         reply: Fetch, sweep: bool, sanitize: string -> string)
    requires HasValue(Params.Validated(req.query, Some(AllowedParams), sanitize), "q") && KeyFalsy(key)
    requires var n := Store.CacheFile(KeyOf(WeatherApi, req, sanitize)); !(n in files && Store.Fresh(files[n], now, Store.CacheExpiry))
    ensures var o := ServeEndpoint(files, WeatherApi, req, now, sweep, sanitize, OnMiss(key, now, reply, sanitize));
      var d := Store.WindowDecision(Store.RateOf(files, req.client), now, Store.RateLimit, Store.RateWindow);
      o.sent.None? &&
      (d.Deny? ==> o.response.status == 429 && o.files == files) &&
      (d.Allow? ==> o.response == Response(503, Unavailable, Miss) &&
                    o.files == files[Store.RateFile(req.client) := Store.File(Store.Rate(d.record), now)])
  {
    var params := Params.Validated(req.query, Some(AllowedParams), sanitize);
    assert Fetched(WeatherApi, params, key, now, reply, sanitize) == Aborted(Unavailable);
  }
}
