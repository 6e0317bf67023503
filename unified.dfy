/**
 * api-proxy-unified.php: the proxy that adapts to its environment. In
 * development it allows every origin, skips the rate check and the parameter
 * allow-list; in production it restricts CORS to three origins, rate-limits
 * each client and keeps only six parameters. It also answers five imagery
 * endpoints with a descriptor instead of an upstream call.
 */
module UnifiedProxy {
  import opened Wrappers
  import opened Weather
  import opened Http
  import Text
  import Hurdat
  import Normalize
  import Params
  import Store

  /** The process environment the proxy reads with `getenv`; None when unset. */
  datatype Env = Env(appEnv: Option<string>, debug: Option<string>, corsOrigin: Option<string>, weatherKey: Option<string>)

  const DevHosts: seq<string> := ["localhost", "127.0.0.1", "localhost:8000", "127.0.0.1:8000"]

  /** `preg_match('/\.local$/', $host)`: `$` also matches before a final newline. */
  predicate EndsInLocal(h: string) {
    (|h| >= 6 && h[|h| - 6..] == ".local") || (|h| >= 7 && h[|h| - 7..] == ".local\n")
  }

  /** Environment detection. */
  predicate IsDevelopment(host: Option<string>, env: Env) {
    var h := host.GetOr("");
    h in DevHosts || EndsInLocal(h) || env.appEnv == Some("development") || env.debug == Some("true")
  }

  const SiteOrigin: string := "https://tropicstracker.net"

  /** The production origin list; the third entry is `getenv('CORS_ORIGIN') ?: ...`. */
  function CorsOrigins(env: Env): seq<string> {
    var extra := if env.corsOrigin.Some? && !Text.PhpEmpty(env.corsOrigin.value) then env.corsOrigin.value else SiteOrigin;
    [SiteOrigin, "https://www.tropicstracker.net", extra]
  }

  /** The Access-Control-Allow-Origin value. */
  function AllowOrigin(dev: bool, origin: Option<string>, env: Env): (r: string)
    ensures dev ==> r == "*"
    ensures !dev && origin.GetOr("") in CorsOrigins(env) ==> r == origin.GetOr("")
    ensures !dev && origin.GetOr("") !in CorsOrigins(env) ==> r == "null"
  {
    if dev then "*"
    else
      var o := origin.GetOr("");
      if o in CorsOrigins(env) then o else "null"
  }

  /** The ten endpoints the unified proxy accepts. */
  const Endpoints: seq<Endpoint> := [
    NhcStorms, NhcSample, NwsAlerts, Hurdat2, WeatherApi,
    GoesSatellite, NexradRadar, WindData, PressureData, SeaTempData]

  const AllowedParams: seq<string> := ["q", "area", "year", "bounds", "zoom", "timestamp"]

  /** validateEndpoint: a missing or `empty()` name, or an unknown one, is a 400. */
  function ValidateEndpoint(name: Option<string>): (r: Result<Endpoint, Body>)
    ensures (name.None? || Text.PhpEmpty(name.value)) ==> r == Err(ErrorWithCode("Missing endpoint parameter", 400))
    ensures r.Ok? ==> name == Some(r.value.Name())
    ensures name.Some? && !Text.PhpEmpty(name.value) ==>
      (r.Ok? || r == Err(ErrorWithCode("Invalid endpoint", 400)))
  {
    var n := name.GetOr("");
    if Text.PhpEmpty(n) then Err(ErrorWithCode("Missing endpoint parameter", 400))
    else match Named(n, Endpoints)
      case Some(e) => Ok(e)
      case None => Err(ErrorWithCode("Invalid endpoint", 400))
  }

  /** Every one of the ten endpoint names is accepted as that endpoint. */
  lemma AcceptsEveryEndpoint(e: Endpoint)
    ensures ValidateEndpoint(Some(e.Name())) == Ok(e)
  {
    NamedComplete(e.Name(), Endpoints, e);
  }

  /** Strict validation (production) uses the six-name list; development keeps every name. */
  function AllowList(dev: bool): Option<seq<string>> {
    if dev then None else Some(AllowedParams)
  }

  /** parseBounds: four comma-separated parts become corners, anything else the whole globe. */
  function ParseBounds(s: string): (b: Bounds)
    ensures Text.PhpEmpty(s) ==> b == GlobalBounds
    ensures b.Corners? <==> !Text.PhpEmpty(s) && |Text.Split(s, ',')| == 4
    ensures b.Corners? ==> [b.south, b.west, b.north, b.east] == Text.Split(s, ',')
  {
    if Text.PhpEmpty(s) then GlobalBounds
    else
      var parts := Text.Split(s, ',');
      if |parts| == 4 then Corners(parts[0], parts[1], parts[2], parts[3]) else GlobalBounds
  }

  /** Four coordinates joined with commas, as the browser client sends them, parse back to themselves. */
  lemma ParseJoinedBounds(south: string, west: string, north: string, east: string)
    requires ',' !in south && ',' !in west && ',' !in north && ',' !in east
    ensures ParseBounds(Text.Join([south, west, north, east], ',')) == Corners(south, west, north, east)
  {
    var parts := [south, west, north, east];
    Text.SplitJoin(parts, ',');
    var s := Text.Join(parts, ',');
    assert s == south + [','] + Text.Join(parts[1..], ',');
    assert ',' in s;
  }

  /** The kind of layer each imagery endpoint describes. */
  function KindOf(e: Endpoint): LayerKind
    requires !e.IsUpstream()
  {
    match e
    case GoesSatellite => Tile
    case NexradRadar => Tile
    case WindData => Vector
    case PressureData => Contour
    case SeaTempData => Heatmap
  }

  /** What buildApiUrl yields: an upstream URL, null (fall back), or an imagery descriptor. */
  datatype Target = Call(url: Url) | NoCall | Describe(descriptor: Descriptor)

  const KeyPlaceholder: string := "your_weatherapi_key_here"

  /** `!$key || $key === 'your_weatherapi_key_here'`. */
  predicate KeyMissing(key: Option<string>) {
    key.None? || Text.PhpEmpty(key.value) || key.value == KeyPlaceholder
  }

  /** buildApiUrl, with the imagery descriptors of buildWeatherImageryResponse/buildWeatherDataResponse. */
  function BuildApiUrl(e: Endpoint, params: Query, key: Option<string>, now: nat): Target
  {
    var base := e.BaseUrl();
    if e == WeatherApi && HasValue(params, "q") then
      if KeyMissing(key) then NoCall
      else Call(Url(base, [("key", key.value), ("q", Get(params, "q").value)]))
    else if e == NwsAlerts && HasValue(params, "area") then
      Call(Url(base, [("area", Get(params, "area").value)]))
    else if !e.IsUpstream() then
      Describe(Descriptor(e, KindOf(e), ParseBounds(Get(params, "bounds").GetOr("")), At(now), false))
    else Call(Url(base, []))
  }

  /**
   * What buildApiUrl decides: imagery endpoints get a descriptor; weatherapi
   * with a city but no usable key gets null; every other call gets the
   * endpoint's base URL with `key`/`q` or `area` appended only when given.
   */
  lemma BuildApiUrlCases(e: Endpoint, params: Query, key: Option<string>, now: nat)
    ensures var t := BuildApiUrl(e, params, key, now);
      (t.Describe? <==> !e.IsUpstream()) &&
      (t.NoCall? <==> e == WeatherApi && HasValue(params, "q") && KeyMissing(key)) &&
      (t.Call? ==> t.url.base == e.BaseUrl()) &&
      (t.Call? && e == WeatherApi && HasValue(params, "q") ==>
        key.Some? && t.url.query == [("key", key.value), ("q", Get(params, "q").value)]) &&
      (t.Call? && e == NwsAlerts && HasValue(params, "area") ==>
        t.url.query == [("area", Get(params, "area").value)]) &&
      (t.Call? && !(e == WeatherApi && HasValue(params, "q")) && !(e == NwsAlerts && HasValue(params, "area")) ==>
        t.url.query == []) &&
      (t.Describe? ==> t.descriptor.bounds == ParseBounds(Get(params, "bounds").GetOr("")) && !t.descriptor.fallback)
  {
  }

  /** makeApiRequest's result: the body of a 200 reply, or null on a transport error or any other status. */
  function Received(reply: Fetch): (r: Option<Payload>)
    ensures r.Some? <==> reply.Reply? && reply.status == 200
  {
    if reply.Reply? && reply.status == 200 then Some(reply.payload) else None
  }

  /** The demo storm of getFallbackData. */
  function DemoStorm(now: nat): Storm {
    Storm("demo-storm-1", "Demo Hurricane Alpha", Atlantic, Cat2, 105.0, 970.0, Coord(25.0, -75.0), 15.0, "NW",
          At(now), [Coord(25.0, -75.0), Coord(26.0, -76.0)])
  }

  /**
   * getFallbackData: one demo storm, one status alert, an error for the data
   * services, and a global fallback descriptor for every imagery layer.
   */
  function FallbackData(e: Endpoint, now: nat): (r: Body)
    ensures (e == NhcStorms || e == NhcSample) ==>
      r.Storms? && |r.storms| == 1 && r.storms[0].classification == Classify(r.storms[0].windSpeed)
    ensures e == NwsAlerts ==> r.Alerts? && |r.alerts| == 1 && r.alerts[0].expires == At(now + DaySeconds)
    ensures r.Failure? <==> e == Hurdat2 || e == WeatherApi
    ensures !e.IsUpstream() ==> r.Imagery? && r.descriptor.fallback && r.descriptor.bounds == GlobalBounds
  {
    match e
    case NhcStorms => Storms([DemoStorm(now)])
    case NhcSample => Storms([DemoStorm(now)])
    case NwsAlerts => Alerts([Alert("demo-alert-1", "System Operating Normally",
        "No active weather alerts at this time. System functioning properly.",
        "Minor", "Future", "All Areas", At(now), At(now + DaySeconds))])
    case Hurdat2 => Error("Service temporarily unavailable")
    case WeatherApi => Error("Service temporarily unavailable")
    case _ => Imagery(Descriptor(e, KindOf(e), GlobalBounds, At(now), true))
  }

  /** The demo storm agrees with the classifier and the basin lookup. */
  lemma DemoStormConsistent(now: nat)
    ensures DemoStorm(now).classification == Classify(DemoStorm(now).windSpeed)
    ensures DemoStorm(now).basin == DetermineBasin3(DemoStorm(now).coordinates.lat, DemoStorm(now).coordinates.lon)
  {
  }

  /** What processNHCStorms answers: the fallback for a falsy document, else one hardened storm per entry. */
  function NhcStormsBody(doc: Option<StormDoc>, now: nat, sanitize: string -> string): Body {
    if StormDocFalsy(doc) then FallbackData(NhcStorms, now)
    else Storms(Normalize.Mapped(Normalize.StormsOrEmpty(doc.value), s => Normalize.HardenedStorm(s, now, sanitize)))
  }

  /** processNHCStorms. */
  method ProcessNHCStorms(doc: Option<StormDoc>, now: nat, sanitize: string -> string) returns (body: Body)
    ensures body == NhcStormsBody(doc, now, sanitize)
    ensures !StormDocFalsy(doc) ==>
      var raw := Normalize.StormsOrEmpty(doc.value);
      body.Storms? && |body.storms| == |raw| &&
      forall i :: 0 <= i < |raw| ==> body.storms[i] == Normalize.HardenedStorm(raw[i], now, sanitize)
  {
    if StormDocFalsy(doc) {
      return FallbackData(NhcStorms, now);
    }
    var storms := Normalize.MapEach(Normalize.StormsOrEmpty(doc.value), s => Normalize.HardenedStorm(s, now, sanitize));
    return Storms(storms);
  }

  /** What processNWSAlerts answers: the fallback alert when `features` is unset, else one alert per feature. */
  function NwsAlertsBody(doc: Option<AlertDoc>, now: nat, sanitize: string -> string): Body {
    if doc.None? || doc.value.features.None? then FallbackData(NwsAlerts, now)
    else Alerts(Normalize.Mapped(doc.value.features.value, f => Normalize.HardenedAlert(f, now, sanitize)))
  }

  /** processNWSAlerts. */
  method ProcessNWSAlerts(doc: Option<AlertDoc>, now: nat, sanitize: string -> string) returns (body: Body)
    ensures body == NwsAlertsBody(doc, now, sanitize)
    ensures doc.Some? && doc.value.features.Some? ==>
      var fs := doc.value.features.value;
      body.Alerts? && |body.alerts| == |fs| &&
      forall i :: 0 <= i < |fs| ==> body.alerts[i] == Normalize.HardenedAlert(fs[i], now, sanitize)
  {
    if doc.None? || doc.value.features.None? {
      return FallbackData(NwsAlerts, now);
    }
    var alerts := Normalize.MapEach(doc.value.features.value, f => Normalize.HardenedAlert(f, now, sanitize));
    return Alerts(alerts);
  }

  /** The rows the unified loop feeds to the parser: non-blank lines among the first 1000. */
  function HurdatRows(lines: seq<string>): seq<Hurdat.Row> {
    Hurdat.PhpKeptRows(lines[..Hurdat.Min(1000, |lines|)])
  }

  /** processHurdatData: the response split into lines, then the parsing loop. */
  method ProcessHurdatData(text: string) returns (storms: seq<Hurdat.HurdatStorm>)
    ensures storms == Hurdat.Parse(HurdatRows(Hurdat.Lines(text)), false)
  {
    storms := ParseHurdatLines(Hurdat.Lines(text));
  }

  /** The loop of processHurdatData: capped at 1000 raw lines, blank lines skipped, no status field. */
  method ParseHurdatLines(lines: seq<string>) returns (storms: seq<Hurdat.HurdatStorm>)
    ensures storms == Hurdat.Parse(HurdatRows(lines), false)
  {
    var done: seq<Hurdat.HurdatStorm> := [];
    var current: Option<Hurdat.HurdatStorm> := None;
    var lineCount := 0;
    var i := 0;
    while i < |lines|
      invariant 0 <= i <= |lines| && i <= 1000 && lineCount == i
      invariant Hurdat.Acc(done, current) == Hurdat.Run(Hurdat.PhpKeptRows(lines[..i]), false)
    {
      lineCount := lineCount + 1;
      if lineCount > 1000 {
        break;
      }
      Hurdat.PhpRunStep(lines, i, false);
      var line := Text.Trim(lines[i]);
      if !Text.PhpEmpty(line) {
        done, current := Hurdat.Feed(done, current, Hurdat.Fields(line), false);
      }
      i := i + 1;
    }
    assert lines[..i] == lines[..Hurdat.Min(1000, |lines|)];
    if current.Some? {
      done := done + [current.value];
    }
    storms := done;
  }

  /** What processResponse answers for an upstream body, or for none (null). */
  function Processed(e: Endpoint, response: Option<Payload>, now: nat, sanitize: string -> string): Body {
    if response.None? || Text.PhpEmpty(response.value.text) then FallbackData(e, now)
    else
      var p := response.value;
      match e
      case NhcStorms => NhcStormsBody(p.storms, now, sanitize)
      case NhcSample => NhcStormsBody(p.storms, now, sanitize)
      case NwsAlerts => NwsAlertsBody(p.alerts, now, sanitize)
      case Hurdat2 => Tracks(Hurdat.Parse(HurdatRows(Hurdat.Lines(p.text)), false))
      case _ => if p.json.Some? then Document(p.json.value) else FallbackData(e, now)
  }

  /** processResponse: a null or falsy body falls back; otherwise the endpoint's processor runs. */
  method ProcessResponse(e: Endpoint, response: Option<Payload>, now: nat, sanitize: string -> string) returns (body: Body)
    ensures body == Processed(e, response, now, sanitize)
  {
    if response.None? || Text.PhpEmpty(response.value.text) {
      return FallbackData(e, now);
    }
    var p := response.value;
    match e {
      case NhcStorms =>
        body := ProcessNHCStorms(p.storms, now, sanitize);
      case NhcSample =>
        body := ProcessNHCStorms(p.storms, now, sanitize);
      case NwsAlerts =>
        body := ProcessNWSAlerts(p.alerts, now, sanitize);
      case WeatherApi =>
        body := if p.json.Some? then Document(p.json.value) else FallbackData(WeatherApi, now);
      case Hurdat2 =>
        var storms := ProcessHurdatData(p.text);
        body := Tracks(storms);
      case _ =>
        body := if p.json.Some? then Document(p.json.value) else FallbackData(e, now);
    }
  }

  // ---------------------------------------------------------------------
  // One request, start to finish.

  /** What one request produces: the response, the cache directory after it, and the upstream call made. */
  datatype Outcome = Outcome(response: Response, files: map<Store.FileName, Store.File>, sent: Option<Upstream>)

  const MethodNotAllowed: Body := ErrorWithCode("Method not allowed", 405)
  const RateLimited: Body := Failure("Rate limit exceeded", Some(429), Some(Store.RateWindow), Some(Store.RateLimit))

  /** The body a cache miss answers with, and the upstream request made for it. */
  function Fetched(e: Endpoint, params: Query, env: Env, now: nat, reply: Fetch, sanitize: string -> string): (Body, Option<Upstream>) {
    var t := BuildApiUrl(e, params, env.weatherKey, now);
    if t.Describe? then (Imagery(t.descriptor), None)
    else if t.NoCall? then (Processed(e, None, now, sanitize), None)
    else (Processed(e, Received(reply), now, sanitize), Some(Upstream(t.url, ApiHeaders(e))))
  }

  /** What the script does on a cache miss, given the endpoint and the validated parameters. */
  type MissHandler = (Endpoint, Query) -> (Body, Option<Upstream>)

  /** The miss handler of one request: `reply` is what the upstream service answers if it is called. */
  function OnMiss(env: Env, now: nat, reply: Fetch, sanitize: string -> string): MissHandler {
    (e, params) => Fetched(e, params, env, now, reply, sanitize)
  }

  /**
   * The script from the preflight check to the periodic cleanup, for any
   * miss handler. `sweep` is the one-in-a-hundred draw of `rand(1, 100)`.
   */
  function Serve(files: map<Store.FileName, Store.File>, req: Request, env: Env, now: nat, sweep: bool,
                 sanitize: string -> string, miss: MissHandler): Outcome
  {
    if req.verb == "OPTIONS" then Outcome(Response(204, Empty, NoCacheHeader), files, None)
    else if req.verb != "GET" then Outcome(Response(405, MethodNotAllowed, NoCacheHeader), files, None)
    else match ValidateEndpoint(Get(req.query, "endpoint"))
      case Err(b) => Outcome(Response(400, b, NoCacheHeader), files, None)
      case Ok(e) => ServeEndpoint(files, e, req, env, now, sweep, sanitize, miss)
  }

  /** From parameter validation on, for a valid endpoint: the rate check (production only), then the cache. */
  function ServeEndpoint(files: map<Store.FileName, Store.File>, e: Endpoint, req: Request, env: Env, now: nat,
                         sweep: bool, sanitize: string -> string, miss: MissHandler): Outcome
  {
    var dev := IsDevelopment(req.host, env);
    var params := Params.Validated(req.query, AllowList(dev), sanitize);
    var d := Store.WindowDecision(Store.RateOf(files, req.client), now, Store.RateLimit, Store.RateWindow);
    if dev then ServeCached(files, Store.CacheKey(e.Name(), params), now, sweep, miss(e, params))
    else if d.Deny? then Outcome(Response(429, RateLimited, NoCacheHeader), files, None)
    else ServeCached(files[Store.RateFile(req.client) := Store.File(Store.Rate(d.record), now)],
                     Store.CacheKey(e.Name(), params), now, sweep, miss(e, params))
  }

  /**
   * A fresh cache file answers with what it holds; otherwise the miss
   * handler's body is cached and answered, then the sweep may run.
   */
  function ServeCached(files: map<Store.FileName, Store.File>, key: Store.CacheKey, now: nat, sweep: bool,
                       fetched: (Body, Option<Upstream>)): Outcome
  {
    var n := Store.CacheFile(key);
    if n in files && Store.Fresh(files[n], now, Store.CacheExpiry) then
      Outcome(Response(200, Store.BodyOf(files[n]), Hit(Some(now - files[n].mtime))), files, None)
    else
      var cached := (files - {Store.TempFile(key)})[n := Store.File(Store.Cached(fetched.0), now)];
      Outcome(Response(200, fetched.0, Miss), if sweep then Store.Swept(cached, now, Store.SweepAge) else cached, fetched.1)
  }

  /** The request handler, changing the cache directory in place. */
  method Handle(dir: Store.Directory, req: Request, env: Env, now: nat, reply: Fetch, sweep: bool, sanitize: string -> string)
    returns (resp: Response, sent: Option<Upstream>)
    modifies dir
    ensures Outcome(resp, dir.files, sent) == Serve(old(dir.files), req, env, now, sweep, sanitize, OnMiss(env, now, reply, sanitize))
  {
    if req.verb == "OPTIONS" {
      return Response(204, Empty, NoCacheHeader), None;
    }
    if req.verb != "GET" {
      return Response(405, MethodNotAllowed, NoCacheHeader), None;
    }
    var valid := ValidateEndpoint(Get(req.query, "endpoint"));
    if valid.Err? {
      return Response(400, valid.error, NoCacheHeader), None;
    }
    resp, sent := HandleEndpoint(dir, valid.value, req, env, now, reply, sweep, sanitize);
  }

  method HandleEndpoint(dir: Store.Directory, e: Endpoint, req: Request, env: Env, now: nat, reply: Fetch,
                        sweep: bool, sanitize: string -> string)
    returns (resp: Response, sent: Option<Upstream>)
    modifies dir
    ensures Outcome(resp, dir.files, sent) == ServeEndpoint(old(dir.files), e, req, env, now, sweep, sanitize, OnMiss(env, now, reply, sanitize))
  {
    var dev := IsDevelopment(req.host, env);
    var params := Params.ValidateParams(req.query, AllowList(dev), sanitize);
    if !dev {
      var allowed := dir.CheckRateLimit(req.client, Store.RateLimit, Store.RateWindow, now);
      if !allowed {
        return Response(429, RateLimited, NoCacheHeader), None;
      }
    }
    resp, sent := HandleCached(dir, e, params, env, now, reply, sweep, sanitize);
  }

  method HandleCached(dir: Store.Directory, e: Endpoint, params: Query, env: Env, now: nat, reply: Fetch,
                      sweep: bool, sanitize: string -> string)
    returns (resp: Response, sent: Option<Upstream>)
    modifies dir
    ensures Outcome(resp, dir.files, sent) ==
      ServeCached(old(dir.files), Store.CacheKey(e.Name(), params), now, sweep, Fetched(e, params, env, now, reply, sanitize))
  {
    var key := Store.CacheKey(e.Name(), params);
    var hit := dir.Lookup(key, now, Store.CacheExpiry);
    if hit.Some? {
      return Response(200, Store.BodyOf(hit.value), Hit(Some(now - hit.value.mtime))), None;
    }
    var body, upstream := FetchBody(e, params, env, now, reply, sanitize);
    resp, sent := Answer(dir, key, now, sweep, (body, upstream));
  }

  /** The end of a miss: the answer is cached, then maybe swept. */
  method Answer(dir: Store.Directory, key: Store.CacheKey, now: nat, sweep: bool, fetched: (Body, Option<Upstream>))
    returns (resp: Response, sent: Option<Upstream>)
    requires !(Store.CacheFile(key) in dir.files && Store.Fresh(dir.files[Store.CacheFile(key)], now, Store.CacheExpiry))
    modifies dir
    ensures Outcome(resp, dir.files, sent) == ServeCached(old(dir.files), key, now, sweep, fetched)
  {
    dir.CacheResponse(key, fetched.0, now);
    if sweep {
      dir.Sweep(now, Store.SweepAge);
    }
    resp, sent := Response(200, fetched.0, Miss), fetched.1;
  }

  /** A cache miss: the imagery descriptor, or the upstream call (when there is a URL) and its processing. */
  method FetchBody(e: Endpoint, params: Query, env: Env, now: nat, reply: Fetch, sanitize: string -> string)
    returns (body: Body, sent: Option<Upstream>)
    ensures (body, sent) == Fetched(e, params, env, now, reply, sanitize)
  {
    var t := BuildApiUrl(e, params, env.weatherKey, now);
    if t.Describe? {
      return Imagery(t.descriptor), None;
    }
    var response := None;
    sent := None;
    if t.Call? {
      response := Received(reply);
      sent := Some(Upstream(t.url, ApiHeaders(e)));
    }
    body := ProcessResponse(e, response, now, sanitize);
  }

  // ---------------------------------------------------------------------
  // Properties of a request.

  /** The cache key of a request: the endpoint and its validated parameters. */
  function KeyOf(e: Endpoint, req: Request, env: Env, sanitize: string -> string): (k: Store.CacheKey)
    ensures k.endpoint == e.Name()
    ensures forall p :: p in k.params ==> p.0 != "endpoint" && !Text.PhpEmpty(p.1) && |p.1| <= Params.MaxLength
    ensures !IsDevelopment(req.host, env) ==> forall p :: p in k.params ==> p.0 in AllowedParams
  {
    Params.ValidatedShape(req.query, AllowList(IsDevelopment(req.host, env)), sanitize);
    Store.CacheKey(e.Name(), Params.Validated(req.query, AllowList(IsDevelopment(req.host, env)), sanitize))
  }

  /** After the rate check: the directory stays consistent and a miss caches its answer. */
  lemma CachedStage(files: map<Store.FileName, Store.File>, key: Store.CacheKey, now: nat, sweep: bool,
                    fetched: (Body, Option<Upstream>))
    requires Store.Consistent(files)
    ensures var o := ServeCached(files, key, now, sweep, fetched);
      var n := Store.CacheFile(key);
      Store.Consistent(o.files) &&
      (o.response.cache == Miss ==> n in o.files && o.files[n] == Store.File(Store.Cached(o.response.body), now))
  {
    var n := Store.CacheFile(key);
    if !(n in files && Store.Fresh(files[n], now, Store.CacheExpiry)) {
      var cached := (files - {Store.TempFile(key)})[n := Store.File(Store.Cached(fetched.0), now)];
      assert Store.Consistent(cached);
      assert n in Store.Swept(cached, now, Store.SweepAge);
    }
  }

  /** The same after the rate check too: writing a rate record keeps the directory consistent. */
  lemma EndpointStage(files: map<Store.FileName, Store.File>, e: Endpoint, req: Request, env: Env, now: nat,
                      sweep: bool, sanitize: string -> string, miss: MissHandler)
    requires Store.Consistent(files)
    ensures var o := ServeEndpoint(files, e, req, env, now, sweep, sanitize, miss);
      var n := Store.CacheFile(KeyOf(e, req, env, sanitize));
      Store.Consistent(o.files) &&
      (o.response.cache == Miss ==> n in o.files && o.files[n] == Store.File(Store.Cached(o.response.body), now))
  {
    var dev := IsDevelopment(req.host, env);
    var params := Params.Validated(req.query, AllowList(dev), sanitize);
    var d := Store.WindowDecision(Store.RateOf(files, req.client), now, Store.RateLimit, Store.RateWindow);
    if dev {
      CachedStage(files, Store.CacheKey(e.Name(), params), now, sweep, miss(e, params));
    } else if d.Allow? {
      var admitted := files[Store.RateFile(req.client) := Store.File(Store.Rate(d.record), now)];
      assert Store.Consistent(admitted);
      CachedStage(admitted, Store.CacheKey(e.Name(), params), now, sweep, miss(e, params));
    }
  }

  /** Every request leaves rate files holding rate records and cache files holding bodies. */
  lemma ServeConsistent(files: map<Store.FileName, Store.File>, req: Request, env: Env, now: nat, sweep: bool,
                        sanitize: string -> string, miss: MissHandler)
    requires Store.Consistent(files)
    ensures Store.Consistent(Serve(files, req, env, now, sweep, sanitize, miss).files)
  {
    if req.verb == "GET" && ValidateEndpoint(Get(req.query, "endpoint")).Ok? {
      EndpointStage(files, ValidateEndpoint(Get(req.query, "endpoint")).value, req, env, now, sweep, sanitize, miss);
    }
  }

  /**
   * A preflight, another method or a bad endpoint is answered before any
   * file is touched or any upstream call made; the error answers carry the
   * status in their `code` field.
   */
  lemma RejectedUntouched(files: map<Store.FileName, Store.File>, req: Request, env: Env, now: nat, sweep: bool,
                          sanitize: string -> string, miss: MissHandler)
    requires req.verb != "GET" || ValidateEndpoint(Get(req.query, "endpoint")).Err?
    ensures var o := Serve(files, req, env, now, sweep, sanitize, miss);
      o.files == files && o.sent.None? && o.response.cache == NoCacheHeader &&
      o.response.status == (if req.verb == "OPTIONS" then 204 else if req.verb != "GET" then 405 else 400) &&
      (o.response.status != 204 ==> o.response.body.Failure? && o.response.body.code == Some(o.response.status))
  {
  }

  /** A GET for a valid endpoint goes on to the rate check and the cache. */
  lemma ValidGoesOn(files: map<Store.FileName, Store.File>, req: Request, env: Env, now: nat, sweep: bool,
                    sanitize: string -> string, miss: MissHandler)
    requires req.verb == "GET" && ValidateEndpoint(Get(req.query, "endpoint")).Ok?
    ensures Serve(files, req, env, now, sweep, sanitize, miss) ==
      ServeEndpoint(files, ValidateEndpoint(Get(req.query, "endpoint")).value, req, env, now, sweep, sanitize, miss)
  {
  }

  /** A fresh cache file is served as it is, whatever the rate check writes beside it. */
  lemma FreshIsHit(files: map<Store.FileName, Store.File>, e: Endpoint, req: Request, env: Env, now: nat,
                   sweep: bool, sanitize: string -> string, miss: MissHandler)
    requires var n := Store.CacheFile(KeyOf(e, req, env, sanitize));
      n in files && Store.Fresh(files[n], now, Store.CacheExpiry)
    ensures var o := ServeEndpoint(files, e, req, env, now, sweep, sanitize, miss);
      var f := files[Store.CacheFile(KeyOf(e, req, env, sanitize))];
      o.response.status == 429 ||
      (o.response == Response(200, Store.BodyOf(f), Hit(Some(now - f.mtime))) && o.sent.None?)
  {
  }

  /**
   * The cache round trip: a request answered on a miss, repeated within the
   * five-minute expiry, is answered from the cache with the same body and
   * no upstream call, unless the repeat is rate-limited.
   */
  lemma RepeatIsHit(files: map<Store.FileName, Store.File>, e: Endpoint, req: Request, env: Env, now: nat, sweep: bool,
                    miss: MissHandler, later: nat, sweep2: bool, miss2: MissHandler, sanitize: string -> string)
    requires Store.Consistent(files)
    requires now <= later < now + Store.CacheExpiry
    requires ServeEndpoint(files, e, req, env, now, sweep, sanitize, miss).response.cache == Miss
    ensures var o := ServeEndpoint(files, e, req, env, now, sweep, sanitize, miss);
      Store.Consistent(o.files) &&
      var o2 := ServeEndpoint(o.files, e, req, env, later, sweep2, sanitize, miss2);
      o2.response.status == 429 ||
      (o2.response == Response(200, o.response.body, Hit(Some(later - now))) && o2.sent.None?)
  {
    var o := ServeEndpoint(files, e, req, env, now, sweep, sanitize, miss);
    EndpointStage(files, e, req, env, now, sweep, sanitize, miss);
    var n := Store.CacheFile(KeyOf(e, req, env, sanitize));
    assert n in o.files && Store.Fresh(o.files[n], later, Store.CacheExpiry);
    FreshIsHit(o.files, e, req, env, later, sweep2, sanitize, miss2);
  }

  /** In development there is no rate check: no 429 and no rate file written. */
  lemma DevelopmentUnlimited(files: map<Store.FileName, Store.File>, e: Endpoint, req: Request, env: Env, now: nat,
                             sweep: bool, sanitize: string -> string, miss: MissHandler)
    requires IsDevelopment(req.host, env)
    ensures var o := ServeEndpoint(files, e, req, env, now, sweep, sanitize, miss);
      o.response.status == 200 &&
      (!sweep ==> (Store.RateFile(req.client) in o.files <==> Store.RateFile(req.client) in files))
  {
  }

  /** In production a denied client gets the 429 answer and nothing is written. */
  lemma DeniedUntouched(files: map<Store.FileName, Store.File>, e: Endpoint, req: Request, env: Env, now: nat,
                        sweep: bool, sanitize: string -> string, miss: MissHandler)
    requires !IsDevelopment(req.host, env)
    requires Store.WindowDecision(Store.RateOf(files, req.client), now, Store.RateLimit, Store.RateWindow).Deny?
    ensures ServeEndpoint(files, e, req, env, now, sweep, sanitize, miss) ==
      Outcome(Response(429, RateLimited, NoCacheHeader), files, None)
  {
  }

  /**
   * What a miss produces: imagery endpoints never call upstream; a call
   * goes to the endpoint's own base URL with its headers; a failed call
   * (transport error or any status but 200), like a weatherapi request with
   * no usable key, is answered with the endpoint's fallback data.
   */
  lemma MissCases(e: Endpoint, params: Query, env: Env, now: nat, reply: Fetch, sanitize: string -> string)
    ensures var f := Fetched(e, params, env, now, reply, sanitize);
      (!e.IsUpstream() ==> f.1.None? && f.0.Imagery? && !f.0.descriptor.fallback) &&
      (f.1.Some? ==> e.IsUpstream() && f.1.value.url.base == e.BaseUrl() && f.1.value.headers == ApiHeaders(e)) &&
      (e == WeatherApi && HasValue(params, "q") && KeyMissing(env.weatherKey) ==>
        f == (Error("Service temporarily unavailable"), None)) &&
      (f.1.Some? && !(reply.Reply? && reply.status == 200) ==> f.0 == FallbackData(e, now))
  {
    BuildApiUrlCases(e, params, env.weatherKey, now);
  }
}
