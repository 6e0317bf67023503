/**
 * api-proxy-production.php: the plain production proxy. Every request but a
 * preflight first passes its own rate block, then the endpoint check; the
 * cache key covers every query parameter; a failed upstream call is answered
 * with demo data and nothing is cached; the periodic sweep runs only after a
 * processed answer.
 */
module ProductionProxy {
  import opened Wrappers
  import opened Weather
  import opened Http
  import Text
  import Hurdat
  import Normalize
  import Store

  /** The keys of `$API_ENDPOINTS`. */
  const Endpoints: seq<Endpoint> := [NhcStorms, NhcSample, NwsAlerts, Hurdat2, WeatherApi]

  /**
   * The inline rate block. A record is read with missing keys as 0 (`time()
   * - null` is `time()`, `null >= 60` is false, `null++` is 1): within the
   * window the call is denied once the stored count has reached 60, and
   * otherwise the count goes up and the timestamp stays as stored; outside
   * it, or with no file, the window restarts at count 1.
   */
  function RateDecision(stored: Option<Store.RateRecord>, now: int): (d: Store.Decision)
    ensures stored.None? ==> d == Store.Allow(Store.RateRecord(Some(now), Some(1)))
    ensures d.Deny? <==> stored.Some? && now - stored.value.timestamp.GetOr(0) < Store.RateWindow &&
                         stored.value.count.GetOr(0) >= Store.RateLimit
    ensures d.Allow? && stored.Some? && now - stored.value.timestamp.GetOr(0) < Store.RateWindow ==>
      d.record == Store.RateRecord(stored.value.timestamp, Some(stored.value.count.GetOr(0) + 1))
  {
    if stored.None? then Store.Allow(Store.RateRecord(Some(now), Some(1)))
    else
      var r := stored.value;
      if now - r.timestamp.GetOr(0) < Store.RateWindow then
        if r.count.GetOr(0) >= Store.RateLimit then Store.Deny
        else Store.Allow(r.(count := Some(r.count.GetOr(0) + 1)))
      else Store.Allow(Store.RateRecord(Some(now), Some(1)))
  }

  /**
   * On a well-formed record (or none), comparing before incrementing decides
   * exactly as the hardened proxies' increment-then-compare.
   */
  lemma AgreesWithWindow(stored: Option<Store.RateRecord>, now: int)
    requires stored.None? || Store.Complete(stored.value)
    ensures RateDecision(stored, now) == Store.WindowDecision(stored, now, Store.RateLimit, Store.RateWindow)
  {
  }

  /** Which of a series of calls, made at the given times, the rate block lets through. */
  function Admitted(stored: Option<Store.RateRecord>, times: seq<int>): seq<bool>
    decreases |times|
  {
    if times == [] then []
    else
      var d := RateDecision(stored, times[0]);
      [d.Allow?] + Admitted(Store.After(stored, d), times[1..])
  }

  /** From a well-formed record the rate block admits the same calls as the hardened check. */
  lemma {:induction false} AdmittedAgree(stored: Option<Store.RateRecord>, times: seq<int>)
    requires stored.None? || Store.Complete(stored.value)
    ensures Admitted(stored, times) == Store.Admitted(stored, times)
    decreases |times|
  {
    if times != [] {
      AgreesWithWindow(stored, times[0]);
      var d := RateDecision(stored, times[0]);
      AdmittedAgree(Store.After(stored, d), times[1..]);
    }
  }

  /** Starting with no record, of calls made within one window of the first, exactly the first sixty pass. */
  lemma SixtyPerWindow(times: seq<int>)
    requires |times| >= 1
    requires forall i :: 0 <= i < |times| ==> times[i] < times[0] + Store.RateWindow
    ensures |Admitted(None, times)| == |times|
    ensures forall i :: 0 <= i < |times| ==> Admitted(None, times)[i] == (i < Store.RateLimit)
  {
    AdmittedAgree(None, times);
    Store.SixtyPerWindow(times);
  }

  const KeyPlaceholder: string := "your_weatherapi_key_here"

  /** The upstream URL: `key` (or the placeholder) and `q` for a weatherapi city, `area` for NWS alerts. */
  function ApiUrl(e: Endpoint, params: Query, key: Option<string>): (u: Url)
    ensures u.base == e.BaseUrl()
    ensures e == WeatherApi && HasValue(params, "q") ==>
      u.query == [("key", if key.Some? && !Text.PhpEmpty(key.value) then key.value else KeyPlaceholder),
                  ("q", Get(params, "q").value)]
    ensures e == NwsAlerts && HasValue(params, "area") ==> u.query == [("area", Get(params, "area").value)]
    ensures !(e == WeatherApi && HasValue(params, "q")) && !(e == NwsAlerts && HasValue(params, "area")) ==> u.query == []
  {
    if e == WeatherApi && HasValue(params, "q") then
      var k := if key.Some? && !Text.PhpEmpty(key.value) then key.value else KeyPlaceholder;
      Url(e.BaseUrl(), [("key", k), ("q", Get(params, "q").value)])
    else if e == NwsAlerts && HasValue(params, "area") then
      Url(e.BaseUrl(), [("area", Get(params, "area").value)])
    else Url(e.BaseUrl(), [])
  }

  /** The demo storm of getFallbackData. */
  function DemoStorm(now: nat): Storm {
    Storm("demo-al092023", "Hurricane Demo Alpha", Atlantic, Cat3, 125.0, 958.0, Coord(25.4, -76.2), 12.0, "NNW",
          At(now), [Coord(25.4, -76.2), Coord(26.1, -76.8)])
  }

  /** The demo storm agrees with the classifier and the six-box basin lookup. */
  lemma DemoStormConsistent(now: nat)
    ensures Classify(125.0) == Cat3 && DemoStorm(now).classification == Classify(DemoStorm(now).windSpeed)
    ensures DetermineBasin6(25.4, -76.2) == Atlantic
    ensures DemoStorm(now).basin == DetermineBasin6(DemoStorm(now).coordinates.lat, DemoStorm(now).coordinates.lon)
  {
  }

  /** getFallbackData: one demo storm, one status alert, and an error for every other endpoint. */
  function FallbackData(e: Endpoint, now: nat): (r: Body)
    ensures (e == NhcStorms || e == NhcSample) ==>
      r.Storms? && |r.storms| == 1 && r.storms[0].classification == Classify(r.storms[0].windSpeed)
    ensures e == NwsAlerts ==> r.Alerts? && |r.alerts| == 1 && r.alerts[0].expires == At(now + DaySeconds)
    ensures r.Failure? <==> !(e == NhcStorms || e == NhcSample || e == NwsAlerts)
  {
    match e
    case NhcStorms => Storms([DemoStorm(now)])
    case NhcSample => Storms([DemoStorm(now)])
    case NwsAlerts => Alerts([Alert("demo-alert-1", "System Status - Normal Operations",
        "All systems operating normally. No active weather alerts at this time.",
        "Minor", "Future", "All Areas", At(now), At(now + DaySeconds))])
    case _ => Error("Service temporarily unavailable")
  }

  /**
   * What processNHCStorms answers: `activeStorms` when set, else `storms`,
   * each entry normalised; the fallback when the document is falsy or has
   * neither.
   */
  function NhcStormsBody(doc: Option<StormDoc>, now: nat): Body {
    if StormDocFalsy(doc) then FallbackData(NhcStorms, now)
    else match Normalize.PreferredStorms(doc.value)
      case None => FallbackData(NhcStorms, now)
      case Some(raw) => Storms(Normalize.Mapped(raw, s => Normalize.PlainStorm(s, now)))
  }

  /** processNHCStorms. */
  method ProcessNHCStorms(doc: Option<StormDoc>, now: nat) returns (body: Body)
    ensures body == NhcStormsBody(doc, now)
    ensures doc.Some? && doc.value.activeStorms.Some? ==>
      var raw := doc.value.activeStorms.value;
      body.Storms? && |body.storms| == |raw| &&
      forall i :: 0 <= i < |raw| ==> body.storms[i] == Normalize.PlainStorm(raw[i], now)
    ensures (doc.None? || (doc.value.activeStorms.None? && doc.value.storms.None?)) ==> body == Storms([DemoStorm(now)])
  {
    if StormDocFalsy(doc) {
      return FallbackData(NhcStorms, now);
    }
    var raw := Normalize.PreferredStorms(doc.value);
    if raw.None? {
      return FallbackData(NhcStorms, now);
    }
    var storms := Normalize.MapEach(raw.value, s => Normalize.PlainStorm(s, now));
    return Storms(storms);
  }

  /** What processNWSAlerts answers: the demo alert when `features` is unset, else one alert per feature. */
  function NwsAlertsBody(doc: Option<AlertDoc>, now: nat): Body {
    if doc.None? || doc.value.features.None? then FallbackData(NwsAlerts, now)
    else Alerts(Normalize.Mapped(doc.value.features.value, f => Normalize.PlainAlert(f, now)))
  }

  /** processNWSAlerts. */
  method ProcessNWSAlerts(doc: Option<AlertDoc>, now: nat) returns (body: Body)
    ensures body == NwsAlertsBody(doc, now)
    ensures doc.Some? && doc.value.features.Some? ==>
      var fs := doc.value.features.value;
      body.Alerts? && |body.alerts| == |fs| &&
      forall i :: 0 <= i < |fs| ==> body.alerts[i] == Normalize.PlainAlert(fs[i], now)
  {
    if doc.None? || doc.value.features.None? {
      return FallbackData(NwsAlerts, now);
    }
    var alerts := Normalize.MapEach(doc.value.features.value, f => Normalize.PlainAlert(f, now));
    return Alerts(alerts);
  }

  /** The rows the production loop parses: every line before the first blank one, at most 1000 of them. */
  function HurdatRows(lines: seq<string>): seq<Hurdat.Row> {
    Hurdat.TrimmedRows(lines[..Hurdat.Min(Hurdat.FirstBlank(lines), 1000)])
  }

  /** processHurdatData: the response split into lines, then the parsing loop. */
  method ProcessHurdatData(text: string) returns (storms: seq<Hurdat.HurdatStorm>)
    ensures storms == Hurdat.Parse(HurdatRows(Hurdat.Lines(text)), true)
  {
    storms := ParseHurdatLines(Hurdat.Lines(text));
  }

  /**
   * The loop of processHurdatData: it stops for good at the first blank line
   * or once 1000 lines have been taken, and keeps each point's status.
   */
  method ParseHurdatLines(lines: seq<string>) returns (storms: seq<Hurdat.HurdatStorm>)
    ensures storms == Hurdat.Parse(HurdatRows(lines), true)
  {
    var done: seq<Hurdat.HurdatStorm> := [];
    var current: Option<Hurdat.HurdatStorm> := None;
    var count := 0;
    var i := 0;
    while i < |lines|
      invariant 0 <= i <= |lines| && i <= 1000 && count == i
      invariant i <= Hurdat.FirstBlank(lines)
      invariant Hurdat.Acc(done, current) == Hurdat.Run(Hurdat.TrimmedRows(lines[..i]), true)
    {
      var line := Text.Trim(lines[i]);
      Hurdat.FirstBlankAt(lines, i);
      if Text.PhpEmpty(line) {
        break;
      }
      count := count + 1;
      if count > 1000 {
        break;
      }
      Hurdat.TrimmedRunStep(lines, i, true);
      done, current := Hurdat.Feed(done, current, Hurdat.Fields(line), true);
      i := i + 1;
    }
    assert lines[..i] == lines[..Hurdat.Min(Hurdat.FirstBlank(lines), 1000)];
    if current.Some? {
      done := done + [current.value];
    }
    storms := done;
  }

  /** What processResponse answers for a 200 reply. */
  function Processed(e: Endpoint, p: Payload, now: nat): Body {
    match e
    case NhcStorms => NhcStormsBody(p.storms, now)
    case NhcSample => NhcStormsBody(p.storms, now)
    case NwsAlerts => NwsAlertsBody(p.alerts, now)
    case Hurdat2 => Tracks(Hurdat.Parse(HurdatRows(Hurdat.Lines(p.text)), true))
    case WeatherApi => if p.json.Some? then Document(p.json.value) else FallbackData(WeatherApi, now)
    case _ => if p.json.Some? then Document(p.json.value) else Raw(p.text)
  }

  /** processResponse. */
  method ProcessResponse(e: Endpoint, p: Payload, now: nat) returns (body: Body)
    ensures body == Processed(e, p, now)
  {
    match e {
      case NhcStorms =>
        body := ProcessNHCStorms(p.storms, now);
      case NhcSample =>
        body := ProcessNHCStorms(p.storms, now);
      case NwsAlerts =>
        body := ProcessNWSAlerts(p.alerts, now);
      case Hurdat2 =>
        var storms := ProcessHurdatData(p.text);
        body := Tracks(storms);
      case WeatherApi =>
        body := if p.json.Some? then Document(p.json.value) else FallbackData(WeatherApi, now);
      case _ =>
        body := if p.json.Some? then Document(p.json.value) else Raw(p.text);
    }
  }

  // ---------------------------------------------------------------------
  // One request, start to finish.

  datatype Outcome = Outcome(response: Response, files: map<Store.FileName, Store.File>, sent: Option<Upstream>)

  /** What a cache miss comes to: the answer, the request sent, and whether the answer is cached. */
  datatype Missed = Missed(body: Body, sent: Upstream, cached: bool)

  /** The miss of one request: `reply` is what the upstream service answers. */
  function Fetched(e: Endpoint, params: Query, key: Option<string>, now: nat, reply: Fetch): Missed {
    var ok := reply.Reply? && reply.status == 200;
    Missed(if ok then Processed(e, reply.payload, now) else FallbackData(e, now), Upstream(ApiUrl(e, params, key), ApiHeaders(e)), ok)
  }

  type MissHandler = (Endpoint, Query) -> Missed

  function OnMiss(key: Option<string>, now: nat, reply: Fetch): MissHandler {
    (e, params) => Fetched(e, params, key, now, reply)
  }

  /** The script, for any miss handler; `sweep` is the one-in-a-hundred draw of `rand(1, 100)`. */
  function Serve(files: map<Store.FileName, Store.File>, req: Request, now: nat, sweep: bool, miss: MissHandler): Outcome {
    if req.verb == "OPTIONS" then Outcome(Response(200, Empty, NoCacheHeader), files, None)
    else match RateDecision(Store.RateOf(files, req.client), now)
      case Deny => Outcome(Response(429, Error("Rate limit exceeded"), NoCacheHeader), files, None)
      case Allow(record) =>
        ServeEndpoint(files[Store.RateFile(req.client) := Store.File(Store.Rate(record), now)], req, now, sweep, miss)
  }

  /** After the rate block: the endpoint check, then the cache. */
  function ServeEndpoint(files: map<Store.FileName, Store.File>, req: Request, now: nat, sweep: bool,
                         miss: MissHandler): Outcome {
    match Named(Get(req.query, "endpoint").GetOr(""), Endpoints)
    case None => Outcome(Response(400, Error("Invalid endpoint"), NoCacheHeader), files, None)
    case Some(e) =>
      var params := Without(req.query, "endpoint");
      ServeCached(files, Store.CacheKey(e.Name(), params), now, sweep, miss(e, params))
  }

  /** A fresh cache file answers; otherwise the miss is answered, and cached (then maybe swept) when processed. */
  function ServeCached(files: map<Store.FileName, Store.File>, key: Store.CacheKey, now: nat, sweep: bool,
                       fetched: Missed): Outcome {
    var n := Store.CacheFile(key);
    if n in files && Store.Fresh(files[n], now, Store.CacheExpiry) then
      Outcome(Response(200, Store.BodyOf(files[n]), Hit(None)), files, None)
    else if !fetched.cached then Outcome(Response(200, fetched.body, Miss), files, Some(fetched.sent))
    else
      var written := files[n := Store.File(Store.Cached(fetched.body), now)];
      Outcome(Response(200, fetched.body, Miss), if sweep then Store.Swept(written, now, Store.SweepAge) else written,
              Some(fetched.sent))
  }

  /** The rate block, reading and rewriting the client's record in place. */
  method CheckRate(dir: Store.Directory, client: string, now: nat) returns (allowed: bool)
    modifies dir
    ensures var d := RateDecision(Store.RateOf(old(dir.files), client), now);
      allowed == d.Allow? &&
      dir.files == (if allowed then old(dir.files)[Store.RateFile(client) := Store.File(Store.Rate(d.record), now)]
                    else old(dir.files))
  {
    var d := RateDecision(Store.RateOf(dir.files, client), now);
    if d.Deny? {
      return false;
    }
    dir.Write(Store.RateFile(client), Store.Rate(d.record), now);
    return true;
  }

  /** The request handler, changing the cache directory in place. */
  method Handle(dir: Store.Directory, req: Request, key: Option<string>, now: nat, reply: Fetch, sweep: bool)
    returns (resp: Response, sent: Option<Upstream>)
    modifies dir
    ensures Outcome(resp, dir.files, sent) == Serve(old(dir.files), req, now, sweep, OnMiss(key, now, reply))
  {
    if req.verb == "OPTIONS" {
      return Response(200, Empty, NoCacheHeader), None;
    }
    var allowed := CheckRate(dir, req.client, now);
    if !allowed {
      return Response(429, Error("Rate limit exceeded"), NoCacheHeader), None;
    }
    resp, sent := HandleEndpoint(dir, req, key, now, reply, sweep);
  }

  method HandleEndpoint(dir: Store.Directory, req: Request, key: Option<string>, now: nat, reply: Fetch, sweep: bool)
    returns (resp: Response, sent: Option<Upstream>)
    modifies dir
    ensures Outcome(resp, dir.files, sent) == ServeEndpoint(old(dir.files), req, now, sweep, OnMiss(key, now, reply))
  {
    var e := Named(Get(req.query, "endpoint").GetOr(""), Endpoints);
    if e.None? {
      return Response(400, Error("Invalid endpoint"), NoCacheHeader), None;
    }
    var params := Without(req.query, "endpoint");
    resp, sent := HandleCached(dir, e.value, params, key, now, reply, sweep);
  }

  method HandleCached(dir: Store.Directory, e: Endpoint, params: Query, key: Option<string>, now: nat, reply: Fetch,
                      sweep: bool)
    returns (resp: Response, sent: Option<Upstream>)
    modifies dir
    ensures Outcome(resp, dir.files, sent) ==
      ServeCached(old(dir.files), Store.CacheKey(e.Name(), params), now, sweep, Fetched(e, params, key, now, reply))
  {
    var cacheKey := Store.CacheKey(e.Name(), params);
    var hit := dir.Lookup(cacheKey, now, Store.CacheExpiry);
    if hit.Some? {
      return Response(200, Store.BodyOf(hit.value), Hit(None)), None;
    }
    var fetched := FetchBody(e, params, key, now, reply);
    resp, sent := Answer(dir, cacheKey, now, sweep, fetched);
  }

  /** The end of a miss: the answer is sent, and cached (then maybe swept) when it may be. */
  method Answer(dir: Store.Directory, cacheKey: Store.CacheKey, now: nat, sweep: bool, fetched: Missed)
    returns (resp: Response, sent: Option<Upstream>)
    requires !(Store.CacheFile(cacheKey) in dir.files && Store.Fresh(dir.files[Store.CacheFile(cacheKey)], now, Store.CacheExpiry))
    modifies dir
    ensures Outcome(resp, dir.files, sent) == ServeCached(old(dir.files), cacheKey, now, sweep, fetched)
  {
    sent := Some(fetched.sent);
    if !fetched.cached {
      return Response(200, fetched.body, Miss), sent;
    }
    dir.Write(Store.CacheFile(cacheKey), Store.Cached(fetched.body), now);
    if sweep {
      dir.Sweep(now, Store.SweepAge);
    }
    resp := Response(200, fetched.body, Miss);
  }

  /** A cache miss: the upstream call, then the fallback on failure or the processed reply. */
  method FetchBody(e: Endpoint, params: Query, key: Option<string>, now: nat, reply: Fetch) returns (fetched: Missed)
    ensures fetched == Fetched(e, params, key, now, reply)
  {
    var ok := reply.Reply? && reply.status == 200;
    var body;
    if ok {
      body := ProcessResponse(e, reply.payload, now);
    } else {
      body := FallbackData(e, now);
    }
    fetched := Missed(body, Upstream(ApiUrl(e, params, key), ApiHeaders(e)), ok);
  }

  // ---------------------------------------------------------------------
  // Properties of a request.

  /**
   * The rate block runs before the endpoint check: a request for an unknown
   * endpoint is still counted, and answered 400 with the new record stored.
   */
  lemma InvalidStillCounted(files: map<Store.FileName, Store.File>, req: Request, now: nat, sweep: bool, miss: MissHandler)
    requires req.verb != "OPTIONS"
    requires Named(Get(req.query, "endpoint").GetOr(""), Endpoints).None?
    ensures var d := RateDecision(Store.RateOf(files, req.client), now);
      var o := Serve(files, req, now, sweep, miss);
      o.sent.None? &&
      (d.Deny? ==> o.response.status == 429 && o.files == files) &&
      (d.Allow? ==> o.response == Response(400, Error("Invalid endpoint"), NoCacheHeader) &&
                    o.files == files[Store.RateFile(req.client) := Store.File(Store.Rate(d.record), now)])
  {
  }

  /**
   * A failed upstream call (transport error or any status but 200) is
   * answered 200 with the endpoint's fallback data and writes no cache file.
   */
  lemma FailureNotCached(files: map<Store.FileName, Store.File>, key: Store.CacheKey, now: nat, sweep: bool,
                         e: Endpoint, params: Query, apiKey: Option<string>, reply: Fetch)
    requires !(reply.Reply? && reply.status == 200)
    requires !(Store.CacheFile(key) in files && Store.Fresh(files[Store.CacheFile(key)], now, Store.CacheExpiry))
    ensures var o := ServeCached(files, key, now, sweep, Fetched(e, params, apiKey, now, reply));
      o.response == Response(200, FallbackData(e, now), Miss) && o.files == files && o.sent.Some?
  {
  }

  /** The cache key is the endpoint with every query parameter but `endpoint`, in order: there is no allow-list. */
  lemma KeyCoversAllParams(files: map<Store.FileName, Store.File>, req: Request, now: nat, sweep: bool, miss: MissHandler)
    requires Named(Get(req.query, "endpoint").GetOr(""), Endpoints).Some?
    requires var n := Store.CacheFile(Store.CacheKey(Get(req.query, "endpoint").value, Without(req.query, "endpoint")));
      n in files && Store.Fresh(files[n], now, Store.CacheExpiry)
    ensures var o := ServeEndpoint(files, req, now, sweep, miss);
      var f := files[Store.CacheFile(Store.CacheKey(Get(req.query, "endpoint").value, Without(req.query, "endpoint")))];
      o == Outcome(Response(200, Store.BodyOf(f), Hit(None)), files, None)
  {
  }

  /**
   * The cache round trip: a processed answer, repeated within the expiry by
   * an admitted client, is served from the cache with no upstream call.
   */
  lemma RepeatIsHit(files: map<Store.FileName, Store.File>, req: Request, now: nat, sweep: bool, miss: MissHandler,
                    later: nat, sweep2: bool, miss2: MissHandler)
    requires now <= later < now + Store.CacheExpiry
    requires var e := Named(Get(req.query, "endpoint").GetOr(""), Endpoints);
      e.Some? && miss(e.value, Without(req.query, "endpoint")).cached
    requires ServeEndpoint(files, req, now, sweep, miss).response.cache == Miss
    ensures var o := ServeEndpoint(files, req, now, sweep, miss);
      var o2 := ServeEndpoint(o.files, req, later, sweep2, miss2);
      o2 == Outcome(Response(200, o.response.body, Hit(None)), o.files, None)
  {
    var e := Named(Get(req.query, "endpoint").GetOr(""), Endpoints).value;
    var n := Store.CacheFile(Store.CacheKey(e.Name(), Without(req.query, "endpoint")));
    var o := ServeEndpoint(files, req, now, sweep, miss);
    assert n in o.files && o.files[n] == Store.File(Store.Cached(o.response.body), now);
  }
}
