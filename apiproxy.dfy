/**
 * api-proxy.php: the original proxy. Any request but a preflight is checked
 * against the five upstream endpoints and answered from the cache when
 * fresh; an upstream failure is reported with its own status and nothing is
 * cached. The WeatherAPI key written into the script is the parameter
 * `apiKey` here.
 */
module ApiProxy {
  import opened Wrappers
  import opened Weather
  import opened Http
  import Text
  import Hurdat
  import Normalize
  import Store

  /** The keys of `$API_ENDPOINTS`. */
  const Endpoints: seq<Endpoint> := [NhcStorms, NhcSample, NwsAlerts, Hurdat2, WeatherApi]

  /** The `$API_ENDPOINTS` entry: as in the other proxies, except that WeatherAPI is reached over plain HTTP. */
  function BaseUrl(e: Endpoint): (u: string)
    ensures e != WeatherApi ==> u == e.BaseUrl()
  {
    if e == WeatherApi then "http://api.weatherapi.com/v1/current.json" else e.BaseUrl()
  }

  /** The upstream URL: `key` and `q` for a weatherapi city, `area` for NWS alerts. */
  function ApiUrl(e: Endpoint, params: Query, apiKey: string): (u: Url)
    ensures u.base == BaseUrl(e)
    ensures e == WeatherApi && HasValue(params, "q") ==> u.query == [("key", apiKey), ("q", Get(params, "q").value)]
    ensures e == NwsAlerts && HasValue(params, "area") ==> u.query == [("area", Get(params, "area").value)]
    ensures !(e == WeatherApi && HasValue(params, "q")) && !(e == NwsAlerts && HasValue(params, "area")) ==> u.query == []
  {
    if e == WeatherApi && HasValue(params, "q") then Url(BaseUrl(e), [("key", apiKey), ("q", Get(params, "q").value)])
    else if e == NwsAlerts && HasValue(params, "area") then Url(BaseUrl(e), [("area", Get(params, "area").value)])
    else Url(BaseUrl(e), [])
  }

  /** Only the WeatherAPI request carries an extra header. */
  function Headers(e: Endpoint): seq<string> {
    if e == WeatherApi then JsonContentType else []
  }

  /** getDemoStormData: two storms. */
  function DemoStorms(now: nat): seq<Storm> {
    [Storm("demo-al092023", "Hurricane Demo Alpha", Atlantic, Cat3, 125.0, 958.0, Coord(25.4, -76.2), 12.0, "NNW",
           At(now), [Coord(25.4, -76.2), Coord(26.1, -76.8), Coord(26.8, -77.4), Coord(27.5, -78.0)]),
     Storm("demo-al102023", "Tropical Storm Demo Beta", Atlantic, TS, 65.0, 995.0, Coord(18.7, -45.1), 18.0, "W",
           At(now), [Coord(18.7, -45.1), Coord(19.2, -46.8), Coord(19.7, -48.5)])]
  }

  /** The demo storms agree with the classifier and lie in the atlantic box. */
  lemma DemoStormsConsistent(now: nat)
    ensures Classify(125.0) == Cat3 && Classify(65.0) == TS
    ensures forall s :: s in DemoStorms(now) ==>
      s.classification == Classify(s.windSpeed) && InAtlantic(s.coordinates.lat, s.coordinates.lon) &&
      s.basin == DetermineBasin6(s.coordinates.lat, s.coordinates.lon)
  {
  }

  /** getDemoAlerts: a hurricane watch issued an hour ago and a storm surge warning issued two hours ago. */
  function DemoAlerts(now: nat): seq<Alert> {
    [HurricaneWatch(now), SurgeWarning(now)]
  }

  function HurricaneWatch(now: nat): Alert {
    Alert("demo-alert-1", "Hurricane Watch - Eastern Seaboard",
          "Hurricane conditions possible within 48 hours. Preparations should be rushed to completion.",
          "Moderate", "Expected", "Eastern Seaboard", At(now - 3600), At(now + DaySeconds))
  }

  function SurgeWarning(now: nat): Alert {
    Alert("demo-alert-2", "Storm Surge Warning - Gulf Coast",
          "Life-threatening inundation expected. Evacuate immediately if in surge zone.",
          "Severe", "Immediate", "Gulf Coast", At(now - 7200), At(now + 43200))
  }

  const InvalidJson: Body := Error("Invalid JSON response")

  /**
   * What processNHCStorms answers: an error for an undecodable or falsy
   * document, `activeStorms` when set, else `storms`, else the demo storms.
   */
  function NhcStormsBody(doc: Option<StormDoc>, now: nat): Body {
    if StormDocFalsy(doc) then InvalidJson
    else match Normalize.PreferredStorms(doc.value)
      case None => Storms(DemoStorms(now))
      case Some(raw) => Storms(Normalize.Mapped(raw, s => Normalize.PlainStorm(s, now)))
  }

  /** processNHCStorms. */
  method ProcessNHCStorms(doc: Option<StormDoc>, now: nat) returns (body: Body)
    ensures body == NhcStormsBody(doc, now)
    ensures doc.None? ==> body == Error("Invalid JSON response")
    ensures doc.Some? && doc.value.activeStorms.None? && doc.value.storms.None? ==>
      body == InvalidJson || body == Storms(DemoStorms(now))
    ensures doc.Some? && doc.value.activeStorms.Some? ==>
      var raw := doc.value.activeStorms.value;
      body.Storms? && |body.storms| == |raw| &&
      forall i :: 0 <= i < |raw| ==> body.storms[i] == Normalize.PlainStorm(raw[i], now)
  {
    if StormDocFalsy(doc) {
      return InvalidJson;
    }
    var raw := Normalize.PreferredStorms(doc.value);
    if raw.None? {
      return Storms(DemoStorms(now));
    }
    var storms := Normalize.MapEach(raw.value, s => Normalize.PlainStorm(s, now));
    return Storms(storms);
  }

  /** What processNWSAlerts answers: the demo alerts when `features` is unset, else one alert per feature. */
  function NwsAlertsBody(doc: Option<AlertDoc>, now: nat): Body {
    if doc.None? || doc.value.features.None? then Alerts(DemoAlerts(now))
    else Alerts(Normalize.Mapped(doc.value.features.value, f => Normalize.PlainAlert(f, now)))
  }

  /** A document with `features` yields one alert per feature, in order, each normalised. */
  lemma AlertPerFeature(doc: Option<AlertDoc>, now: nat)
    requires doc.Some? && doc.value.features.Some?
    ensures var fs := doc.value.features.value;
      NwsAlertsBody(doc, now).Alerts? && |NwsAlertsBody(doc, now).alerts| == |fs| &&
      forall i :: 0 <= i < |fs| ==> NwsAlertsBody(doc, now).alerts[i] == Normalize.PlainAlert(fs[i], now)
  {
  }

  /** processNWSAlerts. */
  method ProcessNWSAlerts(doc: Option<AlertDoc>, now: nat) returns (body: Body)
    ensures body == NwsAlertsBody(doc, now)
  {
    if doc.None? || doc.value.features.None? {
      return NwsAlertsBody(doc, now);
    }
    var fs := doc.value.features.value;
    var alerts := Normalize.MapEach(fs, f => Normalize.PlainAlert(f, now));
    body := Alerts(alerts);
  }

  /** processHurdatData: the response split into lines, then the parsing loop. */
  method ProcessHurdatData(text: string) returns (storms: seq<Hurdat.HurdatStorm>)
    ensures storms == Hurdat.Parse(Hurdat.PhpKeptRows(Hurdat.Lines(text)), true)
  {
    storms := ParseHurdatLines(Hurdat.Lines(text));
  }

  /** The loop of processHurdatData: blank lines are skipped, there is no cap, and points keep their status. */
  method ParseHurdatLines(lines: seq<string>) returns (storms: seq<Hurdat.HurdatStorm>)
    ensures storms == Hurdat.Parse(Hurdat.PhpKeptRows(lines), true)
  {
    var done: seq<Hurdat.HurdatStorm> := [];
    var current: Option<Hurdat.HurdatStorm> := None;
    var i := 0;
    while i < |lines|
      invariant 0 <= i <= |lines|
      invariant Hurdat.Acc(done, current) == Hurdat.Run(Hurdat.PhpKeptRows(lines[..i]), true)
    {
      Hurdat.PhpRunStep(lines, i, true);
      var line := Text.Trim(lines[i]);
      if !Text.PhpEmpty(line) {
        done, current := Hurdat.Feed(done, current, Hurdat.Fields(line), true);
      }
      i := i + 1;
    }
    assert lines[..i] == lines;
    if current.Some? {
      done := done + [current.value];
    }
    storms := done;
  }

  /** What processResponse answers for a 200 reply. */
  function Processed(e: Endpoint, p: Payload, now: nat): Body {
    match e
    case NhcStorms => NhcStormsBody(p.storms, now)
    case NhcSample => NhcStormsBody(p.storms, now)
    case NwsAlerts => NwsAlertsBody(p.alerts, now)
    case Hurdat2 => Tracks(Hurdat.Parse(Hurdat.PhpKeptRows(Hurdat.Lines(p.text)), true))
    case WeatherApi => if p.json.Some? then Document(p.json.value) else InvalidJson
    case _ => if p.json.Some? then Document(p.json.value) else Raw(p.text)
  }

  /** processResponse, with processWeatherAPI. */
  method ProcessResponse(e: Endpoint, p: Payload, now: nat) returns (body: Body)
    ensures body == Processed(e, p, now)
  {
    if e.NhcStorms? || e.NhcSample? {
      body := ProcessNHCStorms(p.storms, now);
    } else if e.NwsAlerts? {
      body := ProcessNWSAlerts(p.alerts, now);
    } else if e.Hurdat2? {
      var storms := ProcessHurdatData(p.text);
      body := Tracks(storms);
    } else if e.WeatherApi? {
      body := if p.json.Some? then Document(p.json.value) else InvalidJson;
    } else {
      body := if p.json.Some? then Document(p.json.value) else Raw(p.text);
    }
  }


  // ---------------------------------------------------------------------
  // One request, start to finish.

  datatype Outcome = Outcome(response: Response, files: map<Store.FileName, Store.File>, sent: Option<Upstream>)

  /** What a cache miss comes to: the status and answer, and the request sent. A 200 answer is cached. */
  datatype Missed = Missed(status: int, body: Body, sent: Upstream)

  /**
   * The status a miss is answered with: 500 for a transport error (a
   * non-empty cURL error), else the upstream status, 0 when nothing came back.
   */
  function StatusOf(reply: Fetch): (s: int)
    ensures s == 200 <==> reply.Reply? && reply.status == 200
  {
    match reply
    case TransportError(message) => if !Text.PhpEmpty(message) then 500 else 0
    case Reply(status, _) => status
  }

  /** The error body of a failed call. */
  function FailureOf(reply: Fetch): Body {
    match reply
    case TransportError(message) =>
      if !Text.PhpEmpty(message) then Error("Request failed: " + message) else Error("API returned status: 0")
    case Reply(status, _) => Error("API returned status: " + Text.Signed(status))
  }

  /** The miss of one request: a 200 reply is processed, any other outcome is reported as an error. */
  function Fetched(e: Endpoint, params: Query, apiKey: string, now: nat, reply: Fetch): Missed {
    var status := StatusOf(reply);
    Missed(status, if status == 200 then Processed(e, reply.payload, now) else FailureOf(reply),
           Upstream(ApiUrl(e, params, apiKey), Headers(e)))
  }

  type MissHandler = (Endpoint, Query) -> Missed

  function OnMiss(apiKey: string, now: nat, reply: Fetch): MissHandler {
    (e, params) => Fetched(e, params, apiKey, now, reply)
  }

  /** The script, for any miss handler; `sweep` is the one-in-a-hundred draw of `rand(1, 100)`. */
  function Serve(files: map<Store.FileName, Store.File>, req: Request, now: nat, sweep: bool, miss: MissHandler): Outcome {
    if req.verb == "OPTIONS" then Outcome(Response(200, Empty, NoCacheHeader), files, None)
    else match Named(Get(req.query, "endpoint").GetOr(""), Endpoints)
      case None => Outcome(Response(400, Error("Invalid endpoint"), NoCacheHeader), files, None)
      case Some(e) =>
        var params := Without(req.query, "endpoint");
        ServeCached(files, Store.CacheKey(e.Name(), params), now, sweep, miss(e, params))
  }

  /** A fresh cache file answers; otherwise the miss is answered, and cached (then maybe swept) when it is a 200. */
  function ServeCached(files: map<Store.FileName, Store.File>, key: Store.CacheKey, now: nat, sweep: bool,
                       fetched: Missed): Outcome {
    var n := Store.CacheFile(key);
    if n in files && Store.Fresh(files[n], now, Store.CacheExpiry) then
      Outcome(Response(200, Store.BodyOf(files[n]), NoCacheHeader), files, None)
    else if fetched.status != 200 then
      Outcome(Response(fetched.status, fetched.body, NoCacheHeader), files, Some(fetched.sent))
    else
      var written := files[n := Store.File(Store.Cached(fetched.body), now)];
      Outcome(Response(200, fetched.body, NoCacheHeader),
              if sweep then Store.Swept(written, now, Store.SweepAge) else written, Some(fetched.sent))
  }

  /** The request handler, changing the cache directory in place. */
  method Handle(dir: Store.Directory, req: Request, apiKey: string, now: nat, reply: Fetch, sweep: bool)
    returns (resp: Response, sent: Option<Upstream>)
    modifies dir
    ensures Outcome(resp, dir.files, sent) == Serve(old(dir.files), req, now, sweep, OnMiss(apiKey, now, reply))
  {
    if req.verb == "OPTIONS" {
      return Response(200, Empty, NoCacheHeader), None;
    }
    var e := Named(Get(req.query, "endpoint").GetOr(""), Endpoints);
    if e.None? {
      return Response(400, Error("Invalid endpoint"), NoCacheHeader), None;
    }
    var params := Without(req.query, "endpoint");
    resp, sent := HandleCached(dir, e.value, params, apiKey, now, reply, sweep);
  }

  method HandleCached(dir: Store.Directory, e: Endpoint, params: Query, apiKey: string, now: nat, reply: Fetch,
                      sweep: bool)
    returns (resp: Response, sent: Option<Upstream>)
    modifies dir
    ensures Outcome(resp, dir.files, sent) ==
      ServeCached(old(dir.files), Store.CacheKey(e.Name(), params), now, sweep, Fetched(e, params, apiKey, now, reply))
  {
    var cacheKey := Store.CacheKey(e.Name(), params);
    var hit := dir.Lookup(cacheKey, now, Store.CacheExpiry);
    if hit.Some? {
      return Response(200, Store.BodyOf(hit.value), NoCacheHeader), None;
    }
    var fetched := FetchBody(e, params, apiKey, now, reply);
    resp, sent := Answer(dir, cacheKey, now, sweep, fetched);
  }

  /** The end of a miss: a failure is passed on; a 200 is cached, then maybe swept. */
  method Answer(dir: Store.Directory, cacheKey: Store.CacheKey, now: nat, sweep: bool, fetched: Missed)
    returns (resp: Response, sent: Option<Upstream>)
    requires !(Store.CacheFile(cacheKey) in dir.files && Store.Fresh(dir.files[Store.CacheFile(cacheKey)], now, Store.CacheExpiry))
    modifies dir
    ensures Outcome(resp, dir.files, sent) == ServeCached(old(dir.files), cacheKey, now, sweep, fetched)
  {
    sent := Some(fetched.sent);
    if fetched.status != 200 {
      return Response(fetched.status, fetched.body, NoCacheHeader), sent;
    }
    dir.Write(Store.CacheFile(cacheKey), Store.Cached(fetched.body), now);
    if sweep {
      dir.Sweep(now, Store.SweepAge);
    }
    resp := Response(200, fetched.body, NoCacheHeader);
  }

  /** A cache miss: the upstream call and its error branches, or the processed reply. */
  method FetchBody(e: Endpoint, params: Query, apiKey: string, now: nat, reply: Fetch) returns (fetched: Missed)
    ensures fetched == Fetched(e, params, apiKey, now, reply)
  {
    var status := StatusOf(reply);
    var body;
    if status == 200 {
      body := ProcessResponse(e, reply.payload, now);
    } else {
      body := FailureOf(reply);
    }
    fetched := Missed(status, body, Upstream(ApiUrl(e, params, apiKey), Headers(e)));
  }

  // ---------------------------------------------------------------------
  // Properties of a request.

  /** A name that is not one of the five endpoints is a 400, with nothing written or sent. */
  lemma InvalidEndpoint(files: map<Store.FileName, Store.File>, req: Request, now: nat, sweep: bool, miss: MissHandler)
    requires req.verb != "OPTIONS"
    requires Get(req.query, "endpoint").None? || !exists e :: e in Endpoints && e.Name() == Get(req.query, "endpoint").value
    ensures Serve(files, req, now, sweep, miss) == Outcome(Response(400, Error("Invalid endpoint"), NoCacheHeader), files, None)
  {
    var name := Get(req.query, "endpoint").GetOr("");
    if Named(name, Endpoints).Some? {
      assert Named(name, Endpoints).value in Endpoints;
    }
  }

  /**
   * An upstream failure is answered with its own status (500 for a
   * transport error, the upstream status otherwise) and writes no cache file.
   */
  lemma FailureNotCached(files: map<Store.FileName, Store.File>, key: Store.CacheKey, now: nat, sweep: bool,
                         e: Endpoint, params: Query, apiKey: string, reply: Fetch)
    requires !(reply.Reply? && reply.status == 200)
    requires !(Store.CacheFile(key) in files && Store.Fresh(files[Store.CacheFile(key)], now, Store.CacheExpiry))
    ensures var o := ServeCached(files, key, now, sweep, Fetched(e, params, apiKey, now, reply));
      o.files == files && o.sent.Some? && o.response.body.Failure? &&
      (reply.TransportError? && !Text.PhpEmpty(reply.message) ==> o.response.status == 500) &&
      (reply.Reply? ==> o.response.status == reply.status)
  {
    var fetched := Fetched(e, params, apiKey, now, reply);
    assert fetched.status == StatusOf(reply) != 200;
    assert fetched.body == FailureOf(reply);
  }

  /** A cache file is served exactly when it is younger than five minutes. */
  lemma HitIffFresh(files: map<Store.FileName, Store.File>, key: Store.CacheKey, now: nat, sweep: bool, fetched: Missed)
    ensures var o := ServeCached(files, key, now, sweep, fetched);
      var n := Store.CacheFile(key);
      (o.sent.None? <==> n in files && now - files[n].mtime < 300) &&
      (o.sent.None? ==> o.response.body == Store.BodyOf(files[n]) && o.files == files)
  {
  }

  /** The cache round trip: a 200 answer, repeated within the expiry, is served from the cache with no upstream call. */
  lemma RepeatIsHit(files: map<Store.FileName, Store.File>, req: Request, now: nat, sweep: bool, miss: MissHandler,
                    later: nat, sweep2: bool, miss2: MissHandler)
    requires req.verb != "OPTIONS"
    requires now <= later < now + Store.CacheExpiry
    requires var o := Serve(files, req, now, sweep, miss); o.sent.Some? && o.response.status == 200
    ensures var o := Serve(files, req, now, sweep, miss);
      Serve(o.files, req, later, sweep2, miss2) == Outcome(Response(200, o.response.body, NoCacheHeader), o.files, None)
  {
    var e := Named(Get(req.query, "endpoint").GetOr(""), Endpoints).value;
    var n := Store.CacheFile(Store.CacheKey(e.Name(), Without(req.query, "endpoint")));
    var o := Serve(files, req, now, sweep, miss);
    assert n in o.files && o.files[n] == Store.File(Store.Cached(o.response.body), now);
  }
}
