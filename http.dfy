/**
 * The request and response shapes every proxy variant shares: the endpoint
 * names, the query string, the upstream request the proxy would send, the
 * reply it gets back (already decoded), and the JSON bodies it answers with.
 */
module Http {
  import opened Wrappers
  import opened Weather
  import Hurdat
  import Text

  /** Every endpoint name any variant knows. */
  datatype Endpoint =
    | NhcStorms | NhcSample | NwsAlerts | Hurdat2 | WeatherApi
    | GoesSatellite | NexradRadar | WindData | PressureData | SeaTempData
  {
    function Name(): string {
      match this
      case NhcStorms => "nhc-storms" case NhcSample => "nhc-sample" case NwsAlerts => "nws-alerts"
      case Hurdat2 => "hurdat2" case WeatherApi => "weatherapi"
      case GoesSatellite => "goes-satellite" case NexradRadar => "nexrad-radar"
      case WindData => "wind-data" case PressureData => "pressure-data" case SeaTempData => "sea-temp-data"
    }

    /** The five endpoints backed by an upstream HTTP service. */
    predicate IsUpstream() {
      NhcStorms? || NhcSample? || NwsAlerts? || Hurdat2? || WeatherApi?
    }

    /** The `$API_ENDPOINTS` entry of the hardened proxies. */
    function BaseUrl(): string {
      match this
      case NhcStorms => "https://www.nhc.noaa.gov/CurrentStorms.json"
      case NhcSample => "https://www.nhc.noaa.gov/productexamples/NHC_JSON_Sample.json"
      case NwsAlerts => "https://api.weather.gov/alerts/active"
      case Hurdat2 => "https://www.aoml.noaa.gov/hrd/hurdat/hurdat2.txt"
      case WeatherApi => "https://api.weatherapi.com/v1/current.json"
      case GoesSatellite => "https://cdn.star.nesdis.noaa.gov/GOES16/ABI/CONUS/GEOCOLOR"
      case NexradRadar => "https://mapservices.weather.noaa.gov/eventdriven/rest/services/radar/radar_base_reflectivity_time/ImageServer"
      case WindData => "https://earth.nullschool.net/api/v1/winds/current"
      case PressureData => "https://earth.nullschool.net/api/v1/pressure/current"
      case SeaTempData => "https://coastwatch.pfeg.noaa.gov/erddap/griddap/jplMURSST41.png"
    }
  }

  /** The endpoint a name denotes, if any. */
  function EndpointNamed(s: string): (r: Option<Endpoint>)
    ensures r.Some? ==> r.value.Name() == s
  {
    if s == "nhc-storms" then Some(NhcStorms)
    else if s == "nhc-sample" then Some(NhcSample)
    else if s == "nws-alerts" then Some(NwsAlerts)
    else if s == "hurdat2" then Some(Hurdat2)
    else if s == "weatherapi" then Some(WeatherApi)
    else if s == "goes-satellite" then Some(GoesSatellite)
    else if s == "nexrad-radar" then Some(NexradRadar)
    else if s == "wind-data" then Some(WindData)
    else if s == "pressure-data" then Some(PressureData)
    else if s == "sea-temp-data" then Some(SeaTempData)
    else None
  }

  /** Each endpoint is found under its own name, so no two endpoints share a name. */
  lemma NameRoundTrip(e: Endpoint)
    ensures EndpointNamed(e.Name()) == Some(e)
  {
  }

  /** The endpoint with the given name among `known`, if any (`in_array` / `isset` on the list). */
  function Named(name: string, known: seq<Endpoint>): (r: Option<Endpoint>)
    ensures r.Some? ==> r.value in known && r.value.Name() == name
  {
    var e := EndpointNamed(name);
    if e.Some? && e.value in known then e else None
  }

  /** A name not found among `known` belongs to none of them. */
  lemma NamedComplete(name: string, known: seq<Endpoint>, e: Endpoint)
    requires e in known && e.Name() == name
    ensures Named(name, known) == Some(e)
  {
    NameRoundTrip(e);
  }

  /** Query parameters as name/value pairs, in order. */
  type Query = seq<(string, string)>

  /** No name occurs twice. */
  predicate UniqueKeys(q: Query) {
    forall i, j :: 0 <= i < j < |q| ==> q[i].0 != q[j].0
  }

  /**
   * `$_GET` as PHP hands it to the script: an array, so every name occurs once
   * (for a repeated name in the raw query string PHP keeps the last value).
   */
  type GetArray = q: Query | UniqueKeys(q)

  /** `$q[$key] ?? null`. */
  function Get(q: Query, key: string): (r: Option<string>)
    ensures r.Some? <==> exists i :: 0 <= i < |q| && q[i].0 == key
    ensures r.Some? ==> (key, r.value) in q
  {
    if q == [] then None
    else if q[0].0 == key then Some(q[0].1)
    else
      var r := Get(q[1..], key);
      assert forall i :: 1 <= i < |q| ==> q[i] == q[1..][i - 1];
      r
  }

  /** In a query whose names are distinct, a lookup finds the one value stored under the name. */
  lemma {:induction false} GetUnique(q: Query, key: string, value: string)
    requires UniqueKeys(q) && (key, value) in q
    ensures Get(q, key) == Some(value)
  {
    var i :| 0 <= i < |q| && q[i] == (key, value);
    if i > 0 {
      assert q[0].0 != key;
      assert q[1..][i - 1] == (key, value);
      GetUnique(q[1..], key, value);
    }
  }

  /** `!empty($params[$name])`: the parameter is present and not `empty()`. */
  predicate HasValue(q: Query, name: string) {
    Get(q, name).Some? && !Text.PhpEmpty(Get(q, name).value)
  }

  /** `unset($params[$key])`: the other entries, in order. */
  function Without(q: Query, key: string): (r: Query)
    ensures forall p :: p in r <==> p in q && p.0 != key
  {
    if q == [] then []
    else (if q[0].0 == key then [] else [q[0]]) + Without(q[1..], key)
  }

  /** The parts of an incoming request the proxies read. */
  datatype Request = Request(
    verb: string,            // REQUEST_METHOD
    query: GetArray,         // $_GET
    client: string,          // REMOTE_ADDR
    origin: Option<string>,  // HTTP_ORIGIN
    host: Option<string>)    // HTTP_HOST

  /** An upstream URL: its base and the query pairs appended to it, before URL-encoding. */
  datatype Url = Url(base: string, query: seq<(string, string)>)

  /** The upstream request a proxy sends: URL and extra HTTP headers. */
  datatype Upstream = Upstream(url: Url, headers: seq<string>)

  const NwsHeaders: seq<string> := ["User-Agent: TropicsTracker.net/1.0 (admin@tropicstracker.net)", "Accept: application/geo+json,application/json"]
  const JsonContentType: seq<string> := ["Content-Type: application/json"]

  /** The endpoint-specific headers of the hardened proxies' upstream requests (getApiHeaders). */
  function ApiHeaders(e: Endpoint): seq<string> {
    match e
    case NwsAlerts => NwsHeaders
    case WeatherApi => JsonContentType
    case _ => []
  }

  /**
   * An upstream reply body, viewed through `json_decode` as each processor
   * reads it: the raw text, the decoded document when it is truthy, and its
   * NHC and NWS readings (None when decoding gives a falsy value).
   */
  datatype Payload = Payload(text: string, json: Option<string>, storms: Option<StormDoc>, alerts: Option<AlertDoc>)

  /** What the cURL call yields: a transport error, or a status and a body. */
  datatype Fetch = TransportError(message: string) | Reply(status: int, payload: Payload)

  /** A map region: the whole globe, or SW and NE corners as the client sent them. */
  datatype Bounds = GlobalBounds | Corners(south: string, west: string, north: string, east: string)

  datatype LayerKind = Tile | Vector | Contour | Heatmap

  /** An imagery descriptor: what layer, where, when, and whether it is the fallback one. */
  datatype Descriptor = Descriptor(endpoint: Endpoint, kind: LayerKind, bounds: Bounds, timestamp: Stamp, fallback: bool)

  /** The JSON bodies the proxies answer with. */
  datatype Body =
    | Empty
    | Failure(error: string, code: Option<int>, retryAfter: Option<int>, limit: Option<int>)
    | Storms(storms: seq<Storm>)
    | Alerts(alerts: seq<Alert>)
    | Tracks(hurdat: seq<Hurdat.HurdatStorm>)
    | Document(json: string)
    | Raw(raw: string)
    | Imagery(descriptor: Descriptor)

  function Error(message: string): Body {
    Failure(message, None, None, None)
  }

  function ErrorWithCode(message: string, code: int): Body {
    Failure(message, Some(code), None, None)
  }

  /** The X-Cache header: absent, HIT (with the X-Cache-Age value where sent), or MISS. */
  datatype CacheHeader = NoCacheHeader | Hit(age: Option<int>) | Miss

  datatype Response = Response(status: int, body: Body, cache: CacheHeader)
}
