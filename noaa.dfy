/**
 * noaa-api.js: the browser client's parsers. They read what the proxy
 * answered (already decoded) and fall back to built-in demo data. JavaScript
 * truthiness decides every default: an absent value, an empty string and
 * the number 0 all count as missing. Times are milliseconds (`Date.now()`).
 */
module NoaaApi {
  import opened Wrappers
  import opened Weather
  import Text
  import Hurdat
  import Normalize

  /**
   * A storm object as normalizeStormData reads it. Each value may sit under
   * either of two keys; None stands for an absent or null key.
   */
  datatype JsStorm = JsStorm(
    id: Option<string>, stormId: Option<string>,
    name: Option<string>, stormName: Option<string>,
    lat: Option<real>, latitude: Option<real>,
    lon: Option<real>, longitude: Option<real>,
    maxWind: Option<real>, windSpeed: Option<real>,
    minPressure: Option<real>, pressure: Option<real>,
    movementSpeed: Option<real>, speed: Option<real>,
    movementDir: Option<string>, direction: Option<string>,
    lastUpdate: Option<string>,
    forecastTrack: Option<seq<Coord>>,
    intensity: Option<string>, size: Option<string>)

  /** The client's storm record: the normalised storm plus its intensity and size labels, when present. */
  datatype ClientStorm = ClientStorm(storm: Storm, intensity: Option<string>, size: Option<string>)

  /** JavaScript truthiness of a number (NaN is not modelled) and of a string. */
  predicate Truthy(x: Option<real>) { x.Some? && x.value != 0.0 }
  predicate TruthyText(x: Option<string>) { x.Some? && x.value != "" }

  /** `x || y` on numbers. */
  function Or(x: Option<real>, y: real): real { if Truthy(x) then x.value else y }

  /** `x || y` on strings. */
  function OrText(x: Option<string>, y: string): string { if TruthyText(x) then x.value else y }

  /**
   * normalizeStormData. Every value is the first truthy one of its two keys,
   * else a default; the classification and the basin are derived from the
   * chosen wind speed and position.
   */
  function NormalizeStormData(s: JsStorm, now: nat): (r: ClientStorm)
    ensures r.storm.classification == Classify(r.storm.windSpeed)
    ensures r.storm.basin == DetermineBasin6(r.storm.coordinates.lat, r.storm.coordinates.lon)
    ensures r.storm.basin != SPC
    ensures r.storm.windSpeed == (if Truthy(s.maxWind) then s.maxWind.value else if Truthy(s.windSpeed) then s.windSpeed.value else 0.0)
    ensures r.storm.coordinates.lat == (if Truthy(s.lat) then s.lat.value else if Truthy(s.latitude) then s.latitude.value else 25.0)
    ensures r.storm.coordinates.lon == (if Truthy(s.lon) then s.lon.value else if Truthy(s.longitude) then s.longitude.value else -75.0)
    ensures r.storm.coordinates.lat != 0.0 && r.storm.coordinates.lon != 0.0 && r.storm.pressure != 0.0
    ensures r.storm.id != "" && r.storm.name != "" && r.storm.movementDirection != ""
    ensures r.intensity.Some? && r.intensity.value != "" && r.size.Some? && r.size.value != ""
  {
    var lat := Or(s.lat, Or(s.latitude, 25.0));
    var lon := Or(s.lon, Or(s.longitude, -75.0));
    var wind := Or(s.maxWind, Or(s.windSpeed, 0.0));
    ClientStorm(
      Storm(
        OrText(s.id, OrText(s.stormId, "storm-" + Text.Decimal(now))),
        OrText(s.name, OrText(s.stormName, "Unknown Storm")),
        DetermineBasin6(lat, lon),
        Classify(wind),
        wind,
        Or(s.minPressure, Or(s.pressure, 1013.0)),
        Coord(lat, lon),
        Or(s.movementSpeed, Or(s.speed, 0.0)),
        OrText(s.movementDir, OrText(s.direction, "N")),
        if TruthyText(s.lastUpdate) then Given(s.lastUpdate.value) else At(now),
        s.forecastTrack.GetOr([])),
      Some(OrText(s.intensity, "Unknown")),
      Some(OrText(s.size, "Unknown")))
  }

  /**
   * Each field of a normalised storm is the first truthy value of its chain
   * of keys, else the documented default; a forecast track, being an array,
   * is always truthy when present.
   */
  lemma NormalizeStormFields(s: JsStorm, now: nat)
    ensures var r := NormalizeStormData(s, now);
      (TruthyText(s.id) ==> r.storm.id == s.id.value) &&
      (!TruthyText(s.id) && TruthyText(s.stormId) ==> r.storm.id == s.stormId.value) &&
      (!TruthyText(s.id) && !TruthyText(s.stormId) ==> r.storm.id == "storm-" + Text.Decimal(now)) &&
      (TruthyText(s.name) ==> r.storm.name == s.name.value) &&
      (!TruthyText(s.name) && TruthyText(s.stormName) ==> r.storm.name == s.stormName.value) &&
      (!TruthyText(s.name) && !TruthyText(s.stormName) ==> r.storm.name == "Unknown Storm") &&
      (Truthy(s.minPressure) ==> r.storm.pressure == s.minPressure.value) &&
      (!Truthy(s.minPressure) && Truthy(s.pressure) ==> r.storm.pressure == s.pressure.value) &&
      (!Truthy(s.minPressure) && !Truthy(s.pressure) ==> r.storm.pressure == 1013.0) &&
      (Truthy(s.movementSpeed) ==> r.storm.movementSpeed == s.movementSpeed.value) &&
      (!Truthy(s.movementSpeed) && Truthy(s.speed) ==> r.storm.movementSpeed == s.speed.value) &&
      (!Truthy(s.movementSpeed) && !Truthy(s.speed) ==> r.storm.movementSpeed == 0.0) &&
      (TruthyText(s.movementDir) ==> r.storm.movementDirection == s.movementDir.value) &&
      (!TruthyText(s.movementDir) && TruthyText(s.direction) ==> r.storm.movementDirection == s.direction.value) &&
      (!TruthyText(s.movementDir) && !TruthyText(s.direction) ==> r.storm.movementDirection == "N") &&
      (TruthyText(s.lastUpdate) ==> r.storm.lastUpdate == Given(s.lastUpdate.value)) &&
      (!TruthyText(s.lastUpdate) ==> r.storm.lastUpdate == At(now)) &&
      (s.forecastTrack.Some? ==> r.storm.forecastTrack == s.forecastTrack.value) &&
      (s.forecastTrack.None? ==> r.storm.forecastTrack == []) &&
      (TruthyText(s.intensity) ==> r.intensity == Some(s.intensity.value)) &&
      (!TruthyText(s.intensity) ==> r.intensity == Some("Unknown")) &&
      (TruthyText(s.size) ==> r.size == Some(s.size.value)) &&
      (!TruthyText(s.size) ==> r.size == Some("Unknown"))
  {
  }

  /** A latitude of 0 is falsy, so a storm on the equator is placed at the default latitude 25. */
  lemma EquatorIsMissing(s: JsStorm, now: nat)
    requires s.lat == Some(0.0) && (s.latitude.None? || s.latitude == Some(0.0))
    ensures NormalizeStormData(s, now).storm.coordinates.lat == 25.0
  {
  }

  /** getDemoStormData. */
  function DemoStorms(now: nat): seq<ClientStorm> {
    [ClientStorm(Storm("demo-al092023", "Hurricane Demo Alpha", Atlantic, Cat3, 125.0, 958.0, Coord(25.4, -76.2),
                       12.0, "NNW", At(now),
                       [Coord(25.4, -76.2), Coord(26.1, -76.8), Coord(26.8, -77.4), Coord(27.5, -78.0)]),
                 Some("Major Hurricane"), Some("Large")),
     ClientStorm(Storm("demo-al102023", "Tropical Storm Demo Beta", Atlantic, TS, 65.0, 995.0, Coord(18.7, -45.1),
                       18.0, "W", At(now), [Coord(18.7, -45.1), Coord(19.2, -46.8), Coord(19.7, -48.5)]),
                 Some("Tropical Storm"), Some("Medium"))]
  }

  /** The demo storms carry the category and basin the client's own classifiers give them. */
  lemma DemoStormsConsistent(now: nat)
    ensures forall c :: c in DemoStorms(now) ==>
      c.storm.classification == Classify(c.storm.windSpeed) &&
      c.storm.basin == DetermineBasin6(c.storm.coordinates.lat, c.storm.coordinates.lon)
  {
  }

  /**
   * The decoded proxy answer parseNHCStormData looks at: its `storms` and
   * `activeStorms` entries, None when absent or not an array. The entries
   * of `storms` are the proxy's own normalised records.
   */
  datatype StormsData = StormsData(storms: Option<seq<ClientStorm>>, activeStorms: Option<seq<JsStorm>>)

  /** parseNHCStormData: `storms` as it is, else every active storm normalised, else the demo storms. */
  function ParseNHCStormData(data: StormsData, now: nat): (r: seq<ClientStorm>)
    ensures data.storms.Some? ==> r == data.storms.value
    ensures data.storms.None? && data.activeStorms.Some? ==>
      |r| == |data.activeStorms.value| &&
      forall i :: 0 <= i < |r| ==> r[i] == NormalizeStormData(data.activeStorms.value[i], now)
    ensures data.storms.None? && data.activeStorms.None? ==> r == DemoStorms(now)
  {
    if data.storms.Some? then data.storms.value
    else if data.activeStorms.Some? then Normalize.Mapped(data.activeStorms.value, s => NormalizeStormData(s, now))
    else DemoStorms(now)
  }

  /** Storms the client normalised itself never lie in the South Pacific and agree with the classifier. */
  lemma ParsedActiveStormsConsistent(data: StormsData, now: nat)
    requires data.storms.None?
    ensures forall c :: c in ParseNHCStormData(data, now) ==>
      c.storm.classification == Classify(c.storm.windSpeed) && c.storm.basin != SPC
  {
    var r := ParseNHCStormData(data, now);
    forall c | c in r
      ensures c.storm.classification == Classify(c.storm.windSpeed) && c.storm.basin != SPC
    {
      if data.activeStorms.None? {
        DemoStormsConsistent(now);
      } else {
        var i :| 0 <= i < |r| && r[i] == c;
        assert c == NormalizeStormData(data.activeStorms.value[i], now);
      }
    }
  }

  /** The client's alert record: copied values stay absent when the feature lacks them. */
  datatype ClientAlert = ClientAlert(
    id: Option<string>,
    title: Option<string>,
    description: Option<string>,
    severity: Option<string>,
    urgency: Option<string>,
    areas: Option<string>,
    issued: Option<Stamp>,
    expires: Option<Stamp>,
    coordinates: Option<seq<Coord>>)

  /** getDemoAlerts: a hurricane watch and a storm surge warning. */
  function DemoAlerts(now: nat): seq<ClientAlert> {
    [HurricaneWatch(now), SurgeWarning(now)]
  }

  /** Issued an hour ago, expiring in a day. */
  function HurricaneWatch(now: nat): ClientAlert {
    ClientAlert(Some("demo-alert-1"), Some("Hurricane Watch - Eastern Seaboard"),
                Some("Hurricane conditions possible within 48 hours. Preparations should be rushed to completion."),
                Some("Moderate"), Some("Expected"), Some("Eastern Seaboard"),
                Some(At(now - 3600000)), Some(At(now + 86400000)), None)
  }

  /** Issued two hours ago, expiring in twelve hours. */
  function SurgeWarning(now: nat): ClientAlert {
    ClientAlert(Some("demo-alert-2"), Some("Storm Surge Warning - Gulf Coast"),
                Some("Life-threatening inundation expected. Evacuate immediately if in surge zone."),
                Some("Severe"), Some("Immediate"), Some("Gulf Coast"),
                Some(At(now - 7200000)), Some(At(now + 43200000)), None)
  }

  /** The decoded proxy answer parseWeatherAlerts looks at: `alerts` and `features`, None when absent or not an array. */
  datatype AlertsData = AlertsData(alerts: Option<seq<ClientAlert>>, features: Option<seq<Feature>>)

  /** The record built from one feature; its `properties` object must exist. */
  function FromFeature(f: Feature): (a: ClientAlert)
    requires f.properties.Some?
    ensures var p := f.properties.value;
      a.id == p.id && a.title == p.event && a.description == p.description && a.severity == p.severity &&
      a.urgency == p.urgency && a.areas == p.areaDesc && a.coordinates == f.geometry
    ensures var p := f.properties.value;
      (p.sent.Some? ==> a.issued == Some(Given(p.sent.value))) && (p.sent.None? ==> a.issued.None?) &&
      (p.expires.Some? ==> a.expires == Some(Given(p.expires.value))) && (p.expires.None? ==> a.expires.None?)
  {
    var p := f.properties.value;
    ClientAlert(p.id, p.event, p.description, p.severity, p.urgency, p.areaDesc,
                if p.sent.Some? then Some(Given(p.sent.value)) else None,
                if p.expires.Some? then Some(Given(p.expires.value)) else None,
                f.geometry)
  }

  predicate AllHaveProperties(fs: seq<Feature>) {
    forall i :: 0 <= i < |fs| ==> fs[i].properties.Some?
  }

  /**
   * parseWeatherAlerts: `alerts` as it is, else one record per feature, else
   * the demo alerts. None is the TypeError raised when a feature has no
   * `properties` object.
   */
  function ParseWeatherAlerts(data: AlertsData, now: nat): (r: Option<seq<ClientAlert>>)
    ensures data.alerts.Some? ==> r == Some(data.alerts.value)
    ensures data.alerts.None? && data.features.None? ==> r == Some(DemoAlerts(now))
  {
    if data.alerts.Some? then Some(data.alerts.value)
    else if data.features.None? then Some(DemoAlerts(now))
    else
      var fs := data.features.value;
      if AllHaveProperties(fs) then Some(seq(|fs|, i requires 0 <= i < |fs| => FromFeature(fs[i])))
      else None
  }

  /**
   * Without `alerts`, a `features` array is mapped in order, one record per
   * feature, and the parse fails exactly when some feature has no `properties`.
   */
  lemma AlertPerFeature(data: AlertsData, now: nat)
    requires data.alerts.None? && data.features.Some?
    ensures var fs := data.features.value; var r := ParseWeatherAlerts(data, now);
      (r.Some? <==> AllHaveProperties(fs)) &&
      (r.Some? ==> |r.value| == |fs| && forall i :: 0 <= i < |fs| ==> r.value[i] == FromFeature(fs[i]))
  {
  }

  /** A mapped alert carries its feature's geometry coordinates, or none when the feature has no geometry. */
  lemma AlertCoordinates(data: AlertsData, now: nat, i: nat)
    requires data.alerts.None? && data.features.Some? && i < |data.features.value|
    requires ParseWeatherAlerts(data, now).Some?
    ensures ParseWeatherAlerts(data, now).value[i].coordinates == data.features.value[i].geometry
    ensures ParseWeatherAlerts(data, now).value[i].id == data.features.value[i].properties.value.id
  {
  }

  /** parseHurdatData: the text split on newlines, then the parsing loop. */
  method ParseHurdatData(csvData: string) returns (storms: seq<Hurdat.HurdatStorm>)
    ensures storms == Hurdat.Parse(Hurdat.JsKeptRows(Hurdat.Lines(csvData)), true)
  {
    storms := ParseHurdatLines(Hurdat.Lines(csvData));
  }

  /** The `for` loop of parseHurdatData: blank lines are skipped, there is no cap, and points keep their status. */
  method ParseHurdatLines(lines: seq<string>) returns (storms: seq<Hurdat.HurdatStorm>)
    ensures storms == Hurdat.Parse(Hurdat.JsKeptRows(lines), true)
  {
    var done: seq<Hurdat.HurdatStorm> := [];
    var current: Option<Hurdat.HurdatStorm> := None;
    for i := 0 to |lines|
      invariant Hurdat.Acc(done, current) == Hurdat.Run(Hurdat.JsKeptRows(lines[..i]), true)
    {
      Hurdat.JsRunStep(lines, i, true);
      if Text.JsTrim(lines[i]) == "" {
        continue;
      }
      done, current := Hurdat.Feed(done, current, Hurdat.JsFields(lines[i]), true);
    }
    assert lines[..|lines|] == lines;
    if current.Some? {
      done := done + [current.value];
    }
    storms := done;
  }

  /** Every track point lands on the most recent header before it: the loop agrees with the grouping reading. */
  lemma HurdatGrouped(csvData: string)
    ensures var rows := Hurdat.JsKeptRows(Hurdat.Lines(csvData));
      Hurdat.Parse(rows, true) == Hurdat.Groups(rows, true) && |Hurdat.Parse(rows, true)| == Hurdat.Headers(rows)
  {
    var rows := Hurdat.JsKeptRows(Hurdat.Lines(csvData));
    Hurdat.ParseIsGroups(rows, true);
    Hurdat.ParseCount(rows, true);
  }
}
