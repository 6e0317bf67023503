/**
 * The per-record normalisation the proxies apply to NHC storms and NWS alert
 * features, in the two forms the PHP variants use: the hardened one (unified
 * and secure proxies: sanitised strings, `(int)`/`(float)` casts, three-box
 * basin lookup) and the plain one (production proxy and api-proxy.php:
 * values copied as decoded, six-box basin lookup).
 *
 * `sanitizeString` is a parameter: its HTML escaping is not modelled. The
 * generated defaults (`'storm-' . time()`, `date('c')`) are passed through it
 * in the source; on those strings it changes nothing, so a default timestamp
 * is kept as the moment it prints.
 */
module Normalize {
  import opened Wrappers
  import opened Weather
  import Text

  const DefaultLat: real := 25.0
  const DefaultLon: real := -75.0
  const DefaultPressure: real := 1013.0

  /** `$data['activeStorms'] ?? $data['storms'] ?? []`. */
  function StormsOrEmpty(d: StormDoc): seq<RawStorm> {
    if d.activeStorms.Some? then d.activeStorms.value
    else if d.storms.Some? then d.storms.value
    else []
  }

  /** `isset($data['activeStorms'])`, else `isset($data['storms'])`, else nothing. */
  function PreferredStorms(d: StormDoc): Option<seq<RawStorm>> {
    if d.activeStorms.Some? then d.activeStorms else d.storms
  }

  /** The hardened storm normaliser of the unified and secure proxies. */
  function HardenedStorm(s: RawStorm, now: nat, sanitize: string -> string): (r: Storm)
    ensures r.classification == Classify(r.windSpeed)
    ensures r.basin == DetermineBasin3(r.coordinates.lat, r.coordinates.lon)
    ensures r.windSpeed == Trunc(s.windSpeed.GetOr(0.0)) as real
    ensures r.pressure == Trunc(s.pressure.GetOr(DefaultPressure)) as real
    ensures r.coordinates == Coord(s.lat.GetOr(DefaultLat), s.lon.GetOr(DefaultLon))
  {
    var lat := s.lat.GetOr(DefaultLat);
    var lon := s.lon.GetOr(DefaultLon);
    var wind := s.windSpeed.GetOr(0.0);
    ClassifyCastAgrees(Trunc(wind) as real);
    Storm(
      sanitize(s.id.GetOr("storm-" + Text.Decimal(now))),
      sanitize(s.name.GetOr("Unknown Storm")),
      DetermineBasin3(lat, lon),
      ClassifyCast(wind),
      Trunc(wind) as real,
      Trunc(s.pressure.GetOr(DefaultPressure)) as real,
      Coord(lat, lon),
      s.movementSpeed.GetOr(0.0),
      sanitize(s.movementDirection.GetOr("N")),
      if s.lastUpdate.Some? then Given(sanitize(s.lastUpdate.value)) else At(now),
      s.forecastTrack.GetOr([]))
  }

  /**
   * Every text field of a hardened storm is the sanitised input when the input
   * has it and the sanitised documented default when it does not; the speed,
   * the track and the update stamp are kept or defaulted the same way.
   */
  lemma HardenedStormFields(s: RawStorm, now: nat, sanitize: string -> string)
    ensures var r := HardenedStorm(s, now, sanitize);
      (s.id.Some? ==> r.id == sanitize(s.id.value)) &&
      (s.id.None? ==> r.id == sanitize("storm-" + Text.Decimal(now))) &&
      (s.name.Some? ==> r.name == sanitize(s.name.value)) &&
      (s.name.None? ==> r.name == sanitize("Unknown Storm")) &&
      (s.movementSpeed.Some? ==> r.movementSpeed == s.movementSpeed.value) &&
      (s.movementSpeed.None? ==> r.movementSpeed == 0.0) &&
      (s.movementDirection.Some? ==> r.movementDirection == sanitize(s.movementDirection.value)) &&
      (s.movementDirection.None? ==> r.movementDirection == sanitize("N")) &&
      (s.lastUpdate.Some? ==> r.lastUpdate == Given(sanitize(s.lastUpdate.value))) &&
      (s.lastUpdate.None? ==> r.lastUpdate == At(now)) &&
      (s.forecastTrack.Some? ==> r.forecastTrack == s.forecastTrack.value) &&
      (s.forecastTrack.None? ==> r.forecastTrack == [])
  {
  }

  /** A hardened storm without any field gets the documented defaults, each sanitised. */
  lemma HardenedStormDefaults(now: nat, sanitize: string -> string)
    ensures var r := HardenedStorm(RawStorm(None, None, None, None, None, None, None, None, None, None), now, sanitize);
      r == Storm(sanitize("storm-" + Text.Decimal(now)), sanitize("Unknown Storm"), Atlantic, TD, 0.0, 1013.0,
                 Coord(25.0, -75.0), 0.0, sanitize("N"), At(now), [])
  {
    assert Trunc(0.0) == 0 && Trunc(1013.0) == 1013;
  }

  /** The plain storm normaliser of the production proxy and api-proxy.php. */
  function PlainStorm(s: RawStorm, now: nat): (r: Storm)
    ensures r.classification == Classify(r.windSpeed)
    ensures r.basin == DetermineBasin6(r.coordinates.lat, r.coordinates.lon)
    ensures r.basin != SPC
    ensures r.windSpeed == s.windSpeed.GetOr(0.0)
    ensures r.coordinates == Coord(s.lat.GetOr(DefaultLat), s.lon.GetOr(DefaultLon))
    ensures s.id.None? ==> r.id == "storm-" + Text.Decimal(now)
  {
    var lat := s.lat.GetOr(DefaultLat);
    var lon := s.lon.GetOr(DefaultLon);
    var wind := s.windSpeed.GetOr(0.0);
    Storm(
      s.id.GetOr("storm-" + Text.Decimal(now)),
      s.name.GetOr("Unknown Storm"),
      DetermineBasin6(lat, lon),
      Classify(wind),
      wind,
      s.pressure.GetOr(DefaultPressure),
      Coord(lat, lon),
      s.movementSpeed.GetOr(0.0),
      s.movementDirection.GetOr("N"),
      if s.lastUpdate.Some? then Given(s.lastUpdate.value) else At(now),
      s.forecastTrack.GetOr([]))
  }

  /** Every field of a plain storm is the decoded value when present and the documented default when absent. */
  lemma PlainStormFields(s: RawStorm, now: nat)
    ensures var r := PlainStorm(s, now);
      (s.id.Some? ==> r.id == s.id.value) &&
      (s.id.None? ==> r.id == "storm-" + Text.Decimal(now)) &&
      (s.name.Some? ==> r.name == s.name.value) &&
      (s.name.None? ==> r.name == "Unknown Storm") &&
      (s.pressure.Some? ==> r.pressure == s.pressure.value) &&
      (s.pressure.None? ==> r.pressure == DefaultPressure) &&
      (s.movementSpeed.Some? ==> r.movementSpeed == s.movementSpeed.value) &&
      (s.movementSpeed.None? ==> r.movementSpeed == 0.0) &&
      (s.movementDirection.Some? ==> r.movementDirection == s.movementDirection.value) &&
      (s.movementDirection.None? ==> r.movementDirection == "N") &&
      (s.lastUpdate.Some? ==> r.lastUpdate == Given(s.lastUpdate.value)) &&
      (s.lastUpdate.None? ==> r.lastUpdate == At(now)) &&
      (s.forecastTrack.Some? ==> r.forecastTrack == s.forecastTrack.value) &&
      (s.forecastTrack.None? ==> r.forecastTrack == [])
  {
  }

  /** A storm without any field normalises to the documented defaults. */
  lemma PlainStormDefaults(now: nat)
    ensures var r := PlainStorm(RawStorm(None, None, None, None, None, None, None, None, None, None), now);
      r.name == "Unknown Storm" && r.basin == Atlantic && r.classification == TD &&
      r.pressure == 1013.0 && r.movementSpeed == 0.0 && r.movementDirection == "N" && r.lastUpdate == At(now) &&
      r.forecastTrack == []
  {
  }

  /** The hardened alert normaliser of the unified and secure proxies. */
  function HardenedAlert(f: Feature, now: nat, sanitize: string -> string): (r: Alert)
    ensures PropsOf(f).event.None? ==> r.title == sanitize("Weather Alert")
    ensures PropsOf(f).expires.None? ==> r.expires == At(now + DaySeconds)
    ensures PropsOf(f).sent.None? ==> r.issued == At(now)
  {
    var p := PropsOf(f);
    Alert(
      sanitize(p.id.GetOr("alert-" + Text.Decimal(now))),
      sanitize(p.event.GetOr("Weather Alert")),
      sanitize(p.description.GetOr("No description available")),
      sanitize(p.severity.GetOr("Unknown")),
      sanitize(p.urgency.GetOr("Unknown")),
      sanitize(p.areaDesc.GetOr("Unknown Area")),
      if p.sent.Some? then Given(sanitize(p.sent.value)) else At(now),
      if p.expires.Some? then Given(sanitize(p.expires.value)) else At(now + DaySeconds))
  }

  /**
   * Every field of a hardened alert is the sanitised property when the feature
   * has it and the sanitised documented default when it does not.
   */
  lemma HardenedAlertFields(f: Feature, now: nat, sanitize: string -> string)
    ensures var r, p := HardenedAlert(f, now, sanitize), PropsOf(f);
      (p.id.Some? ==> r.id == sanitize(p.id.value)) &&
      (p.id.None? ==> r.id == sanitize("alert-" + Text.Decimal(now))) &&
      (p.event.Some? ==> r.title == sanitize(p.event.value)) &&
      (p.event.None? ==> r.title == sanitize("Weather Alert")) &&
      (p.description.Some? ==> r.description == sanitize(p.description.value)) &&
      (p.description.None? ==> r.description == sanitize("No description available")) &&
      (p.severity.Some? ==> r.severity == sanitize(p.severity.value)) &&
      (p.severity.None? ==> r.severity == sanitize("Unknown")) &&
      (p.urgency.Some? ==> r.urgency == sanitize(p.urgency.value)) &&
      (p.urgency.None? ==> r.urgency == sanitize("Unknown")) &&
      (p.areaDesc.Some? ==> r.areas == sanitize(p.areaDesc.value)) &&
      (p.areaDesc.None? ==> r.areas == sanitize("Unknown Area")) &&
      (p.sent.Some? ==> r.issued == Given(sanitize(p.sent.value))) &&
      (p.sent.None? ==> r.issued == At(now)) &&
      (p.expires.Some? ==> r.expires == Given(sanitize(p.expires.value))) &&
      (p.expires.None? ==> r.expires == At(now + DaySeconds))
  {
  }

  /** A hardened alert from a feature without properties gets every documented default, each sanitised. */
  lemma HardenedAlertDefaults(now: nat, sanitize: string -> string)
    ensures HardenedAlert(Feature(None, None), now, sanitize) ==
      Alert(sanitize("alert-" + Text.Decimal(now)), sanitize("Weather Alert"), sanitize("No description available"),
            sanitize("Unknown"), sanitize("Unknown"), sanitize("Unknown Area"), At(now), At(now + DaySeconds))
  {
  }

  /** The plain alert normaliser of the production proxy and api-proxy.php. */
  function PlainAlert(f: Feature, now: nat): (r: Alert)
    ensures PropsOf(f).id.Some? ==> r.id == PropsOf(f).id.value
    ensures PropsOf(f).id.None? ==> r.id == "alert-" + Text.Decimal(now)
    ensures PropsOf(f).expires.None? ==> r.expires == At(now + DaySeconds)
  {
    var p := PropsOf(f);
    Alert(
      p.id.GetOr("alert-" + Text.Decimal(now)),
      p.event.GetOr("Weather Alert"),
      p.description.GetOr("No description available"),
      p.severity.GetOr("Unknown"),
      p.urgency.GetOr("Unknown"),
      p.areaDesc.GetOr("Unknown Area"),
      if p.sent.Some? then Given(p.sent.value) else At(now),
      if p.expires.Some? then Given(p.expires.value) else At(now + DaySeconds))
  }

  /** Every field of a plain alert is the property when present and the documented default when absent. */
  lemma PlainAlertFields(f: Feature, now: nat)
    ensures var r, p := PlainAlert(f, now), PropsOf(f);
      (p.id.Some? ==> r.id == p.id.value) &&
      (p.id.None? ==> r.id == "alert-" + Text.Decimal(now)) &&
      (p.event.Some? ==> r.title == p.event.value) &&
      (p.event.None? ==> r.title == "Weather Alert") &&
      (p.description.Some? ==> r.description == p.description.value) &&
      (p.description.None? ==> r.description == "No description available") &&
      (p.severity.Some? ==> r.severity == p.severity.value) &&
      (p.severity.None? ==> r.severity == "Unknown") &&
      (p.urgency.Some? ==> r.urgency == p.urgency.value) &&
      (p.urgency.None? ==> r.urgency == "Unknown") &&
      (p.areaDesc.Some? ==> r.areas == p.areaDesc.value) &&
      (p.areaDesc.None? ==> r.areas == "Unknown Area") &&
      (p.sent.Some? ==> r.issued == Given(p.sent.value)) &&
      (p.sent.None? ==> r.issued == At(now)) &&
      (p.expires.Some? ==> r.expires == Given(p.expires.value)) &&
      (p.expires.None? ==> r.expires == At(now + DaySeconds))
  {
  }

  /** A feature without properties gets every documented default. */
  lemma PlainAlertDefaults(now: nat)
    ensures PlainAlert(Feature(None, None), now) ==
      Alert("alert-" + Text.Decimal(now), "Weather Alert", "No description available", "Unknown", "Unknown",
            "Unknown Area", At(now), At(now + DaySeconds))
  {
  }

  /** `f` applied to each element, in order. */
  function Mapped<A, B>(xs: seq<A>, f: A -> B): seq<B> {
    seq(|xs|, i requires 0 <= i < |xs| => f(xs[i]))
  }

  /** The `foreach ... $out[] = f($x)` loop every processor runs: one output per input, in order. */
  method MapEach<A, B>(xs: seq<A>, f: A -> B) returns (ys: seq<B>)
    ensures |ys| == |xs|
    ensures forall i :: 0 <= i < |xs| ==> ys[i] == f(xs[i])
    ensures ys == Mapped(xs, f)
  {
    ys := [];
    var i := 0;
    while i < |xs|
      invariant 0 <= i <= |xs|
      invariant |ys| == i
      invariant forall j :: 0 <= j < i ==> ys[j] == f(xs[j])
    {
      ys := ys + [f(xs[i])];
      i := i + 1;
    }
  }
}
