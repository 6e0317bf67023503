/**
 * The domain shared by every proxy variant and by the browser client:
 * Saffir-Simpson categories, ocean basins, and the normalised storm and
 * alert records together with the raw, already-decoded upstream shapes
 * they are built from.
 */
module Weather {
  import opened Wrappers

  /** The seven storm categories, lowest first. */
  datatype Category = TD | TS | Cat1 | Cat2 | Cat3 | Cat4 | Cat5 {
    function Code(): string {
      match this
      case TD => "TD" case TS => "TS" case Cat1 => "CAT1" case Cat2 => "CAT2"
      case Cat3 => "CAT3" case Cat4 => "CAT4" case Cat5 => "CAT5"
    }
    function Name(): string {
      match this
      case TD => "Tropical Depression" case TS => "Tropical Storm"
      case Cat1 => "Category 1" case Cat2 => "Category 2" case Cat3 => "Category 3"
      case Cat4 => "Category 4" case Cat5 => "Category 5"
    }
    function Color(): string {
      match this
      case TD => "#64748b" case TS => "#06b6d4" case Cat1 => "#fbbf24" case Cat2 => "#f97316"
      case Cat3 => "#ef4444" case Cat4 => "#dc2626" case Cat5 => "#7c2d12"
    }
    /** Position in the scale, 0 for TD up to 6 for CAT5. */
    function Rank(): nat {
      match this
      case TD => 0 case TS => 1 case Cat1 => 2 case Cat2 => 3
      case Cat3 => 4 case Cat4 => 5 case Cat5 => 6
    }
  }

  /** Lower wind bound (inclusive) of each category; TD has none. */
  function LowerBound(c: Category): real {
    match c
    case TD => -1.0 case TS => 39.0 case Cat1 => 74.0 case Cat2 => 96.0
    case Cat3 => 111.0 case Cat4 => 130.0 case Cat5 => 157.0
  }

  /** Upper wind bound (exclusive) of each category; CAT5 has none. */
  function UpperBound(c: Category): real {
    match c
    case TD => 39.0 case TS => 74.0 case Cat1 => 96.0 case Cat2 => 111.0
    case Cat3 => 130.0 case Cat4 => 157.0 case Cat5 => 1000000.0
  }

  /**
   * classifyStorm: the first category whose exclusive upper bound exceeds the
   * wind speed, with CAT5 as the catch-all.
   */
  function Classify(w: real): (c: Category)
    ensures c != TD ==> LowerBound(c) <= w
    ensures c != Cat5 ==> w < UpperBound(c)
  {
    if w < 39.0 then TD
    else if w < 74.0 then TS
    else if w < 96.0 then Cat1
    else if w < 111.0 then Cat2
    else if w < 130.0 then Cat3
    else if w < 157.0 then Cat4
    else Cat5
  }

  /** A higher wind speed never yields a lower category. */
  lemma ClassifyMonotone(w1: real, w2: real)
    requires w1 <= w2
    ensures Classify(w1).Rank() <= Classify(w2).Rank()
  {
  }

  /** Exactly one category holds a given speed: its band is [LowerBound, UpperBound). */
  lemma ClassifyBand(w: real, c: Category)
    requires c == TD || LowerBound(c) <= w
    requires c == Cat5 || w < UpperBound(c)
    ensures Classify(w) == c
  {
  }

  /** PHP's `(int)` cast of a float: truncation toward zero. */
  function Trunc(x: real): (n: int)
    ensures x >= 0.0 ==> n as real <= x < n as real + 1.0
    ensures x < 0.0 ==> n as real - 1.0 < x <= n as real
  {
    if x >= 0.0 then x.Floor else -((-x).Floor)
  }

  /** classifyStorm as the hardened variants call it, after an `(int)` cast. */
  function ClassifyCast(w: real): Category {
    Classify(Trunc(w) as real)
  }

  /** Because every threshold is a whole number, the `(int)` cast never changes the category. */
  lemma ClassifyCastAgrees(w: real)
    ensures ClassifyCast(w) == Classify(w)
  {
    var n := Trunc(w);
    if w >= 0.0 {
      assert n as real <= w < n as real + 1.0;
    } else {
      assert n <= 0;
    }
  }

  /** The ocean basins the normalised records name. */
  datatype Basin = Atlantic | EPac | WPac | NIO | SIO | SPC

  /** An open latitude/longitude box test, as every `determineBasin` writes it. */
  predicate InBox(lat: real, lon: real, latLo: real, latHi: real, lonLo: real, lonHi: real) {
    latLo < lat < latHi && lonLo < lon < lonHi
  }

  predicate InAtlantic(lat: real, lon: real) { InBox(lat, lon, 0.0, 60.0, -100.0, 0.0) }
  predicate InEPac(lat: real, lon: real)     { InBox(lat, lon, 0.0, 60.0, -180.0, -80.0) }
  predicate InWPac(lat: real, lon: real)     { InBox(lat, lon, -5.0, 50.0, 100.0, 180.0) }
  predicate InNIO(lat: real, lon: real)      { InBox(lat, lon, 0.0, 35.0, 40.0, 100.0) }
  predicate InSIO(lat: real, lon: real)      { InBox(lat, lon, -50.0, 0.0, 20.0, 115.0) }
  /** The South Pacific box as written: its longitude range (135, -120) is empty. */
  predicate InSPC(lat: real, lon: real)      { InBox(lat, lon, -50.0, 0.0, 135.0, -120.0) }

  /** determineBasin with three boxes (the unified and secure proxies). */
  function DetermineBasin3(lat: real, lon: real): (b: Basin)
    ensures b == Atlantic || b == EPac || b == WPac
    ensures b == EPac <==> !InAtlantic(lat, lon) && InEPac(lat, lon)
    ensures b == WPac <==> !InAtlantic(lat, lon) && !InEPac(lat, lon) && InWPac(lat, lon)
  {
    if InAtlantic(lat, lon) then Atlantic
    else if InEPac(lat, lon) then EPac
    else if InWPac(lat, lon) then WPac
    else Atlantic
  }

  /** determineBasin with six boxes (api-proxy.php, the production proxy, the browser client). */
  function DetermineBasin6(lat: real, lon: real): (b: Basin)
    ensures b != SPC
  {
    if InAtlantic(lat, lon) then Atlantic
    else if InEPac(lat, lon) then EPac
    else if InWPac(lat, lon) then WPac
    else if InNIO(lat, lon) then NIO
    else if InSIO(lat, lon) then SIO
    else if InSPC(lat, lon) then SPC
    else Atlantic
  }

  /** No coordinate lies in the South Pacific box as written. */
  lemma SpcBoxEmpty(lat: real, lon: real)
    ensures !InSPC(lat, lon)
  {
  }

  /** Where the atlantic and epac boxes overlap, atlantic wins because it is tested first. */
  lemma OverlapIsAtlantic(lat: real, lon: real)
    requires 0.0 < lat < 60.0 && -100.0 < lon < -80.0
    ensures DetermineBasin3(lat, lon) == Atlantic && DetermineBasin6(lat, lon) == Atlantic
  {
  }

  /**
   * The six-box lookup differs from the three-box one exactly on points outside
   * the first three boxes that fall in the nio or sio box.
   */
  lemma Basin6VersusBasin3(lat: real, lon: real)
    ensures DetermineBasin6(lat, lon) != DetermineBasin3(lat, lon) <==>
      !InAtlantic(lat, lon) && !InEPac(lat, lon) && !InWPac(lat, lon) &&
      (InNIO(lat, lon) || InSIO(lat, lon))
    ensures DetermineBasin6(lat, lon) != DetermineBasin3(lat, lon) ==>
      DetermineBasin3(lat, lon) == Atlantic && (DetermineBasin6(lat, lon) == NIO || DetermineBasin6(lat, lon) == SIO)
  {
  }

  /** A point on the map. */
  datatype Coord = Coord(lat: real, lon: real)

  /** A timestamp field: a string copied from upstream, or `date('c')` / `toISOString()` of a moment. */
  datatype Stamp = Given(text: string) | At(time: int)

  /** The normalised storm record every variant emits. */
  datatype Storm = Storm(
    id: string,
    name: string,
    basin: Basin,
    classification: Category,
    windSpeed: real,
    pressure: real,
    coordinates: Coord,
    movementSpeed: real,
    movementDirection: string,
    lastUpdate: Stamp,
    forecastTrack: seq<Coord>)

  /** One storm object of an NHC feed after `json_decode`: absent or null keys are None. */
  datatype RawStorm = RawStorm(
    id: Option<string>,
    name: Option<string>,
    lat: Option<real>,
    lon: Option<real>,
    windSpeed: Option<real>,
    pressure: Option<real>,
    movementSpeed: Option<real>,
    movementDirection: Option<string>,
    lastUpdate: Option<string>,
    forecastTrack: Option<seq<Coord>>)

  /**
   * A decoded NHC feed: its `activeStorms` and `storms` entries (None when absent
   * or null) and whether the decoded array holds any other entry, which decides
   * PHP's truthiness of the whole document.
   */
  datatype StormDoc = StormDoc(activeStorms: Option<seq<RawStorm>>, storms: Option<seq<RawStorm>>, otherEntries: bool)

  /** PHP's `!$data` on a decoded feed: undecodable, or an empty array. */
  predicate StormDocFalsy(d: Option<StormDoc>) {
    d.None? || (d.value.activeStorms.None? && d.value.storms.None? && !d.value.otherEntries)
  }

  /** The normalised alert record. */
  datatype Alert = Alert(
    id: string,
    title: string,
    description: string,
    severity: string,
    urgency: string,
    areas: string,
    issued: Stamp,
    expires: Stamp)

  /** The `properties` object of one NWS alert feature. */
  datatype AlertProps = AlertProps(
    id: Option<string>,
    event: Option<string>,
    description: Option<string>,
    severity: Option<string>,
    urgency: Option<string>,
    areaDesc: Option<string>,
    sent: Option<string>,
    expires: Option<string>)

  /**
   * One feature: its `properties` object (in PHP a missing one reads every
   * property as null) and the coordinates of its `geometry`, if any.
   */
  datatype Feature = Feature(properties: Option<AlertProps>, geometry: Option<seq<Coord>>)

  /** A decoded NWS feed: only its `features` entry is read. */
  datatype AlertDoc = AlertDoc(features: Option<seq<Feature>>)

  /** The properties of a feature, with a missing object read as all-null. */
  function PropsOf(f: Feature): AlertProps {
    f.properties.GetOr(AlertProps(None, None, None, None, None, None, None, None))
  }

  const DaySeconds: int := 86400
}
