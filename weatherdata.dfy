/**
 * weather-data.js: the browser's data manager. It keeps an in-memory cache
 * from string keys to timestamped data, answers each fetch from the cache
 * while the entry is younger than the fetch's refresh interval, and
 * periodically expires old entries and evicts the oldest beyond a size cap.
 * Times are milliseconds; what the network returned is a parameter.
 */
module WeatherData {
  import opened Wrappers
  import opened Weather
  import Text
  import NoaaApi

  // ---------------------------------------------------------------------
  // Configuration (config.js) the manager reads.

  const ActiveStormsInterval: int := 300000
  const SatelliteImageryInterval: int := 900000
  const ForecastModelsInterval: int := 3600000
  const CacheDuration: int := 300000
  const MaxCacheSize: nat := 100

  /** One entry of the storm-category table: an inclusive wind range and its labels. */
  datatype CategoryEntry = CategoryEntry(key: string, name: string, minWind: real, maxWind: real, color: string)

  /** The storm-category table of the configuration, in its declared order. */
  const StormCategories: seq<CategoryEntry> := [
    CategoryEntry("TD", "Tropical Depression", 0.0, 38.0, "#64748b"),
    CategoryEntry("TS", "Tropical Storm", 39.0, 73.0, "#06b6d4"),
    CategoryEntry("CAT1", "Category 1", 74.0, 95.0, "#fbbf24"),
    CategoryEntry("CAT2", "Category 2", 96.0, 110.0, "#f97316"),
    CategoryEntry("CAT3", "Category 3", 111.0, 129.0, "#ef4444"),
    CategoryEntry("CAT4", "Category 4", 130.0, 156.0, "#dc2626"),
    CategoryEntry("CAT5", "Category 5", 157.0, 999.0, "#7c2d12")]

  /** One forecast model of the configuration. */
  datatype ModelInfo = ModelInfo(key: string, name: string, provider: string, accuracy: int)

  /** The forecast-model table of the configuration, in its declared order. */
  const ForecastModels: seq<ModelInfo> := [
    ModelInfo("GFS", "Global Forecast System", "NOAA", 85),
    ModelInfo("ECMWF", "European Centre Model", "ECMWF", 88),
    ModelInfo("HWRF", "Hurricane Weather Research", "NOAA", 82),
    ModelInfo("HMON", "Hurricane Multi-scale Ocean", "NOAA", 79),
    ModelInfo("NHCOCS", "NHC Official Consensus", "NHC", 91),
    ModelInfo("SHIPS", "Statistical Hurricane Intensity", "NHC", 76),
    ModelInfo("LGEM", "Logistic Growth Equation", "NHC", 74)]

  // ---------------------------------------------------------------------
  // classifyStorm: the table-driven classifier.

  predicate InRange(c: CategoryEntry, w: real) { c.minWind <= w <= c.maxWind }

  /** The index of the first entry whose range holds `w`, or the table length when none does. */
  function FirstMatch(table: seq<CategoryEntry>, w: real): (k: nat)
    ensures k <= |table|
    ensures forall j :: 0 <= j < k ==> !InRange(table[j], w)
    ensures k < |table| ==> InRange(table[k], w)
  {
    if table == [] then 0
    else if InRange(table[0], w) then 0
    else 1 + FirstMatch(table[1..], w)
  }

  /** The entry named `key`, as `categories[key]` reads it. */
  function Named(table: seq<CategoryEntry>, key: string): Option<CategoryEntry> {
    if table == [] then None
    else if table[0].key == key then Some(table[0])
    else Named(table[1..], key)
  }

  /**
   * What classifyStorm returns: the matching entry's code, name and colour,
   * or, when no range holds the speed, the table's `TD` entry itself.
   */
  datatype Classification = Labels(code: string, name: string, color: string) | TdEntry(entry: Option<CategoryEntry>)

  function TableClassify(table: seq<CategoryEntry>, w: real): Classification {
    var k := FirstMatch(table, w);
    if k < |table| then Labels(table[k].key, table[k].name, table[k].color) else TdEntry(Named(table, "TD"))
  }

  /** classifyStorm: the loop over the table, returning at the first range that holds the speed. */
  method ClassifyStorm(table: seq<CategoryEntry>, w: real) returns (c: Classification)
    ensures c == TableClassify(table, w)
    ensures c.Labels? <==> exists i :: 0 <= i < |table| && InRange(table[i], w)
  {
    for i := 0 to |table|
      invariant forall j :: 0 <= j < i ==> !InRange(table[j], w)
    {
      if InRange(table[i], w) {
        return Labels(table[i].key, table[i].name, table[i].color);
      }
    }
    return TdEntry(Named(table, "TD"));
  }

  /**
   * With the configured table, every whole speed from 0 to 999 lies in exactly
   * one range, and the labels are those of the fixed-threshold classifier.
   */
  lemma ConfiguredTableAgrees(w: int)
    requires 0 <= w <= 999
    ensures forall i, j :: 0 <= i < j < |StormCategories| ==>
      !(InRange(StormCategories[i], w as real) && InRange(StormCategories[j], w as real))
    ensures var c := Classify(w as real);
      TableClassify(StormCategories, w as real) == Labels(c.Code(), c.Name(), c.Color())
  {
    var x := w as real;
    var t := StormCategories;
    if w <= 38 { assert InRange(t[0], x); }
    else if w <= 73 { assert InRange(t[1], x); }
    else if w <= 95 { assert InRange(t[2], x); }
    else if w <= 110 { assert InRange(t[3], x); }
    else if w <= 129 { assert InRange(t[4], x); }
    else if w <= 156 { assert InRange(t[5], x); }
    else { assert InRange(t[6], x); }
  }

  /** Speeds between two whole-number ranges, and speeds above 999, match nothing and get the TD entry. */
  lemma GapsGetTdEntry(w: real)
    requires 73.0 < w < 74.0 || w > 999.0 || w < 0.0
    ensures TableClassify(StormCategories, w) == TdEntry(Some(StormCategories[0]))
  {
  }

  // ---------------------------------------------------------------------
  // Fallback data.

  /** getFallbackStormData: one storm, classified by the table. */
  function FallbackStormData(now: int): seq<NoaaApi.ClientStorm> {
    [NoaaApi.ClientStorm(
      Storm("demo-storm-1", "Demo Storm Alpha", Atlantic, Cat1, 85.0, 975.0, Coord(25.4, -76.2), 12.0, "NNW",
            At(now), [Coord(25.4, -76.2), Coord(26.1, -76.8), Coord(26.8, -77.4)]),
      None, None)]
  }

  /** The fallback storm's category is what the table gives for a wind of 85, and its basin is the atlantic one. */
  lemma FallbackStormConsistent(now: int)
    ensures var s := FallbackStormData(now)[0].storm;
      TableClassify(StormCategories, s.windSpeed) ==
        Labels(s.classification.Code(), s.classification.Name(), s.classification.Color()) &&
      s.basin == DetermineBasin6(s.coordinates.lat, s.coordinates.lon)
  {
    ConfiguredTableAgrees(85);
  }

  /** One forecast model's run: its name, accuracy, time and track. */
  datatype ModelRun = ModelRun(name: string, accuracy: int, lastUpdate: Stamp, track: seq<Coord>)

  /** getFallbackModelData: one entry per configured model, in order, each with an empty track. */
  function FallbackModelData(models: seq<ModelInfo>, now: int): (r: seq<ModelRun>)
    ensures |r| == |models|
    ensures forall i :: 0 <= i < |models| ==>
      r[i].name == models[i].key && r[i].accuracy == models[i].accuracy && r[i].track == []
  {
    seq(|models|, i requires 0 <= i < |models| => ModelRun(models[i].key, models[i].accuracy, At(now), []))
  }

  /** With the configuration, the fallback names the seven models in their declared order. */
  lemma FallbackModelsNamed(now: int)
    ensures var r := FallbackModelData(ForecastModels, now);
      |r| == 7 && [r[0].name, r[1].name, r[2].name, r[3].name, r[4].name, r[5].name, r[6].name] ==
        ["GFS", "ECMWF", "HWRF", "HMON", "NHCOCS", "SHIPS", "LGEM"]
  {
  }

  // ---------------------------------------------------------------------
  // The cache.

  /** What the fetchers store. */
  datatype Data =
    | StormList(storms: seq<NoaaApi.ClientStorm>)
    | ModelList(models: seq<ModelRun>)
    | Layer(descriptor: string)
    | AlertList(alerts: seq<NoaaApi.ClientAlert>)
  {
    function Kind(): Kind {
      match this
      case StormList(_) => StormKind
      case ModelList(_) => ModelKind
      case Layer(_) => LayerKind
      case AlertList(_) => AlertKind
    }
  }

  datatype Kind = StormKind | ModelKind | LayerKind | AlertKind | NoKind

  /** The kind of data a key holds, read off its prefix. */
  function KindOfKey(key: string): Kind {
    if key == "active-storms" then StormKind
    else if |key| >= 16 && key[..16] == "forecast-models-" then ModelKind
    else if |key| >= 10 && key[..10] == "satellite-" then LayerKind
    else if |key| >= 7 && key[..7] == "alerts-" then AlertKind
    else NoKind
  }

  datatype Entry = Entry(data: Data, timestamp: int)

  /** A cached value answers while it is younger than the interval. */
  predicate Fresh(c: map<string, Entry>, key: string, interval: int, now: int) {
    key in c && now - c[key].timestamp < interval
  }

  function ModelsKey(stormId: string): string { "forecast-models-" + stormId }
  function SatelliteKey(layer: string, bounds: seq<string>): string { "satellite-" + layer + "-" + Text.Join(bounds, '-') }
  function AlertsKey(region: string): string { "alerts-" + region }

  lemma KeyKinds(stormId: string, layer: string, bounds: seq<string>, region: string)
    ensures KindOfKey("active-storms") == StormKind
    ensures KindOfKey(ModelsKey(stormId)) == ModelKind
    ensures KindOfKey(SatelliteKey(layer, bounds)) == LayerKind
    ensures KindOfKey(AlertsKey(region)) == AlertKind
  {
    assert ModelsKey(stormId)[..16] == "forecast-models-";
    var s := SatelliteKey(layer, bounds);
    assert s[..10] == "satellite-";
    assert s[0] == 's';
    var a := AlertsKey(region);
    assert a[..7] == "alerts-";
    assert a[0] == 'a' && a[1] == 'l';
  }

  /** Keys are strings, so a layer name holding a dash can reach another layer's entry. */
  lemma LayerKeysCollide()
    ensures SatelliteKey("wind-1", ["2"]) == SatelliteKey("wind", ["1", "2"])
  {
    assert Text.Join(["1", "2"], '-') == "1" + "-" + Text.Join(["2"], '-');
  }

  /** The layers fetchSatelliteImagery knows. */
  predicate KnownLayer(layer: string) {
    layer == "satellite" || layer == "radar" || layer == "wind" || layer == "pressure" || layer == "sst"
  }

  /** The entries cleanupCache keeps in its first pass: those not older than the cache duration. */
  function Live(c: map<string, Entry>, now: int): (r: map<string, Entry>)
    ensures forall k :: k in r <==> k in c && now - c[k].timestamp <= CacheDuration
    ensures forall k :: k in r ==> r[k] == c[k]
  {
    map k | k in c && now - c[k].timestamp <= CacheDuration :: c[k]
  }

  class WeatherDataManager {
    var cache: map<string, Entry>

    /** Every key holds the kind of data its fetcher stores. */
    predicate Valid()
      reads this
    {
      forall k :: k in cache ==> cache[k].data.Kind() == KindOfKey(k)
    }

    constructor()
      ensures cache == map[] && Valid()
    {
      cache := map[];
    }

    /**
     * The read-through pattern of the fetchers: a fresh entry answers; otherwise
     * the fetched value, when the fetch succeeded, is stored with the current time.
     */
    method ReadThrough(key: string, interval: int, now: int, fetched: Option<Data>) returns (d: Option<Data>)
      requires Valid()
      requires fetched.Some? ==> fetched.value.Kind() == KindOfKey(key)
      modifies this
      ensures Valid()
      ensures d.Some? ==> d.value.Kind() == KindOfKey(key)
      ensures Fresh(old(cache), key, interval, now) ==> d == Some(old(cache)[key].data) && cache == old(cache)
      ensures !Fresh(old(cache), key, interval, now) ==>
        d == fetched && cache == (if fetched.Some? then old(cache)[key := Entry(fetched.value, now)] else old(cache))
    {
      if key in cache && now - cache[key].timestamp < interval {
        return Some(cache[key].data);
      }
      if fetched.Some? {
        cache := cache[key := Entry(fetched.value, now)];
      }
      d := fetched;
    }

    /** fetchActiveStorms: cached for five minutes; a failed fetch answers the fallback storm and stores nothing. */
    method FetchActiveStorms(now: int, fetched: Option<seq<NoaaApi.ClientStorm>>) returns (storms: seq<NoaaApi.ClientStorm>)
      requires Valid()
      modifies this
      ensures Valid()
      ensures Fresh(old(cache), "active-storms", ActiveStormsInterval, now) ==>
        StormList(storms) == old(cache)["active-storms"].data && cache == old(cache)
      ensures !Fresh(old(cache), "active-storms", ActiveStormsInterval, now) ==>
        (fetched.Some? ==> storms == fetched.value && cache == old(cache)["active-storms" := Entry(StormList(storms), now)]) &&
        (fetched.None? ==> storms == FallbackStormData(now) && cache == old(cache))
    {
      KeyKinds("", "", [], "");
      var d := ReadThrough("active-storms", ActiveStormsInterval, now,
                           if fetched.Some? then Some(StormList(fetched.value)) else None);
      storms := if d.Some? then d.value.storms else FallbackStormData(now);
    }

    /** fetchForecastModels: cached for an hour per storm; a failed fetch answers the fallback models. */
    method FetchForecastModels(stormId: string, now: int, fetched: Option<seq<ModelRun>>) returns (models: seq<ModelRun>)
      requires Valid()
      modifies this
      ensures Valid()
      ensures var key := ModelsKey(stormId);
        (Fresh(old(cache), key, ForecastModelsInterval, now) ==>
          ModelList(models) == old(cache)[key].data && cache == old(cache)) &&
        (!Fresh(old(cache), key, ForecastModelsInterval, now) ==>
          (fetched.Some? ==> models == fetched.value && cache == old(cache)[key := Entry(ModelList(models), now)]) &&
          (fetched.None? ==> models == FallbackModelData(ForecastModels, now) && cache == old(cache)))
    {
      KeyKinds(stormId, "", [], "");
      var d := ReadThrough(ModelsKey(stormId), ForecastModelsInterval, now,
                           if fetched.Some? then Some(ModelList(fetched.value)) else None);
      models := if d.Some? then d.value.models else FallbackModelData(ForecastModels, now);
    }

    /**
     * fetchSatelliteImagery: cached for fifteen minutes per layer and bounds. A
     * known layer's fetcher always answers (it has its own fallback); an
     * unknown layer answers null and stores nothing.
     */
    method FetchSatelliteImagery(layer: string, bounds: seq<string>, now: int, descriptor: string)
      returns (image: Option<string>)
      requires Valid()
      modifies this
      ensures Valid()
      ensures var key := SatelliteKey(layer, bounds);
        (Fresh(old(cache), key, SatelliteImageryInterval, now) ==>
          image.Some? && Layer(image.value) == old(cache)[key].data && cache == old(cache)) &&
        (!Fresh(old(cache), key, SatelliteImageryInterval, now) && KnownLayer(layer) ==>
          image == Some(descriptor) && cache == old(cache)[key := Entry(Layer(descriptor), now)]) &&
        (!Fresh(old(cache), key, SatelliteImageryInterval, now) && !KnownLayer(layer) ==>
          image == None && cache == old(cache))
    {
      KeyKinds("", layer, bounds, "");
      var d := ReadThrough(SatelliteKey(layer, bounds), SatelliteImageryInterval, now,
                           if KnownLayer(layer) then Some(Layer(descriptor)) else None);
      image := if d.Some? then Some(d.value.descriptor) else None;
    }

    /** fetchWeatherAlerts: cached for five minutes per region; a failed fetch answers no alerts. */
    method FetchWeatherAlerts(region: string, now: int, fetched: Option<seq<NoaaApi.ClientAlert>>)
      returns (alerts: seq<NoaaApi.ClientAlert>)
      requires Valid()
      modifies this
      ensures Valid()
      ensures var key := AlertsKey(region);
        (Fresh(old(cache), key, ActiveStormsInterval, now) ==>
          AlertList(alerts) == old(cache)[key].data && cache == old(cache)) &&
        (!Fresh(old(cache), key, ActiveStormsInterval, now) ==>
          (fetched.Some? ==> alerts == fetched.value && cache == old(cache)[key := Entry(AlertList(alerts), now)]) &&
          (fetched.None? ==> alerts == [] && cache == old(cache)))
    {
      KeyKinds("", "", [], region);
      var d := ReadThrough(AlertsKey(region), ActiveStormsInterval, now,
                           if fetched.Some? then Some(AlertList(fetched.value)) else None);
      alerts := if d.Some? then d.value.alerts else [];
    }

    /**
     * cleanupCache: first every entry older than the cache duration is
     * deleted; then, while more than the size cap remain, an oldest entry is
     * deleted. What is left was live, is unchanged, numbers at most the cap,
     * and is never older than an evicted live entry.
     */
    method CleanupCache(now: int)
      requires Valid()
      modifies this
      ensures Valid()
      ensures forall k :: k in cache ==> k in old(cache) && cache[k] == old(cache)[k]
      ensures forall k :: k in cache ==> now - cache[k].timestamp <= CacheDuration
      ensures |cache| == if |Live(old(cache), now)| <= MaxCacheSize then |Live(old(cache), now)| else MaxCacheSize
      ensures |Live(old(cache), now)| <= MaxCacheSize ==> cache == Live(old(cache), now)
      ensures forall k, e :: k in cache && e in Live(old(cache), now) && e !in cache ==>
        old(cache)[e].timestamp <= cache[k].timestamp
    {
      ExpireOld(now);
      ghost var live := cache;
      while |cache| > MaxCacheSize
        invariant Valid()
        invariant forall k :: k in cache ==> k in live && cache[k] == live[k]
        invariant |live| <= MaxCacheSize ==> cache == live
        invariant |live| > MaxCacheSize ==> |cache| >= MaxCacheSize
        invariant forall k, e :: k in cache && e in live && e !in cache ==> live[e].timestamp <= cache[k].timestamp
        decreases |cache|
      {
        var oldest := OldestKey(cache);
        Shrink(cache, oldest);
        cache := cache - {oldest};
      }
    }

    /** The first loop of cleanupCache: every entry older than the cache duration is deleted. */
    method ExpireOld(now: int)
      requires Valid()
      modifies this
      ensures Valid()
      ensures cache == Live(old(cache), now)
    {
      var pending := cache.Keys;
      while pending != {}
        invariant Valid()
        invariant pending <= old(cache).Keys
        invariant forall k :: k in cache <==> k in old(cache) && (k in pending || now - old(cache)[k].timestamp <= CacheDuration)
        invariant forall k :: k in cache ==> cache[k] == old(cache)[k]
        decreases |pending|
      {
        var k :| k in pending;
        if now - cache[k].timestamp > CacheDuration {
          cache := cache - {k};
        }
        pending := pending - {k};
      }
    }
  }

  /** A key of a non-empty map whose entry is the oldest. */
  method OldestKey(m: map<string, Entry>) returns (oldest: string)
    requires |m| > 0
    ensures oldest in m
    ensures forall k :: k in m ==> m[oldest].timestamp <= m[k].timestamp
  {
    var keys := m.Keys;
    oldest :| oldest in keys;
    while keys != {}
      invariant oldest in m && keys <= m.Keys
      invariant forall k :: k in m && k !in keys ==> m[oldest].timestamp <= m[k].timestamp
      decreases |keys|
    {
      var k :| k in keys;
      if m[k].timestamp < m[oldest].timestamp {
        oldest := k;
      }
      keys := keys - {k};
    }
  }

  /** Deleting a present key shrinks a map by one. */
  lemma Shrink(m: map<string, Entry>, k: string)
    requires k in m
    ensures |m - {k}| == |m| - 1
  {
    assert (m - {k}).Keys == m.Keys - {k};
    assert |m.Keys| == |m|;
    assert |(m - {k}).Keys| == |m - {k}|;
  }
}
