/**
 * The proxy's cache directory, shared by cached responses and per-client rate
 * records: freshness, write-then-rename, the `*.json` sweep and the
 * windowed rate check of the hardened proxies.
 *
 * File names are kept abstract: a hash of the client address or of the
 * endpoint and its ordered parameters is modelled by the value hashed.
 */
module Store {
  import opened Wrappers
  import Http

  /** What the cache key hashes: the endpoint name and the parameters, in order. */
  datatype CacheKey = CacheKey(endpoint: string, params: Http.Query)

  datatype FileName =
    | RateFile(client: string)   // rate_<hash>.json
    | CacheFile(key: CacheKey)   // <hash>.json
    | TempFile(key: CacheKey)    // <hash>.json.tmp
  {
    /** Matched by the sweep's `*.json` pattern: rate records and cache files, not temporaries. */
    predicate IsJson() { !TempFile? }
  }

  /** A decoded rate record; a key that is absent or null reads as None. */
  datatype RateRecord = RateRecord(timestamp: Option<int>, count: Option<int>)

  datatype Content = Rate(record: RateRecord) | Cached(body: Http.Body)

  datatype File = File(content: Content, mtime: int)

  /** Rate files hold rate records and every other file a cached body, as the writers leave them. */
  predicate Consistent(files: map<FileName, File>) {
    forall n :: n in files ==> (n.RateFile? <==> files[n].content.Rate?)
  }

  /** The body a cache file holds; a consistent directory holds no other kind of cache file. */
  function BodyOf(f: File): Http.Body {
    if f.content.Cached? then f.content.body else Http.Empty
  }

  const CacheExpiry: int := 300
  const SweepAge: int := 600
  const RateLimit: int := 60
  const RateWindow: int := 60

  /** The cache-hit test: the file is younger than the expiry, strictly. */
  predicate Fresh(f: File, now: int, expiry: int) {
    now - f.mtime < expiry
  }

  /** A file the sweep deletes. */
  predicate Doomed(n: FileName, f: File, now: int, maxAge: int) {
    n.IsJson() && now - f.mtime > maxAge
  }

  /** The directory after a sweep: every `*.json` file older than `maxAge` is gone. */
  function Swept(files: map<FileName, File>, now: int, maxAge: int): (r: map<FileName, File>)
    ensures forall n :: n in r <==> n in files && !Doomed(n, files[n], now, maxAge)
    ensures forall n :: n in r ==> r[n] == files[n]
  {
    map n | n in files && !Doomed(n, files[n], now, maxAge) :: files[n]
  }

  /** The record `json_decode` reads from a client's rate file; None when there is no file. */
  function RateOf(files: map<FileName, File>, client: string): (r: Option<RateRecord>)
    ensures r.None? <==> RateFile(client) !in files
    ensures RateFile(client) in files && files[RateFile(client)].content.Rate? ==> r == Some(files[RateFile(client)].content.record)
    ensures RateFile(client) in files && !files[RateFile(client)].content.Rate? ==> r == Some(RateRecord(None, None))
  {
    var n := RateFile(client);
    if n !in files then None
    else match files[n].content
      case Rate(r) => Some(r)
      case Cached(_) => Some(RateRecord(None, None))
  }

  /** The outcome of a rate check: allowed with the record to store, or denied. */
  datatype Decision = Allow(record: RateRecord) | Deny

  /** A record with both keys set. */
  predicate Complete(r: RateRecord) {
    r.timestamp.Some? && r.count.Some?
  }

  /**
   * checkRateLimit of the unified and secure proxies: a missing, incomplete or
   * expired record restarts the window at count 1; otherwise the count goes up
   * and the call is denied when it then exceeds the limit.
   */
  function WindowDecision(stored: Option<RateRecord>, now: int, limit: int, window: int): (d: Decision)
    ensures (stored.None? || !Complete(stored.value) || now - stored.value.timestamp.value >= window)
      ==> d == Allow(RateRecord(Some(now), Some(1)))
    ensures stored.Some? && Complete(stored.value) && now - stored.value.timestamp.value < window ==>
      var r := stored.value;
      d == (if r.count.value + 1 > limit then Deny else Allow(r.(count := Some(r.count.value + 1))))
  {
    if stored.None? then Allow(RateRecord(Some(now), Some(1)))
    else
      var r := stored.value;
      if !Complete(r) then Allow(RateRecord(Some(now), Some(1)))
      else if now - r.timestamp.value >= window then Allow(RateRecord(Some(now), Some(1)))
      else if r.count.value + 1 > limit then Deny
      else Allow(r.(count := Some(r.count.value + 1)))
  }

  /** The record kept after a decision: the new one when allowed, the old one when denied. */
  function After(stored: Option<RateRecord>, d: Decision): Option<RateRecord> {
    if d.Allow? then Some(d.record) else stored
  }

  /** Which of a series of calls, made at the given times, the unified rate check lets through. */
  function Admitted(stored: Option<RateRecord>, times: seq<int>): seq<bool>
    decreases |times|
  {
    if times == [] then []
    else
      var d := WindowDecision(stored, times[0], RateLimit, RateWindow);
      [d.Allow?] + Admitted(After(stored, d), times[1..])
  }

  lemma {:induction false} AdmittedWithin(t0: int, c: int, times: seq<int>)
    requires 1 <= c
    requires forall i :: 0 <= i < |times| ==> times[i] < t0 + RateWindow
    ensures |Admitted(Some(RateRecord(Some(t0), Some(c))), times)| == |times|
    ensures forall i :: 0 <= i < |times| ==>
      Admitted(Some(RateRecord(Some(t0), Some(c))), times)[i] == (c + i < RateLimit)
    decreases |times|
  {
    if times != [] {
      var stored := Some(RateRecord(Some(t0), Some(c)));
      var d := WindowDecision(stored, times[0], RateLimit, RateWindow);
      if c + 1 > RateLimit {
        assert d == Deny;
        AdmittedWithin(t0, c, times[1..]);
      } else {
        assert After(stored, d) == Some(RateRecord(Some(t0), Some(c + 1)));
        AdmittedWithin(t0, c + 1, times[1..]);
      }
    }
  }

  /**
   * Starting with no record, of calls made within one window of the first,
   * exactly the first sixty pass.
   */
  lemma SixtyPerWindow(times: seq<int>)
    requires |times| >= 1
    requires forall i :: 0 <= i < |times| ==> times[i] < times[0] + RateWindow
    ensures |Admitted(None, times)| == |times|
    ensures forall i :: 0 <= i < |times| ==> Admitted(None, times)[i] == (i < RateLimit)
  {
    var t0 := times[0];
    assert WindowDecision(None, t0, RateLimit, RateWindow) == Allow(RateRecord(Some(t0), Some(1)));
    AdmittedWithin(t0, 1, times[1..]);
  }

  /** The cache directory. */
  class Directory {
    var files: map<FileName, File>

    constructor ()
      ensures files == map[]
    {
      files := map[];
    }

    /** The cached file for a key when the cache-hit test passes. */
    function Lookup(key: CacheKey, now: int, expiry: int): (r: Option<File>)
      reads this
      ensures r.Some? <==> CacheFile(key) in files && Fresh(files[CacheFile(key)], now, expiry)
      ensures r.Some? ==> r.value == files[CacheFile(key)]
    {
      var n := CacheFile(key);
      if n in files && now - files[n].mtime < expiry then Some(files[n]) else None
    }

    /** `file_put_contents`: the file now holds the content, stamped with the current time. */
    method Write(n: FileName, c: Content, now: int)
      modifies this
      ensures files == old(files)[n := File(c, now)]
    {
      files := files[n := File(c, now)];
    }

    /** `rename`: the file moves, replacing any file of the target name. */
    method Rename(from: FileName, to: FileName)
      requires from in files && from != to
      modifies this
      ensures files == (old(files) - {from})[to := old(files)[from]]
    {
      files := (files - {from})[to := files[from]];
    }

    /** cacheResponse: write a temporary file, then rename it over the cache file. */
    method CacheResponse(key: CacheKey, body: Http.Body, now: int)
      modifies this
      ensures files == (old(files) - {TempFile(key)})[CacheFile(key) := File(Cached(body), now)]
    {
      Write(TempFile(key), Cached(body), now);
      Rename(TempFile(key), CacheFile(key));
    }

    /** cleanupFiles / cleanupCache: unlink each `*.json` file older than `maxAge`. */
    method Sweep(now: int, maxAge: int)
      modifies this
      ensures files == Swept(old(files), now, maxAge)
    {
      var names := set n | n in files && n.IsJson();
      ghost var start := files;
      while names != {}
        invariant names <= start.Keys
        invariant forall n :: n in files <==>
          n in start && (n in names || !Doomed(n, start[n], now, maxAge))
        invariant forall n :: n in files ==> files[n] == start[n]
        invariant forall n :: n in start && n.IsJson() && n !in files ==> n !in names
        invariant forall n :: n in start && !n.IsJson() ==> n !in names
        decreases |names|
      {
        var n :| n in names;
        if now - files[n].mtime > maxAge {
          files := files - {n};
        }
        names := names - {n};
      }
      assert files.Keys == Swept(start, now, maxAge).Keys;
    }

    /** checkRateLimit: a denied call writes nothing; an allowed one stores the new record. */
    method CheckRateLimit(client: string, limit: int, window: int, now: int) returns (allowed: bool)
      modifies this
      ensures var d := WindowDecision(RateOf(old(files), client), now, limit, window);
        allowed == d.Allow? &&
        files == (if allowed then old(files)[RateFile(client) := File(Rate(d.record), now)] else old(files))
    {
      var d := WindowDecision(RateOf(files, client), now, limit, window);
      if d.Deny? {
        return false;
      }
      Write(RateFile(client), Rate(d.record), now);
      return true;
    }
  }

  /** A rate file is never stamped later than it was written. */
  predicate StampedBeforeWrite(files: map<FileName, File>, client: string) {
    var n := RateFile(client);
    n in files && files[n].content.Rate? && files[n].content.record.timestamp.Some? ==>
      files[n].content.record.timestamp.value <= files[n].mtime
  }

  /**
   * A fresh cache file survives the periodic sweep untouched, since the sweep
   * age is twice the expiry.
   */
  lemma SweepKeepsFresh(files: map<FileName, File>, key: CacheKey, now: int)
    requires CacheFile(key) in files && Fresh(files[CacheFile(key)], now, CacheExpiry)
    ensures CacheFile(key) in Swept(files, now, SweepAge)
    ensures Swept(files, now, SweepAge)[CacheFile(key)] == files[CacheFile(key)]
  {
  }

  /**
   * Sweeping the rate records along with the cache never changes a rate
   * decision taken at the sweep or at any later moment: a record old enough
   * to be swept is past its window by then.
   */
  lemma SweepKeepsRateDecision(files: map<FileName, File>, client: string, now: int, later: int)
    requires StampedBeforeWrite(files, client)
    requires now <= later
    ensures WindowDecision(RateOf(Swept(files, now, SweepAge), client), later, RateLimit, RateWindow)
         == WindowDecision(RateOf(files, client), later, RateLimit, RateWindow)
  {
  }
}
