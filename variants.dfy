/**
 * Where the four proxy variants agree and where they differ: the HURDAT2
 * loops (skip or stop at a blank line, with or without the 1000-line cap),
 * the rate check on incomplete records, the parameter allow-lists, what the
 * cache key covers, and which endpoints each accepts.
 */
module Variants {
  import opened Wrappers
  import opened Http
  import Text
  import Hurdat
  import Params
  import Store
  import UnifiedProxy
  import SecureProxy
  import ProductionProxy
  import ApiProxy

  // ---------------------------------------------------------------------
  // HURDAT2 loops.

  predicate BlankFree(lines: seq<string>) {
    forall i :: 0 <= i < |lines| ==> !Text.PhpEmpty(Text.Trim(lines[i]))
  }

  /** Without blank lines, trimming every line and skipping the blank ones read the same rows. */
  lemma {:induction false} BlankFreeRows(lines: seq<string>)
    requires BlankFree(lines)
    ensures Hurdat.TrimmedRows(lines) == Hurdat.PhpKeptRows(lines)
    decreases |lines|
  {
    if lines != [] {
      var init := lines[..|lines| - 1];
      assert BlankFree(init) by {
        forall i | 0 <= i < |init|
          ensures !Text.PhpEmpty(Text.Trim(init[i]))
        {
          assert init[i] == lines[i];
        }
      }
      BlankFreeRows(init);
    }
  }

  /**
   * The production loop reads what api-proxy.php's loop would read from the
   * lines before the first blank one, at most 1000 of them; everything after
   * a blank line is lost to it, while the other loops skip the blank.
   */
  lemma ProductionReadsPrefix(lines: seq<string>)
    ensures ProductionProxy.HurdatRows(lines) ==
      Hurdat.PhpKeptRows(lines[..Hurdat.Min(Hurdat.FirstBlank(lines), 1000)])
  {
    var k := Hurdat.Min(Hurdat.FirstBlank(lines), 1000);
    Hurdat.FirstBlankIsFirst(lines);
    assert BlankFree(lines[..k]) by {
      forall i | 0 <= i < k
        ensures !Text.PhpEmpty(Text.Trim(lines[..k][i]))
      {
        assert lines[..k][i] == lines[i];
      }
    }
    BlankFreeRows(lines[..k]);
  }

  /** On at most 1000 lines with no blank one, the unified, production and api-proxy.php loops read the same rows. */
  lemma LoopsAgreeWithoutBlanks(lines: seq<string>)
    requires BlankFree(lines) && |lines| <= 1000
    ensures UnifiedProxy.HurdatRows(lines) == Hurdat.PhpKeptRows(lines)
    ensures ProductionProxy.HurdatRows(lines) == Hurdat.PhpKeptRows(lines)
  {
    Hurdat.FirstBlankIsFirst(lines);
    assert Hurdat.FirstBlank(lines) == |lines|;
    assert lines[..|lines|] == lines;
    ProductionReadsPrefix(lines);
  }

  // ---------------------------------------------------------------------
  // Rate checks.

  /**
   * A record without a timestamp: production reads it as the epoch, so in the
   * first minute after the epoch a full count still denies, while the hardened
   * check restarts the window. MissingTimestampAgreesLater shows that at any
   * later time the two agree.
   */
  lemma MissingTimestampDiffers(now: int)
    requires 0 <= now < Store.RateWindow
    ensures var r := Some(Store.RateRecord(None, Some(Store.RateLimit)));
      ProductionProxy.RateDecision(r, now) == Store.Deny &&
      Store.WindowDecision(r, now, Store.RateLimit, Store.RateWindow) == Store.Allow(Store.RateRecord(Some(now), Some(1)))
  {
  }

  /** From one minute after the epoch on, both checks restart a record without a timestamp, whatever its count. */
  lemma MissingTimestampAgreesLater(count: Option<int>, now: int)
    requires now >= Store.RateWindow
    ensures var r := Some(Store.RateRecord(None, count));
      ProductionProxy.RateDecision(r, now) == Store.Allow(Store.RateRecord(Some(now), Some(1))) &&
      Store.WindowDecision(r, now, Store.RateLimit, Store.RateWindow) == Store.Allow(Store.RateRecord(Some(now), Some(1)))
  {
  }

  /** A record without a count: production counts from 0 and keeps the old timestamp, the hardened check restarts at now. */
  lemma MissingCountDiffers(t: int, now: int)
    requires 0 <= now - t < Store.RateWindow
    ensures var r := Some(Store.RateRecord(Some(t), None));
      ProductionProxy.RateDecision(r, now) == Store.Allow(Store.RateRecord(Some(t), Some(1))) &&
      Store.WindowDecision(r, now, Store.RateLimit, Store.RateWindow) == Store.Allow(Store.RateRecord(Some(now), Some(1)))
  {
  }

  // ---------------------------------------------------------------------
  // Parameters and cache keys.

  /** The secure proxy keeps exactly the unified proxy's strict result restricted to `q`, `area` and `year`. */
  lemma SecureNarrowsUnified(q: Query, sanitize: string -> string)
    ensures Params.Validated(q, Some(SecureProxy.AllowedParams), sanitize) ==
      Params.Only(Params.Validated(q, Some(UnifiedProxy.AllowedParams), sanitize), SecureProxy.AllowedParams)
  {
    Params.NarrowerList(q, UnifiedProxy.AllowedParams, SecureProxy.AllowedParams, sanitize);
  }

  lemma {:induction false} WithoutSnoc(q: Query, p: (string, string), key: string)
    ensures Without(q + [p], key) == Without(q, key) + (if p.0 == key then [] else [p])
    decreases |q|
  {
    if q != [] {
      WithoutSnoc(q[1..], p, key);
      assert (q + [p])[1..] == q[1..] + [p];
    }
  }

  /**
   * An extra parameter, under a new name outside the secure allow-list, leaves
   * the secure cache key as it was, but gives a different production (and
   * api-proxy.php) key.
   */
  lemma UnlistedParamKeys(e: Endpoint, req: Request, name: string, value: string, sanitize: string -> string)
    requires name != "endpoint" && name !in SecureProxy.AllowedParams
    requires forall p :: p in req.query ==> p.0 != name
    ensures SecureProxy.KeyOf(e, req.(query := req.query + [(name, value)]), sanitize) == SecureProxy.KeyOf(e, req, sanitize)
    ensures Store.CacheKey(e.Name(), Without(req.query + [(name, value)], "endpoint")) !=
      Store.CacheKey(e.Name(), Without(req.query, "endpoint"))
  {
    var q := req.query + [(name, value)];
    assert q[..|q| - 1] == req.query;
    WithoutSnoc(req.query, (name, value), "endpoint");
    assert |Without(q, "endpoint")| == |Without(req.query, "endpoint")| + 1;
  }

  // ---------------------------------------------------------------------
  // Endpoints.

  /** Only the unified proxy serves the five imagery endpoints; the others accept exactly the five upstream ones. */
  lemma ImageryOnlyUnified(e: Endpoint)
    ensures e in UnifiedProxy.Endpoints
    ensures e in SecureProxy.Endpoints <==> e.IsUpstream()
    ensures e in ProductionProxy.Endpoints <==> e.IsUpstream()
    ensures e in ApiProxy.Endpoints <==> e.IsUpstream()
  {
  }
}
