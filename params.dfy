/**
 * validateParams of the unified and secure proxies: each query entry other
 * than `endpoint`, when its key is allowed, is sanitised, cut to 100
 * characters and kept unless PHP's `empty()` holds for what is left.
 *
 * `filter_var(..., FILTER_SANITIZE_STRING, FILTER_FLAG_STRIP_HIGH)` is the
 * parameter `sanitize`; its effect is not modelled.
 */
module Params {
  import opened Wrappers
  import Text
  import Http

  const MaxLength: nat := 100

  /** `substr($value, 0, 100)`. */
  function Cut(v: string): (r: string)
    ensures |r| <= MaxLength
    ensures |r| <= |v| && r == v[..|r|]
    ensures |v| <= MaxLength ==> r == v
  {
    if |v| <= MaxLength then v else v[..MaxLength]
  }

  /** The value stored for a raw value. */
  function Clean(v: string, sanitize: string -> string): string {
    Cut(sanitize(v))
  }

  /** Whether an entry survives: not `endpoint`, allowed (when there is a list), non-empty once cleaned. */
  predicate Kept(p: (string, string), allowed: Option<seq<string>>, sanitize: string -> string) {
    p.0 != "endpoint" && (allowed.None? || p.0 in allowed.value) && !Text.PhpEmpty(Clean(p.1, sanitize))
  }

  /**
   * The validated parameters: every surviving entry, cleaned, in query order.
   * `allowed` is None when no allow-list applies (the unified proxy in
   * development).
   */
  function Validated(q: Http.Query, allowed: Option<seq<string>>, sanitize: string -> string): Http.Query
    decreases |q|
  {
    if q == [] then []
    else
      var last := q[|q| - 1];
      Validated(q[..|q| - 1], allowed, sanitize) + (if Kept(last, allowed, sanitize) then [(last.0, Clean(last.1, sanitize))] else [])
  }

  /**
   * What validation keeps: never `endpoint`, only allowed keys, only values
   * that are non-empty and at most 100 characters; and exactly the cleaned
   * form of each surviving query entry.
   */
  lemma {:induction false} ValidatedShape(q: Http.Query, allowed: Option<seq<string>>, sanitize: string -> string)
    ensures var r := Validated(q, allowed, sanitize);
      |r| <= |q| &&
      (forall p :: p in r ==>
        p.0 != "endpoint" && (allowed.None? || p.0 in allowed.value) &&
        !Text.PhpEmpty(p.1) && |p.1| <= MaxLength) &&
      (forall p :: p in r <==> exists i :: 0 <= i < |q| && Kept(q[i], allowed, sanitize) && p == (q[i].0, Clean(q[i].1, sanitize)))
    decreases |q|
  {
    if q != [] {
      var init := q[..|q| - 1];
      ValidatedShape(init, allowed, sanitize);
      assert forall i :: 0 <= i < |init| ==> init[i] == q[i];
    }
  }

  /** The loop of validateParams. */
  method ValidateParams(q: Http.Query, allowed: Option<seq<string>>, sanitize: string -> string) returns (r: Http.Query)
    ensures r == Validated(q, allowed, sanitize)
  {
    r := [];
    var i := 0;
    while i < |q|
      invariant 0 <= i <= |q|
      invariant r == Validated(q[..i], allowed, sanitize)
    {
      var (key, value) := q[i];
      assert q[..i + 1][..i] == q[..i];
      if key != "endpoint" && (allowed.None? || key in allowed.value) {
        var v := Cut(sanitize(value));
        if !Text.PhpEmpty(v) {
          r := r + [(key, v)];
        }
      }
      i := i + 1;
    }
    assert q[..|q|] == q;
  }

  /** A narrower allow-list keeps exactly the entries of the wider result whose keys it allows. */
  lemma {:induction false} NarrowerList(q: Http.Query, wide: seq<string>, narrow: seq<string>, sanitize: string -> string)
    requires forall k :: k in narrow ==> k in wide
    ensures Validated(q, Some(narrow), sanitize) == Only(Validated(q, Some(wide), sanitize), narrow)
    decreases |q|
  {
    if q != [] {
      var init := q[..|q| - 1];
      NarrowerList(init, wide, narrow, sanitize);
      OnlyAppend(Validated(init, Some(wide), sanitize),
        if Kept(q[|q| - 1], Some(wide), sanitize) then [(q[|q| - 1].0, Clean(q[|q| - 1].1, sanitize))] else [], narrow);
    }
  }

  /** The entries whose keys are in `keys`, in order. */
  function Only(q: Http.Query, keys: seq<string>): Http.Query {
    if q == [] then []
    else Only(q[..|q| - 1], keys) + (if q[|q| - 1].0 in keys then [q[|q| - 1]] else [])
  }

  lemma {:induction false} OnlyAppend(a: Http.Query, b: Http.Query, keys: seq<string>)
    ensures Only(a + b, keys) == Only(a, keys) + Only(b, keys)
    decreases |b|
  {
    if b == [] {
      assert a + b == a;
    } else {
      var b' := b[..|b| - 1];
      assert (a + b)[..|a + b| - 1] == a + b';
      OnlyAppend(a, b', keys);
    }
  }
}
