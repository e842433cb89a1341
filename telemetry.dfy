/**
 * The metrics the service registers, reduced to their values: a labelled counter is a map from
 * a label tuple to a count (an absent tuple reads as 0), a labelled gauge a map from its one
 * label to the level last set. Registry rendering and the duration histogram are not modelled.
 */
module Telemetry {
  import opened Wrappers

  type Labels = seq<string>
  type Counter = map<Labels, nat>
  type Gauge = map<string, int>

  /** The count a counter holds for one label tuple; a tuple never incremented reads 0. */
  function Value(c: Counter, k: Labels): nat {
    if k in c then c[k] else 0
  }

  /** `counter.labels(...k).inc()`: one more for `k`, every other tuple untouched. */
  function Inc(c: Counter, k: Labels): (r: Counter)
    ensures Value(r, k) == Value(c, k) + 1
    ensures forall j :: j != k ==> Value(r, j) == Value(c, j)
    ensures r.Keys == c.Keys + {k}
  {
    c[k := Value(c, k) + 1]
  }

  /**
   * `Object.entries(levels).forEach(([k, n]) => gauge.labels(k).set(n))`: every label of
   * `levels` is set to its level; a label of `g` that `levels` lacks keeps its old level.
   */
  method SetEach(g: Gauge, levels: map<string, nat>) returns (r: Gauge)
    ensures r.Keys == g.Keys + levels.Keys
    ensures forall k :: k in levels ==> r[k] == levels[k]
    ensures forall k :: k in g && k !in levels ==> r[k] == g[k]
  {
    r := g;
    var pending := levels.Keys;
    while pending != {}
      invariant pending <= levels.Keys
      invariant r.Keys == g.Keys + (levels.Keys - pending)
      invariant forall k :: k in levels && k !in pending ==> r[k] == levels[k]
      invariant forall k :: k in g && k !in levels ==> r[k] == g[k]
      decreases pending
    {
      var k :| k in pending;
      r := r[k := levels[k]];
      pending := pending - {k};
    }
  }

  /** The character of one decimal digit. */
  function Digit(d: nat): (c: char)
    requires d < 10
    ensures '0' <= c <= '9' && c as int - '0' as int == d
  {
    ('0' as int + d) as char
  }

  /** `n.toString()` for a non-negative integer: its decimal digits, most significant first. */
  function DecimalString(n: nat): (r: string)
    ensures |r| >= 1
    ensures forall i :: 0 <= i < |r| ==> '0' <= r[i] <= '9'
    ensures |r| > 1 ==> r[0] != '0'
  {
    if n < 10 then [Digit(n)] else DecimalString(n / 10) + [Digit(n % 10)]
  }

  /** Reading a string of decimal digits back as a number. */
  function DecimalValue(s: string): nat
    requires forall i :: 0 <= i < |s| ==> '0' <= s[i] <= '9'
  {
    if s == [] then 0 else 10 * DecimalValue(s[..|s| - 1]) + (s[|s| - 1] as int - '0' as int)
  }

  /** The decimal rendering loses nothing: it reads back as the number it came from. */
  lemma {:induction false} DecimalRoundTrip(n: nat)
    ensures DecimalValue(DecimalString(n)) == n
  {
    var s := DecimalString(n);
    if n >= 10 {
      var prefix := DecimalString(n / 10);
      assert s == prefix + [Digit(n % 10)];
      assert s[..|s| - 1] == prefix;
      DecimalRoundTrip(n / 10);
    } else {
      assert s[..|s| - 1] == [];
    }
  }

  /** Distinct status codes give distinct `status_code` labels. */
  lemma DecimalInjective(a: nat, b: nat)
    ensures DecimalString(a) == DecimalString(b) ==> a == b
  {
    DecimalRoundTrip(a);
    DecimalRoundTrip(b);
  }

  /** `req.route ? req.route.path : req.path`: the matched route template, else the raw path. */
  function RouteLabel(routePath: Option<string>, path: string): (r: string)
    ensures routePath.Some? ==> r == routePath.value
    ensures routePath.None? ==> r == path
  {
    routePath.GetOr(path)
  }

  /** The `(method, route, status_code)` tuple the request counter is incremented under. */
  function RequestLabels(httpMethod: string, routePath: Option<string>, path: string, statusCode: nat): (r: Labels)
    ensures |r| == 3 && r[0] == httpMethod && r[1] == RouteLabel(routePath, path)
    ensures forall i :: 0 <= i < |r[2]| ==> '0' <= r[2][i] <= '9'
    ensures |r[2]| > 1 ==> r[2][0] != '0'
    ensures DecimalValue(r[2]) == statusCode
  {
    DecimalRoundTrip(statusCode);
    [httpMethod, RouteLabel(routePath, path), DecimalString(statusCode)]
  }

  /** Two requests share a counter tuple exactly when method, route label and status code agree. */
  lemma RequestLabelsDistinguish(m1: string, r1: Option<string>, p1: string, c1: nat,
                                 m2: string, r2: Option<string>, p2: string, c2: nat)
    ensures RequestLabels(m1, r1, p1, c1) == RequestLabels(m2, r2, p2, c2) <==>
            m1 == m2 && RouteLabel(r1, p1) == RouteLabel(r2, p2) && c1 == c2
  {
    var a, b := RequestLabels(m1, r1, p1, c1), RequestLabels(m2, r2, p2, c2);
    if a == b {
      DecimalInjective(c1, c2);
    }
  }
}
