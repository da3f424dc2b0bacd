/** Segment parameter validation, the metric name of a custom segment, and datastore product names. */
module Naming {
  import opened Common

  const DEFAULT_NAME := "Unnamed Segment"
  const DEFAULT_CATEGORY := "Custom"

  /** newrelic_validate_segment_param: NULL passes, a slash anywhere does not. */
  predicate ValidParam(p: Option<string>) {
    p.Some? ==> '/' !in p.value
  }

  /** A missing or invalid part is replaced by its default. */
  function Effective(p: Option<string>, default: string): string {
    if p.None? || !ValidParam(p) then default else p.value
  }

  function MetricName(name: Option<string>, category: Option<string>): string {
    Effective(category, DEFAULT_CATEGORY) + "/" + Effective(name, DEFAULT_NAME)
  }

  // The datastores axiom knows, by their own spelling.
  const PRODUCTS := ["MongoDB", "Memcached", "MySQL", "Redis", "MSSQL", "Oracle", "Postgres", "SQLite", "Firebird",
                     "ODBC", "Sybase", "Informix", "PDO"]

  function LowerChar(c: char): char {
    if 'A' <= c <= 'Z' then 'a' + (c - 'A') else c
  }

  function Lower(s: string): string {
    seq(|s|, i requires 0 <= i < |s| => LowerChar(s[i]))
  }

  /** nr_datastore_from_string and nr_datastore_as_string: a known product in any case gets its own spelling. */
  function Spelled(products: seq<string>, product: string): string {
    if products == [] then product
    else if Lower(products[0]) == Lower(product) then products[0]
    else Spelled(products[1..], product)
  }

  function ProductName(product: string): string {
    Spelled(PRODUCTS, product)
  }

  function Count(s: string, c: char): nat {
    if s == "" then 0 else (if s[0] == c then 1 else 0) + Count(s[1..], c)
  }

  /** Splits at the first slash. */
  function Split(s: string): (string, string)
    requires '/' in s
  {
    if s[0] == '/' then ("", s[1..])
    else var (c, n) := Split(s[1..]); ([s[0]] + c, n)
  }

  lemma {:induction false} CountAbsent(s: string, c: char)
    requires c !in s
    ensures Count(s, c) == 0
  {
    if s != "" { CountAbsent(s[1..], c); }
  }

  lemma {:induction false} CountConcat(s: string, t: string, c: char)
    ensures Count(s + t, c) == Count(s, c) + Count(t, c)
  {
    if s == "" {
      assert s + t == t;
    } else {
      assert (s + t)[1..] == s[1..] + t;
      CountConcat(s[1..], t, c);
    }
  }

  lemma {:induction false} SplitJoin(c: string, n: string)
    requires '/' !in c
    ensures '/' in c + "/" + n && Split(c + "/" + n) == (c, n)
  {
    var s := c + "/" + n;
    assert s[|c|] == '/';
    if c == "" {
      assert s[1..] == n;
    } else {
      assert s[0] == c[0] && c == [c[0]] + c[1..];
      assert s[1..] == c[1..] + "/" + n;
      SplitJoin(c[1..], n);
    }
  }

  lemma EffectiveHasNoSlash(p: Option<string>, default: string)
    requires '/' !in default
    ensures '/' !in Effective(p, default)
  {
  }

  lemma JoinHasOneSlash(c: string, n: string)
    requires '/' !in c && '/' !in n
    ensures Count(c + "/" + n, '/') == 1
  {
    CountConcat(c + "/", n, '/');
    CountConcat(c, "/", '/');
    CountAbsent(c, '/');
    CountAbsent(n, '/');
    assert Count("/", '/') == 1;
  }

  /** For every input there is exactly one slash, and splitting at it gives both effective parts back. */
  lemma MetricNameRoundTrip(name: Option<string>, category: Option<string>)
    ensures var m := MetricName(name, category);
            && Count(m, '/') == 1
            && '/' in m
            && Split(m) == (Effective(category, DEFAULT_CATEGORY), Effective(name, DEFAULT_NAME))
  {
    var c, n := Effective(category, DEFAULT_CATEGORY), Effective(name, DEFAULT_NAME);
    EffectiveHasNoSlash(category, DEFAULT_CATEGORY);
    EffectiveHasNoSlash(name, DEFAULT_NAME);
    JoinHasOneSlash(c, n);
    SplitJoin(c, n);
  }

  /** On valid pairs the naming is injective. */
  lemma MetricNameInjective(n: string, c: string, n': string, c': string)
    requires ValidParam(Some(n)) && ValidParam(Some(c)) && ValidParam(Some(n')) && ValidParam(Some(c'))
    requires MetricName(Some(n), Some(c)) == MetricName(Some(n'), Some(c'))
    ensures n == n' && c == c'
  {
    MetricNameRoundTrip(Some(n), Some(c));
    MetricNameRoundTrip(Some(n'), Some(c'));
  }
}
