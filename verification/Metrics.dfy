/**
 The metric table of a transaction.  A metric is the six-number record of
 tests/integration/README.md: count, total, exclusive, minimum, maximum and sum
 of squares.  Values are microseconds, as exact reals: 64-bit wrap-around is not modelled.
 */
module Metrics {
  import opened Common

  datatype Metric = Metric(count: nat, total: real, exclusive: real, min: real, max: real, sumsq: real)

  type Table = map<string, Metric>

  datatype Sample = Sample(name: string, value: real)

  /** newrelic_record_custom_metric takes milliseconds; the table holds whole microseconds. */
  function Microseconds(ms: real): real { (1000.0 * ms).Floor as real }

  /** One nrm_add: starts a metric or folds a value into an existing one. */
  function Accumulate(m: Option<Metric>, v: real): Metric {
    match m
    case None => Metric(1, v, v, v, v, v * v)
    case Some(m) =>
      Metric(m.count + 1, m.total + v, m.exclusive + v,
             if v < m.min then v else m.min, if v > m.max then v else m.max, m.sumsq + v * v)
  }

  function Record(t: Table, s: Sample): Table {
    t[s.name := Accumulate(Get(t, s.name), s.value)]
  }

  function RecordAll(t: Table, ss: seq<Sample>): Table {
    Fold(Record, t, ss)
  }

  function Aggregate(vs: seq<real>): Option<Metric>
    decreases |vs|
  {
    if vs == [] then None else Some(Accumulate(Aggregate(vs[..|vs| - 1]), vs[|vs| - 1]))
  }

  /** The values recorded under one name, in order. */
  function ValuesFor(name: string, ss: seq<Sample>): seq<real>
    decreases |ss|
  {
    if ss == [] then []
    else
      var rest := ValuesFor(name, ss[..|ss| - 1]);
      if ss[|ss| - 1].name == name then rest + [ss[|ss| - 1].value] else rest
  }

  function Sum(vs: seq<real>): real
    decreases |vs|
  {
    if vs == [] then 0.0 else Sum(vs[..|vs| - 1]) + vs[|vs| - 1]
  }

  function SumOfSquares(vs: seq<real>): real
    decreases |vs|
  {
    if vs == [] then 0.0 else SumOfSquares(vs[..|vs| - 1]) + vs[|vs| - 1] * vs[|vs| - 1]
  }

  // ---------------------------------------------------------------------
  // What one metric says about the values folded into it
  // ---------------------------------------------------------------------

  /** The table splits by name: each entry is the aggregate of its own samples. */
  lemma {:induction false} TableSplitsByName(ss: seq<Sample>, name: string)
    ensures Get(RecordAll(map[], ss), name) == Aggregate(ValuesFor(name, ss))
    decreases |ss|
  {
    if ss != [] {
      var front, last := ss[..|ss| - 1], ss[|ss| - 1];
      TableSplitsByName(front, name);
      if last.name == name {
        var vs := ValuesFor(name, ss);
        assert vs[..|vs| - 1] == ValuesFor(name, front);
      }
    }
  }

  /** The reference reading of a metric, with no fold in sight. */
  lemma {:induction false} AggregateMeaning(vs: seq<real>)
    requires vs != []
    ensures var m := Aggregate(vs).value;
            && m.count == |vs|
            && m.total == Sum(vs) == m.exclusive
            && m.sumsq == SumOfSquares(vs)
            && (forall i :: 0 <= i < |vs| ==> m.min <= vs[i] <= m.max)
            && (exists i :: 0 <= i < |vs| && m.min == vs[i])
            && (exists i :: 0 <= i < |vs| && m.max == vs[i])
    decreases |vs|
  {
    var front, last := vs[..|vs| - 1], vs[|vs| - 1];
    if front != [] {
      AggregateMeaning(front);
      var m := Aggregate(front).value;
      var i :| 0 <= i < |front| && m.min == front[i];
      var k :| 0 <= k < |front| && m.max == front[k];
      assert m.min == vs[i] && m.max == vs[k];
    }
  }

  lemma SquareNonNegative(d: real)
    ensures d * d >= 0.0
  {
    if d < 0.0 { assert d * d == (-d) * (-d); }
  }

  lemma PositiveFactor(n: real, g: real)
    requires n > 0.0 && n * g >= 0.0
    ensures g >= 0.0
  {
  }

  /** (T + v)^2 <= (n + 1)(S + v^2) follows from T^2 <= n S. */
  lemma SquareStep(n: real, t: real, s: real, v: real)
    requires n > 0.0
    requires t * t <= n * s
    ensures (t + v) * (t + v) <= (n + 1.0) * (s + v * v)
  {
    var gap := n * v * v - 2.0 * t * v + s;
    assert n * gap >= (n * v - t) * (n * v - t) by {
      assert n * gap == (n * v) * (n * v) - 2.0 * (n * v) * t + n * s;
      assert (n * v - t) * (n * v - t) == (n * v) * (n * v) - 2.0 * (n * v) * t + t * t;
    }
    SquareNonNegative(n * v - t);
    PositiveFactor(n, gap);
    assert (n + 1.0) * (s + v * v) - (t + v) * (t + v) == (n * s - t * t) + gap;
  }

  /** n*min <= t <= n*max survives one more value when min and max are widened to it. */
  lemma SpreadStep(n: real, t: real, lo: real, hi: real, v: real, lo': real, hi': real)
    requires n > 0.0 && n * lo <= t <= n * hi
    requires lo' <= lo && lo' <= v && hi' >= hi && hi' >= v
    ensures (n + 1.0) * lo' <= t + v <= (n + 1.0) * hi'
  {
    assert n * lo' <= n * lo && n * hi <= n * hi';
  }

  ghost predicate Bounded(n: real, total: real, lo: real, hi: real, sumsq: real) {
    && n > 0.0
    && n * lo <= total <= n * hi
    && total * total <= n * sumsq
  }

  lemma BoundedStep(n: real, t: real, lo: real, hi: real, s: real, v: real, lo': real, hi': real)
    requires Bounded(n, t, lo, hi, s)
    requires lo' <= lo && lo' <= v && hi' >= hi && hi' >= v
    ensures Bounded(n + 1.0, t + v, lo', hi', s + v * v)
  {
    SquareStep(n, t, s, v);
    SpreadStep(n, t, lo, hi, v, lo', hi');
  }

  /** The inequalities every metric keeps: count*min <= total <= count*max, total^2 <= count*sumsq. */
  ghost predicate Consistent(m: Metric) {
    Bounded(m.count as real, m.total, m.min, m.max, m.sumsq)
  }

  lemma ConsistentOne(v: real)
    ensures Consistent(Accumulate(None, v))
  {
  }

  lemma ConsistentStep(m: Metric, v: real)
    requires Consistent(m)
    ensures Consistent(Accumulate(Some(m), v))
  {
    var n, t, s := m.count as real, m.total, m.sumsq;
    var m' := Accumulate(Some(m), v);
    var lo', hi' := m'.min, m'.max;
    assert lo' <= m.min && lo' <= v && hi' >= m.max && hi' >= v;
    assert Bounded(n + 1.0, t + v, lo', hi', s + v * v) by {
      BoundedStep(n, t, m.min, m.max, s, v, lo', hi');
    }
    assert m'.count as real == n + 1.0;
  }

  /** Consistent holds of every metric ever built. */
  lemma {:induction false} AggregateBounds(vs: seq<real>)
    requires vs != []
    ensures Consistent(Aggregate(vs).value)
    decreases |vs|
  {
    var front, v := vs[..|vs| - 1], vs[|vs| - 1];
    if front == [] {
      ConsistentOne(v);
    } else {
      AggregateBounds(front);
      ConsistentStep(Aggregate(front).value, v);
    }
  }

  // ---------------------------------------------------------------------
  // Order of recording does not matter
  // ---------------------------------------------------------------------

  lemma RecordCommutes(t: Table, a: Sample, b: Sample)
    ensures Record(Record(t, a), b) == Record(Record(t, b), a)
  {
    if a.name == b.name {
      var va, vb := a.value, b.value;
      assert Accumulate(Some(Accumulate(Get(t, a.name), va)), vb)
          == Accumulate(Some(Accumulate(Get(t, a.name), vb)), va);
    }
  }

  /** The table is a function of the multiset of samples, whatever thread recorded which first. */
  lemma TableIgnoresOrder(t: Table, xs: seq<Sample>, ys: seq<Sample>)
    requires multiset(xs) == multiset(ys)
    ensures RecordAll(t, xs) == RecordAll(t, ys)
  {
    forall t: Table, a, b ensures Swaps(Record, t, a, b) {
      RecordCommutes(t, a, b);
    }
    FoldIgnoresOrder(Record, t, xs, ys);
  }
}
