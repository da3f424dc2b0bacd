/** Small shared definitions: optional values and lookups in maps. */
module Common {

  /** A C pointer argument that may be NULL, seen as a value. */
  datatype Option<+T> = None | Some(value: T) {
    function GetOr(default: T): T {
      match this
      case Some(v) => v
      case None => default
    }
  }

  function Get<K, V>(m: map<K, V>, k: K): Option<V> {
    if k in m then Some(m[k]) else None
  }

  /** Writes an optional value back: None removes the key. */
  function Put<K, V>(m: map<K, V>, k: K, v: Option<V>): map<K, V> {
    match v
    case Some(x) => m[k := x]
    case None => m - {k}
  }

  /** Left fold, newest element last. */
  function Fold<A, B>(f: (B, A) -> B, b: B, xs: seq<A>): B
    decreases |xs|
  {
    if xs == [] then b else f(Fold(f, b, xs[..|xs| - 1]), xs[|xs| - 1])
  }

  lemma FoldSnoc<A, B>(f: (B, A) -> B, b: B, xs: seq<A>, x: A)
    ensures Fold(f, b, xs + [x]) == f(Fold(f, b, xs), x)
  {
    assert (xs + [x])[..|xs|] == xs;
  }

  lemma FoldShort<A, B>(f: (B, A) -> B, b: B, xs: seq<A>)
    requires |xs| <= 1
    ensures Fold(f, b, xs) == if xs == [] then b else f(b, xs[0])
  {
    if xs != [] {
      assert xs == [] + [xs[0]];
      FoldSnoc(f, b, [], xs[0]);
    }
  }

  lemma {:induction false} FoldConcat<A, B>(f: (B, A) -> B, b: B, xs: seq<A>, ys: seq<A>)
    ensures Fold(f, b, xs + ys) == Fold(f, Fold(f, b, xs), ys)
    decreases |ys|
  {
    if ys == [] {
      assert xs + ys == xs;
    } else {
      var n := |ys| - 1;
      FoldConcat(f, b, xs, ys[..n]);
      assert xs + ys == (xs + ys[..n]) + [ys[n]];
      FoldSnoc(f, b, xs + ys[..n], ys[n]);
    }
  }

  lemma FoldCons<A, B>(f: (B, A) -> B, b: B, x: A, ys: seq<A>)
    ensures Fold(f, b, [x] + ys) == Fold(f, f(b, x), ys)
  {
    FoldShort(f, b, [x]);
    FoldConcat(f, b, [x], ys);
  }

  lemma FoldFour<A, B>(f: (B, A) -> B, b: B, x: A, ys: seq<A>, z: A, ws: seq<A>)
    ensures Fold(f, b, [x] + ys + [z] + ws) == Fold(f, f(Fold(f, f(b, x), ys), z), ws)
  {
    FoldConcat(f, b, [x] + ys + [z], ws);
    FoldSnoc(f, b, [x] + ys, z);
    FoldCons(f, b, x, ys);
  }

  function Without<T>(s: seq<T>, j: nat): seq<T>
    requires j < |s|
  {
    s[..j] + s[j + 1..]
  }

  lemma WithoutDropsOne<T>(s: seq<T>, j: nat)
    requires j < |s|
    ensures multiset(Without(s, j)) == multiset(s) - multiset{s[j]}
  {
    assert s == s[..j] + [s[j]] + s[j + 1..];
  }

  lemma WithoutSnoc<T>(s: seq<T>, j: nat)
    requires j < |s| - 1
    ensures Without(s, j) == Without(s[..|s| - 1], j) + [s[|s| - 1]]
  {
  }

  ghost predicate Swaps<A, B>(f: (B, A) -> B, b: B, x: A, y: A) {
    f(f(b, x), y) == f(f(b, y), x)
  }

  ghost predicate Commutes<A(!new), B(!new)>(f: (B, A) -> B) {
    forall b, x, y :: Swaps(f, b, x, y)
  }

  /** For a commuting step any element may be taken to have come last. */
  lemma {:induction false} FoldLast<A(!new), B(!new)>(f: (B, A) -> B, b: B, xs: seq<A>, j: nat)
    requires Commutes(f) && j < |xs|
    ensures Fold(f, b, xs) == f(Fold(f, b, Without(xs, j)), xs[j])
    decreases |xs|
  {
    var n := |xs| - 1;
    if j < n {
      var front := xs[..n];
      FoldLast(f, b, front, j);
      WithoutSnoc(xs, j);
      FoldSnoc(f, b, Without(front, j), xs[n]);
      assert Swaps(f, Fold(f, b, Without(front, j)), xs[j], xs[n]);
    } else {
      assert Without(xs, j) == xs[..n];
    }
  }

  /** A commuting step folds to a function of the multiset. */
  lemma {:induction false} FoldIgnoresOrder<A(!new), B(!new)>(f: (B, A) -> B, b: B, xs: seq<A>, ys: seq<A>)
    requires Commutes(f) && multiset(xs) == multiset(ys)
    ensures Fold(f, b, xs) == Fold(f, b, ys)
    decreases |xs|
  {
    if xs == [] {
      assert |multiset(ys)| == |multiset(xs)| == 0;
    } else {
      var n := |xs| - 1;
      assert Without(xs, n) == xs[..n];
      assert xs[n] in multiset(ys);
      var j :| 0 <= j < |ys| && ys[j] == xs[n];
      WithoutDropsOne(xs, n);
      WithoutDropsOne(ys, j);
      FoldIgnoresOrder(f, b, xs[..n], Without(ys, j));
      FoldLast(f, b, ys, j);
    }
  }
}
