/** Value objects of internal/domain/shared, and the few collection folds the other modules reason with. */
module Primitives {

  datatype Option<+T> = None | Some(value: T) {
    predicate IsFailure() { None? }

    function PropagateFailure<U>(): Option<U>
      requires None?
    {
      None
    }

    function Extract(): T
      requires Some?
    {
      value
    }
  }

  /** A strictly positive quotation. */
  type Price = r: real | r > 0.0 witness 1.0

  /** A non-negative amount of an asset; direction is carried by the side. */
  type Quantity = r: real | r >= 0.0 witness 0.0

  /** The quantities an order or a position may be created with. */
  type Lot = r: real | r > 0.0 witness 1.0

  type Symbol = string

  datatype Side = Buy | Sell {
    function Sign(): real { if Buy? then 1.0 else -1.0 }
    function Opposite(): Side { if Buy? then Sell else Buy }
  }

  function Abs(x: real): real { if x < 0.0 then -x else x }

  /** Decimal division, which may round. */
  type Division = (real, real) -> real

  /** The division is never further than `eps` from the true quotient. */
  ghost predicate Rounds(div: Division, eps: real) {
    forall a: real, b: real :: b != 0.0 ==> a / b - eps <= div(a, b) <= a / b + eps
  }

  lemma RoundsAt(div: Division, eps: real, a: real, b: real)
    requires Rounds(div, eps) && b != 0.0
    ensures Abs(div(a, b) - a / b) <= eps
  {
    assert a / b - eps <= div(a, b) <= a / b + eps;
  }

  lemma ProductIsNonNegative(x: real, y: real)
    requires x >= 0.0 && y >= 0.0
    ensures x * y >= 0.0
  {
  }

  function Bit(b: bool): nat { if b then 1 else 0 }

  // ----- counting and summing over table rows; the last row is peeled first, so appending unfolds at once

  function CountIf<T>(s: seq<T>, p: T -> bool): nat {
    if s == [] then 0 else CountIf(s[..|s| - 1], p) + Bit(p(s[|s| - 1]))
  }

  lemma CountAppend<T>(s: seq<T>, x: T, p: T -> bool)
    ensures CountIf(s + [x], p) == CountIf(s, p) + Bit(p(x))
  {
    assert (s + [x])[..|s|] == s;
  }

  lemma {:induction false} CountUpdate<T>(s: seq<T>, i: nat, x: T, p: T -> bool)
    requires i < |s|
    ensures CountIf(s[i := x], p) + Bit(p(s[i])) == CountIf(s, p) + Bit(p(x))
  {
    var n := |s| - 1;
    if i == n {
      assert s[i := x][..n] == s[..n];
    } else {
      CountUpdate(s[..n], i, x, p);
      assert s[i := x][..n] == s[..n][i := x];
    }
  }

  /** Adds `f` over all entries of a map, in no particular order. */
  ghost function SumMap<K(!new), V(!new)>(m: map<K, V>, f: (K, V) -> real): real
    decreases |m|
  {
    if m == map[] then 0.0
    else
      var k :| k in m;
      f(k, m[k]) + SumMap(m - {k}, f)
  }

  /** Any key may be taken out first: the sum does not depend on the order of iteration. */
  lemma {:induction false} SumRemove<K(!new), V(!new)>(m: map<K, V>, f: (K, V) -> real, k: K)
    requires k in m
    ensures SumMap(m, f) == f(k, m[k]) + SumMap(m - {k}, f)
    decreases |m|
  {
    var x :| x in m && SumMap(m, f) == f(x, m[x]) + SumMap(m - {x}, f);
    if x != k {
      SumRemove(m - {x}, f, k);
      SumRemove(m - {k}, f, x);
      assert m - {x} - {k} == m - {k} - {x};
    }
  }

  lemma SumInsert<K(!new), V(!new)>(m: map<K, V>, f: (K, V) -> real, k: K, v: V)
    ensures SumMap(m[k := v], f) == SumMap(m - {k}, f) + f(k, v)
    ensures k !in m ==> SumMap(m[k := v], f) == SumMap(m, f) + f(k, v)
    ensures k in m ==> SumMap(m[k := v], f) == SumMap(m, f) - f(k, m[k]) + f(k, v)
  {
    SumRemove(m[k := v], f, k);
    assert m[k := v] - {k} == m - {k};
    if k in m {
      SumRemove(m, f, k);
    } else {
      assert m - {k} == m;
    }
  }

  lemma {:induction false} SumIsNonNegative<K(!new), V(!new)>(m: map<K, V>, f: (K, V) -> real)
    requires forall k :: k in m ==> f(k, m[k]) >= 0.0
    ensures SumMap(m, f) >= 0.0
    decreases |m|
  {
    if m != map[] {
      var x :| x in m && SumMap(m, f) == f(x, m[x]) + SumMap(m - {x}, f);
      SumIsNonNegative(m - {x}, f);
    }
  }
}
