/** Shared vocabulary: optional values, bytes, Go's truncated integer division, and sums over maps. */
module Common {

  datatype Option<+T> = None | Some(value: T)

  type byte = bv8

  function Min(a: int, b: int): int { if a <= b then a else b }

  function Max(a: int, b: int): int { if a >= b then a else b }

  /** Go's `/` on integers truncates toward zero; Dafny's does not. */
  function GoDiv(x: int, y: int): int
    requires y > 0
  {
    if x >= 0 then x / y else -((-x) / y)
  }

  predicate Distinct<T(==)>(s: seq<T>) {
    forall i, j :: 0 <= i < j < |s| ==> s[i] != s[j]
  }

  lemma MulMono(a: nat, b: nat, k: nat)
    requires a <= b
    ensures a * k <= b * k
  {
  }

  /** An arbitrary element: Go's map iteration order is unspecified. */
  method Pick<T>(s: set<T>) returns (x: T)
    requires s != {}
    ensures x in s
  {
    x :| x in s;
  }

  /** Sum of `f` over the values of a map, in no particular order. */
  ghost function SumBy<K, V>(m: map<K, V>, f: V -> int): int
    decreases |m|
  {
    if m == map[] then 0
    else
      var k :| k in m;
      f(m[k]) + SumBy(m - {k}, f)
  }

  /** The sum does not depend on which key is taken out first. */
  lemma {:induction false} SumByRemove<K, V>(m: map<K, V>, f: V -> int, k: K)
    requires k in m
    ensures SumBy(m, f) == f(m[k]) + SumBy(m - {k}, f)
    decreases |m|
  {
    var k0 :| k0 in m && SumBy(m, f) == f(m[k0]) + SumBy(m - {k0}, f);
    if k != k0 {
      SumByRemove(m - {k0}, f, k);
      SumByRemove(m - {k}, f, k0);
      assert m - {k0} - {k} == m - {k} - {k0};
    }
  }

  lemma SumByUpdate<K, V>(m: map<K, V>, f: V -> int, k: K, v: V)
    ensures SumBy(m[k := v], f) == SumBy(m, f) + f(v) - if k in m then f(m[k]) else 0
  {
    SumByRemove(m[k := v], f, k);
    assert m[k := v] - {k} == m - {k};
    if k in m {
      SumByRemove(m, f, k);
    } else {
      assert m - {k} == m;
    }
  }

  /** Functions that agree on the values of a map have the same sum over it. */
  lemma {:induction false} SumBySame<K, V>(m: map<K, V>, f: V -> int, g: V -> int)
    requires forall k :: k in m ==> f(m[k]) == g(m[k])
    ensures SumBy(m, f) == SumBy(m, g)
    decreases |m|
  {
    if m != map[] {
      var k :| k in m;
      SumByRemove(m, f, k);
      SumByRemove(m, g, k);
      SumBySame(m - {k}, f, g);
    }
  }
}
