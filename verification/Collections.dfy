/** Small value types shared by the models: Option, Result and the insertion-ordered map of JavaScript. */
module Collections {
  datatype Option<+T> = None | Some(value: T)

  datatype Result<+T, +E> = Success(value: T) | Failure(error: E)

  /** A JavaScript `Map`: setting a present key keeps its position, a new key goes last. */
  datatype OrderedMap<K(==,!new), V> = OrderedMap(keys: seq<K>, vals: map<K, V>) {
    ghost predicate Valid() {
      && Distinct(keys)
      && (forall k :: k in keys <==> k in vals)
    }

    function Put(k: K, v: V): OrderedMap<K, V> {
      OrderedMap(if k in vals then keys else keys + [k], vals[k := v])
    }

    function Delete(k: K): OrderedMap<K, V> {
      OrderedMap(Without(keys, k), vals - {k})
    }
  }

  ghost predicate Distinct<K>(s: seq<K>) {
    forall i, j :: 0 <= i < j < |s| ==> s[i] != s[j]
  }

  lemma PutValid<K(!new), V>(m: OrderedMap<K, V>, k: K, v: V)
    requires m.Valid()
    ensures m.Put(k, v).Valid()
  {
  }

  /** `s` without the elements equal to `k`, in the same order. */
  function Without<K(==,!new)>(s: seq<K>, k: K): (r: seq<K>)
    ensures |r| <= |s|
    ensures k in s ==> |r| < |s|
  {
    if s == [] then []
    else if s[|s| - 1] == k then Without(s[..|s| - 1], k)
    else Without(s[..|s| - 1], k) + [s[|s| - 1]]
  }

  lemma {:induction false} WithoutKeeps<K(!new)>(s: seq<K>, k: K, x: K)
    ensures x in Without(s, k) <==> x in s && x != k
  {
    if s != [] { WithoutKeeps(s[..|s| - 1], k, x); }
  }

  function Max(a: int, b: int): int { if a < b then b else a }

  function Min(a: int, b: int): int { if a < b then a else b }

  /** The sum of a sequence of integers. */
  function Sum(s: seq<int>): int {
    if s == [] then 0 else Sum(s[..|s| - 1]) + s[|s| - 1]
  }

  lemma {:induction false} SumNonNegative(s: seq<nat>)
    ensures Sum(s) >= 0
  {
    if s != [] { SumNonNegative(s[..|s| - 1]); }
  }

  lemma {:induction false} SumConcat(a: seq<int>, b: seq<int>)
    ensures Sum(a + b) == Sum(a) + Sum(b)
  {
    if b == [] {
      assert a + b == a;
    } else {
      assert (a + b)[..|a + b| - 1] == a + b[..|b| - 1];
      SumConcat(a, b[..|b| - 1]);
    }
  }

  /** The greatest element of a finite non-empty set of integers. */
  function MaxOf(s: set<int>): (m: int)
    requires s != {}
    ensures m in s && forall x :: x in s ==> x <= m
  {
    MaxExists(s);
    var m :| IsMax(s, m);
    m
  }

  predicate IsMax(s: set<int>, m: int) { m in s && forall x :: x in s ==> x <= m }

  lemma {:induction false} MaxExists(s: set<int>)
    requires s != {}
    ensures exists m :: IsMax(s, m)
  {
    assert (forall x :: x !in s) ==> s == {};
    var a :| a in s;
    var rest := s - {a};
    if rest == {} {
      OnlyOne(s, a);
    } else {
      MaxExists(rest);
      var m :| IsMax(rest, m);
      MaxOfTwo(s, a, m);
    }
  }

  lemma OnlyOne(s: set<int>, a: int)
    requires a in s && s - {a} == {}
    ensures IsMax(s, a)
  {
    forall x | x in s ensures x <= a { assert x == a || x in s - {a}; }
  }

  lemma MaxOfTwo(s: set<int>, a: int, m: int)
    requires a in s && IsMax(s - {a}, m)
    ensures IsMax(s, if a < m then m else a)
  {
    forall x | x in s ensures x <= (if a < m then m else a) { assert x == a || x in s - {a}; }
  }
}
