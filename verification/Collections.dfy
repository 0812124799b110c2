/** Small facts about sequences, sets and maps that the rest of the project shares. */
module Collections {

  datatype Option<+T> = None | Some(value: T)

  function Lookup<K, V>(m: map<K, V>, k: K): Option<V> {
    if k in m then Some(m[k]) else None
  }

  ghost predicate Distinct<T>(s: seq<T>) {
    forall i, j :: 0 <= i < j < |s| ==> s[i] != s[j]
  }

  function Elements<T>(s: seq<T>): set<T> {
    set x | x in s
  }

  lemma ElementsSnoc<T>(s: seq<T>, x: T)
    ensures Elements(s + [x]) == Elements(s) + {x}
  {
    forall y
      ensures y in Elements(s + [x]) <==> y in Elements(s) + {x}
    {
      assert y in s + [x] <==> y in s || y == x;
    }
  }

  lemma {:induction false} ElementsOfDistinct<T>(s: seq<T>)
    requires Distinct(s)
    ensures |Elements(s)| == |s|
  {
    if s != [] {
      var rest, x := s[..|s| - 1], s[|s| - 1];
      ElementsOfDistinct(rest);
      ElementsSnoc(rest, x);
      assert s == rest + [x];
      assert x !in Elements(rest);
    }
  }

  lemma {:induction false} ElementsBound<T>(s: seq<T>)
    ensures |Elements(s)| <= |s|
  {
    if s != [] {
      var rest, x := s[..|s| - 1], s[|s| - 1];
      ElementsBound(rest);
      ElementsSnoc(rest, x);
      assert s == rest + [x];
    }
  }

  lemma SubsetCardinality<T>(a: set<T>, b: set<T>)
    requires a <= b
    ensures |a| <= |b|
    ensures |a| == |b| ==> a == b
  {
    assert b == a + (b - a);
    if |a| == |b| {
      assert |b - a| == 0;
    }
  }

  lemma ConcatLast<T>(a: seq<T>, b: seq<T>)
    requires b != []
    ensures a + b[..|b| - 1] + [b[|b| - 1]] == a + b
  {
  }

  lemma ConcatAssociates<T>(a: seq<T>, b: seq<T>, c: seq<T>)
    ensures a + b + c == a + (b + c)
  {
  }
}
