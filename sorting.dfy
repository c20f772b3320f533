/**
 * Python's sorted(items, key=..., reverse=True), which generate_brief.py uses
 * three times: the result is ordered by non-increasing key and, because
 * Python's sort is stable even when reversed, items with equal keys keep
 * the order they had.  It is modelled as an insertion sort that places each
 * item before the first item whose key is not larger than its own.
 */
module Sorting {

  function InsertDesc<T>(x: T, s: seq<T>, key: T -> int): seq<T>
  {
    if s == [] || key(x) >= key(s[0]) then [x] + s else [s[0]] + InsertDesc(x, s[1..], key)
  }

  /** sorted(s, key=key, reverse=True). */
  function SortDesc<T>(s: seq<T>, key: T -> int): seq<T>
  {
    if s == [] then [] else InsertDesc(s[0], SortDesc(s[1..], key), key)
  }

  lemma {:induction false} InsertMembers<T>(x: T, s: seq<T>, key: T -> int)
    ensures |InsertDesc(x, s, key)| == |s| + 1
    ensures x in InsertDesc(x, s, key)
    ensures forall y :: y in s ==> y in InsertDesc(x, s, key)
    ensures forall y :: y in InsertDesc(x, s, key) ==> y == x || y in s
  {
    if s != [] && key(x) < key(s[0]) {
      InsertMembers(x, s[1..], key);
      assert s == [s[0]] + s[1..];
    }
  }

  lemma {:induction false} InsertPermutes<T>(x: T, s: seq<T>, key: T -> int)
    ensures multiset(InsertDesc(x, s, key)) == multiset(s) + multiset{x}
  {
    if s != [] && key(x) < key(s[0]) {
      InsertPermutes(x, s[1..], key);
      assert s == [s[0]] + s[1..];
    }
  }

  /** Sorting keeps the length and the items. */
  lemma {:induction false} SortMembers<T>(s: seq<T>, key: T -> int)
    ensures |SortDesc(s, key)| == |s|
    ensures forall y :: y in s ==> y in SortDesc(s, key)
    ensures forall y :: y in SortDesc(s, key) ==> y in s
  {
    if s != [] {
      SortMembers(s[1..], key);
      InsertMembers(s[0], SortDesc(s[1..], key), key);
      assert s == [s[0]] + s[1..];
    }
  }

  /** The sorted result is a permutation of the input. */
  lemma {:induction false} SortPermutes<T>(s: seq<T>, key: T -> int)
    ensures multiset(SortDesc(s, key)) == multiset(s)
  {
    if s != [] {
      SortPermutes(s[1..], key);
      InsertPermutes(s[0], SortDesc(s[1..], key), key);
      assert s == [s[0]] + s[1..];
    }
  }

  predicate NonIncreasing<T>(s: seq<T>, key: T -> int)
  {
    forall i, j :: 0 <= i < j < |s| ==> key(s[i]) >= key(s[j])
  }

  /** The items of s whose key is v, in the order of s. */
  function WithKey<T>(s: seq<T>, key: T -> int, v: int): seq<T>
  {
    if s == [] then [] else (if key(s[0]) == v then [s[0]] else []) + WithKey(s[1..], key, v)
  }

  /** The first components of a sequence of pairs are pairwise distinct, as the
      items of a dict are. */
  predicate DistinctFirsts<K(==), V>(s: seq<(K, V)>)
  {
    forall i, j :: 0 <= i < |s| && 0 <= j < |s| && i != j ==> s[i].0 != s[j].0
  }

  lemma ConsNonIncreasing<T>(a: T, t: seq<T>, key: T -> int)
    requires NonIncreasing(t, key)
    requires forall y :: y in t ==> key(a) >= key(y)
    ensures NonIncreasing([a] + t, key)
  {
    var r := [a] + t;
    forall i, j | 0 <= i < j < |r| ensures key(r[i]) >= key(r[j]) {
      if i == 0 {
        assert r[j] in t;
      } else {
        assert r[i] == t[i - 1] && r[j] == t[j - 1];
      }
    }
  }

  lemma {:induction false} InsertKeepsOrder<T>(x: T, s: seq<T>, key: T -> int)
    requires NonIncreasing(s, key)
    ensures NonIncreasing(InsertDesc(x, s, key), key)
  {
    if s != [] && key(x) < key(s[0]) {
      var tail := InsertDesc(x, s[1..], key);
      assert NonIncreasing(s[1..], key) by {
        forall i, j | 0 <= i < j < |s[1..]| ensures key(s[1..][i]) >= key(s[1..][j]) {
          assert s[1..][i] == s[i + 1] && s[1..][j] == s[j + 1];
        }
      }
      InsertKeepsOrder(x, s[1..], key);
      InsertMembers(x, s[1..], key);
      forall y | y in tail ensures key(s[0]) >= key(y) {
        if y != x {
          var j :| 0 <= j < |s[1..]| && s[1..][j] == y;
          assert s[j + 1] == y;
        }
      }
      ConsNonIncreasing(s[0], tail, key);
    } else {
      forall y | y in s ensures key(x) >= key(y) {
        var j :| 0 <= j < |s| && s[j] == y;
        assert key(s[0]) >= key(s[j]);
      }
      ConsNonIncreasing(x, s, key);
    }
  }

  /** The sorted result has non-increasing keys. */
  lemma {:induction false} SortedDescending<T>(s: seq<T>, key: T -> int)
    ensures NonIncreasing(SortDesc(s, key), key)
  {
    if s != [] {
      SortedDescending(s[1..], key);
      InsertKeepsOrder(s[0], SortDesc(s[1..], key), key);
    }
  }

  lemma {:induction false} WithKeyAppend<T>(a: seq<T>, b: seq<T>, key: T -> int, v: int)
    ensures WithKey(a + b, key, v) == WithKey(a, key, v) + WithKey(b, key, v)
  {
    if a != [] {
      assert (a + b)[0] == a[0];
      assert (a + b)[1..] == a[1..] + b;
      WithKeyAppend(a[1..], b, key, v);
    } else {
      assert a + b == b;
    }
  }

  lemma WithKeySingle<T>(y: T, key: T -> int, v: int)
    ensures WithKey([y], key, v) == if key(y) == v then [y] else []
  {
    assert [y][1..] == [];
  }

  lemma {:induction false} InsertStable<T>(x: T, s: seq<T>, key: T -> int, v: int)
    ensures WithKey(InsertDesc(x, s, key), key, v) == WithKey([x], key, v) + WithKey(s, key, v)
    decreases |s|, 1
  {
    if s == [] || key(x) >= key(s[0]) {
      assert InsertDesc(x, s, key) == [x] + s;
      WithKeyAppend([x], s, key, v);
    } else {
      InsertStablePast(x, s, key, v);
    }
  }

  /** The case of InsertStable where x goes past the first item. */
  lemma {:induction false} InsertStablePast<T>(x: T, s: seq<T>, key: T -> int, v: int)
    requires s != [] && key(x) < key(s[0])
    ensures WithKey(InsertDesc(x, s, key), key, v) == WithKey([x], key, v) + WithKey(s, key, v)
    decreases |s|, 0
  {
    var tail := InsertDesc(x, s[1..], key);
    var wx, ws := WithKey([x], key, v), WithKey([s[0]], key, v);
    WithKeySingle(x, key, v);
    WithKeySingle(s[0], key, v);
    assert ws == [] || wx == [];
    calc {
      WithKey(InsertDesc(x, s, key), key, v);
      { assert InsertDesc(x, s, key) == [s[0]] + tail; }
      WithKey([s[0]] + tail, key, v);
      { WithKeyAppend([s[0]], tail, key, v); }
      ws + WithKey(tail, key, v);
      { InsertStable(x, s[1..], key, v); }
      ws + (wx + WithKey(s[1..], key, v));
      wx + (ws + WithKey(s[1..], key, v));
      { WithKeyAppend([s[0]], s[1..], key, v); assert [s[0]] + s[1..] == s; }
      wx + WithKey(s, key, v);
    }
  }

  /** Sorting is stable: the items with any one key keep their relative order. */
  lemma {:induction false} SortStable<T>(s: seq<T>, key: T -> int, v: int)
    ensures WithKey(SortDesc(s, key), key, v) == WithKey(s, key, v)
  {
    if s != [] {
      calc {
        WithKey(SortDesc(s, key), key, v);
        WithKey(InsertDesc(s[0], SortDesc(s[1..], key), key), key, v);
        { InsertStable(s[0], SortDesc(s[1..], key), key, v); }
        WithKey([s[0]], key, v) + WithKey(SortDesc(s[1..], key), key, v);
        { SortStable(s[1..], key, v); }
        WithKey([s[0]], key, v) + WithKey(s[1..], key, v);
        { WithKeyAppend([s[0]], s[1..], key, v); assert [s[0]] + s[1..] == s; }
        WithKey(s, key, v);
      }
    }
  }

  lemma {:induction false} InsertKeepsFirstsDistinct<K, V>(x: (K, V), s: seq<(K, V)>, key: ((K, V)) -> int)
    requires DistinctFirsts(s)
    requires forall y :: y in s ==> y.0 != x.0
    ensures DistinctFirsts(InsertDesc(x, s, key))
  {
    var r := InsertDesc(x, s, key);
    var tail := if s == [] || key(x) >= key(s[0]) then s else InsertDesc(x, s[1..], key);
    var head := if s == [] || key(x) >= key(s[0]) then x else s[0];
    if s != [] && key(x) < key(s[0]) {
      InsertKeepsFirstsDistinct(x, s[1..], key);
      InsertMembers(x, s[1..], key);
      forall y | y in tail ensures y.0 != head.0 {
        assert y == x || y in s[1..];
        if y != x {
          var j :| 0 <= j < |s[1..]| && s[1..][j] == y;
          assert s[j + 1] == y;
        }
      }
    } else {
      forall y | y in tail ensures y.0 != head.0 {
      }
    }
    assert r == [head] + tail;
    forall i, j | 0 <= i < |r| && 0 <= j < |r| && i != j ensures r[i].0 != r[j].0 {
      if i == 0 {
        assert r[j] in tail;
      } else if j == 0 {
        assert r[i] in tail;
      } else {
        assert r[i] == tail[i - 1] && r[j] == tail[j - 1];
      }
    }
  }

  /** Sorting the items of a dict leaves their first components distinct. */
  lemma {:induction false} SortKeepsFirstsDistinct<K, V>(s: seq<(K, V)>, key: ((K, V)) -> int)
    requires DistinctFirsts(s)
    ensures DistinctFirsts(SortDesc(s, key))
  {
    if s != [] {
      assert DistinctFirsts(s[1..]) by {
        forall i, j | 0 <= i < |s[1..]| && 0 <= j < |s[1..]| && i != j ensures s[1..][i].0 != s[1..][j].0 {
          assert s[1..][i] == s[i + 1] && s[1..][j] == s[j + 1];
        }
      }
      SortKeepsFirstsDistinct(s[1..], key);
      var t := SortDesc(s[1..], key);
      SortMembers(s[1..], key);
      forall y | y in t ensures y.0 != s[0].0 {
        var j :| 0 <= j < |s[1..]| && s[1..][j] == y;
        assert s[j + 1] == y;
      }
      InsertKeepsFirstsDistinct(s[0], t, key);
    }
  }
}
