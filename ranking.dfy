// `Array.prototype.sort` with a descending numeric comparator, as the
// key-value leaderboard uses it: a stable sort (ECMAScript requires
// stability), written here as an insertion sort that places each element
// after every earlier element whose key is at least its own.

module Ranking {

  /** Keys never increase from left to right. */
  predicate SortedDesc<T>(s: seq<T>, key: T -> int)
  {
    forall i, j :: 0 <= i < j < |s| ==> key(s[i]) >= key(s[j])
  }

  /** `x` placed into the sorted `t` after the last element whose key is at least `key(x)`. */
  function Insert<T>(x: T, t: seq<T>, key: T -> int): (r: seq<T>)
    decreases |t|
  {
    if |t| == 0 then [x]
    else if key(t[|t| - 1]) >= key(x) then t + [x]
    else Insert(x, t[..|t| - 1], key) + [t[|t| - 1]]
  }

  /** `s.sort((a, b) => key(b) - key(a))` */
  function SortDesc<T>(s: seq<T>, key: T -> int): (r: seq<T>)
    decreases |s|
  {
    if |s| == 0 then [] else Insert(s[|s| - 1], SortDesc(s[..|s| - 1], key), key)
  }

  lemma {:induction false} InsertKeeps<T>(x: T, t: seq<T>, key: T -> int)
    requires SortedDesc(t, key)
    ensures multiset(Insert(x, t, key)) == multiset(t) + multiset{x}
    ensures SortedDesc(Insert(x, t, key), key)
    decreases |t|
  {
    if |t| > 0 {
      var last := t[|t| - 1];
      var front := t[..|t| - 1];
      assert t == front + [last];
      if key(last) >= key(x) {
        var r := t + [x];
        forall i, j | 0 <= i < j < |r| ensures key(r[i]) >= key(r[j]) {
          if j == |t| && i < |t| - 1 { assert key(t[i]) >= key(last); }
        }
      } else {
        assert SortedDesc(front, key);
        InsertKeeps(x, front, key);
        var mid := Insert(x, front, key);
        var r := mid + [last];
        forall i, j | 0 <= i < j < |r| ensures key(r[i]) >= key(r[j]) {
          if j == |mid| {
            assert r[i] in multiset(mid);
            if r[i] != x {
              assert r[i] in multiset(front);
              var k :| 0 <= k < |front| && front[k] == r[i];
              assert key(t[k]) >= key(last);
            }
          }
        }
      }
    }
  }

  /** The sort orders by key, highest first, and keeps exactly the input elements. */
  lemma {:induction false} SortDescCorrect<T>(s: seq<T>, key: T -> int)
    ensures SortedDesc(SortDesc(s, key), key)
    ensures multiset(SortDesc(s, key)) == multiset(s)
    ensures |SortDesc(s, key)| == |s|
    decreases |s|
  {
    if |s| > 0 {
      SortDescCorrect(s[..|s| - 1], key);
      InsertKeeps(s[|s| - 1], SortDesc(s[..|s| - 1], key), key);
      assert s == s[..|s| - 1] + [s[|s| - 1]];
      assert |multiset(SortDesc(s, key))| == |multiset(s)|;
    }
  }
  /** The elements of `s` whose key is `k`, in their order in `s`. */
  function KeyRun<T>(s: seq<T>, key: T -> int, k: int): (r: seq<T>)
    ensures |r| <= |s|
    ensures forall i :: 0 <= i < |r| ==> key(r[i]) == k
    decreases |s|
  {
    if |s| == 0 then [] else KeyRun(s[..|s| - 1], key, k) + (if key(s[|s| - 1]) == k then [s[|s| - 1]] else [])
  }

  lemma {:induction false} KeyRunAppend<T>(a: seq<T>, b: seq<T>, key: T -> int, k: int)
    ensures KeyRun(a + b, key, k) == KeyRun(a, key, k) + KeyRun(b, key, k)
    decreases |b|
  {
    if |b| > 0 {
      var b' := b[..|b| - 1];
      assert (a + b)[..|a + b| - 1] == a + b';
      assert (a + b)[|a + b| - 1] == b[|b| - 1];
      KeyRunAppend(a, b', key, k);
    } else {
      assert a + b == a;
    }
  }

  lemma KeyRunSingle<T>(x: T, key: T -> int, k: int)
    ensures KeyRun([x], key, k) == if key(x) == k then [x] else []
  {
    assert [x][..0] == [];
  }

  /** Inserting `x` puts it after every element of equal key already in `t`. */
  lemma {:induction false} InsertStable<T>(x: T, t: seq<T>, key: T -> int, k: int)
    requires SortedDesc(t, key)
    ensures KeyRun(Insert(x, t, key), key, k) == KeyRun(t, key, k) + (if key(x) == k then [x] else [])
    decreases |t|
  {
    if |t| > 0 {
      var last := t[|t| - 1];
      var front := t[..|t| - 1];
      assert t == front + [last];
      KeyRunSingle(x, key, k);
      KeyRunSingle(last, key, k);
      if key(last) >= key(x) {
        assert Insert(x, t, key) == t + [x];
        KeyRunAppend(t, [x], key, k);
      } else {
        var mid := Insert(x, front, key);
        assert Insert(x, t, key) == mid + [last];
        assert SortedDesc(front, key);
        InsertStable(x, front, key, k);
        KeyRunAppend(mid, [last], key, k);
        KeyRunAppend(front, [last], key, k);
        assert key(x) == k ==> key(last) != k;
      }
    }
  }

  /** The sort is stable: elements of equal key keep their input order. */
  lemma {:induction false} SortDescStable<T>(s: seq<T>, key: T -> int, k: int)
    ensures KeyRun(SortDesc(s, key), key, k) == KeyRun(s, key, k)
    decreases |s|
  {
    if |s| > 0 {
      SortDescStable(s[..|s| - 1], key, k);
      SortDescCorrect(s[..|s| - 1], key);
      InsertStable(s[|s| - 1], SortDesc(s[..|s| - 1], key), key, k);
    }
  }
}
