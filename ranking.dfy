/** `array.sort((a, b) => key(b) - key(a))` as the leaderboards use it: a
    stable sort into non-increasing key order (the language has required
    `sort` to be stable since ECMAScript 2019), and `slice(0, n)`. */
module Ranking {

  ghost predicate SortedDesc<T>(s: seq<T>, key: T -> int) {
    forall i, j :: 0 <= i < j < |s| ==> key(s[i]) >= key(s[j])
  }

  /** The elements whose key is `k`, in order. */
  function WithKey<T>(s: seq<T>, key: T -> int, k: int): (r: seq<T>)
    ensures |r| <= |s|
  {
    if |s| == 0 then []
    else (if key(s[0]) == k then [s[0]] else []) + WithKey(s[1..], key, k)
  }

  lemma {:induction false} WithKeyAppend<T>(a: seq<T>, b: seq<T>, key: T -> int, k: int)
    ensures WithKey(a + b, key, k) == WithKey(a, key, k) + WithKey(b, key, k)
  {
    if |a| > 0 {
      assert (a + b)[1..] == a[1..] + b;
      WithKeyAppend(a[1..], b, key, k);
    } else {
      assert a + b == b;
    }
  }

  /** `x` placed after every element whose key is at least its own. */
  function InsertDesc<T>(x: T, s: seq<T>, key: T -> int): (r: seq<T>)
    ensures |r| == |s| + 1
  {
    if |s| == 0 then [x]
    else if key(s[0]) >= key(x) then [s[0]] + InsertDesc(x, s[1..], key)
    else [x] + s
  }

  /** Insertion adds `x` and keeps every old element. */
  lemma {:induction false} InsertDescPerm<T>(x: T, s: seq<T>, key: T -> int)
    ensures multiset(InsertDesc(x, s, key)) == multiset(s) + multiset{x}
  {
    if |s| > 0 && key(s[0]) >= key(x) {
      InsertDescPerm(x, s[1..], key);
      assert s == [s[0]] + s[1..];
    }
  }

  /** The first element of an insertion is the old head or `x`. */
  lemma InsertDescHead<T>(x: T, s: seq<T>, key: T -> int)
    ensures InsertDesc(x, s, key)[0] == (if |s| > 0 && key(s[0]) >= key(x) then s[0] else x)
  {
  }

  lemma {:induction false} InsertDescSorted<T>(x: T, s: seq<T>, key: T -> int)
    requires SortedDesc(s, key)
    ensures SortedDesc(InsertDesc(x, s, key), key)
  {
    var r := InsertDesc(x, s, key);
    if |s| > 0 && key(s[0]) >= key(x) {
      var rest := InsertDesc(x, s[1..], key);
      SortedTail(s, key);
      InsertDescSorted(x, s[1..], key);
      InsertDescElems(x, s[1..], key);
      SortedHeadBound(s, key);
      forall i, j | 0 <= i < j < |r| ensures key(r[i]) >= key(r[j]) {
        assert r[j] == rest[j - 1];
        assert rest[j - 1] in rest;
        assert rest[j - 1] in s[1..] || rest[j - 1] == x;
        if i > 0 {
          assert r[i] == rest[i - 1];
        }
      }
    } else if |s| > 0 {
      SortedHeadBound(s, key);
      forall i, j | 0 <= i < j < |r| ensures key(r[i]) >= key(r[j]) {
        assert r[j] == s[j - 1];
        if i > 0 {
          assert r[i] == s[i - 1];
        }
      }
    }
  }

  /** The elements of an insertion are `x` and the old ones. */
  lemma {:induction false} InsertDescElems<T>(x: T, s: seq<T>, key: T -> int)
    ensures forall e :: e in InsertDesc(x, s, key) ==> e == x || e in s
  {
    if |s| > 0 && key(s[0]) >= key(x) {
      InsertDescElems(x, s[1..], key);
      assert forall e :: e in s[1..] ==> e in s;
    }
  }

  /** The head of a sorted sequence has the largest key. */
  lemma SortedHeadBound<T>(s: seq<T>, key: T -> int)
    requires |s| > 0 && SortedDesc(s, key)
    ensures forall e :: e in s ==> key(e) <= key(s[0])
  {
    forall e | e in s ensures key(e) <= key(s[0]) {
      var j :| 0 <= j < |s| && s[j] == e;
      assert j == 0 || key(s[0]) >= key(s[j]);
    }
  }

  lemma WithKeyCons<T>(a: T, t: seq<T>, key: T -> int, k: int)
    ensures WithKey([a] + t, key, k) == (if key(a) == k then [a] else []) + WithKey(t, key, k)
  {
    assert ([a] + t)[1..] == t;
  }

  /** Insertion into a sorted sequence keeps the equal-key elements in
      order, the new one last among them. */
  lemma {:induction false} InsertDescStable<T>(x: T, s: seq<T>, key: T -> int, k: int)
    requires SortedDesc(s, key)
    ensures WithKey(InsertDesc(x, s, key), key, k) == WithKey(s, key, k) + (if key(x) == k then [x] else [])
  {
    if |s| == 0 {
      WithKeyCons(x, [], key, k);
      assert [x] + [] == [x];
    } else if key(s[0]) >= key(x) {
      SortedTail(s, key);
      InsertDescStable(x, s[1..], key, k);
      StableBehindHead(x, s, key, k);
    } else {
      SortedHeadBound(s, key);
      StableInFront(x, s, key, k);
    }
  }

  /** The step of `InsertDescStable` when `x` goes behind the head. */
  lemma StableBehindHead<T>(x: T, s: seq<T>, key: T -> int, k: int)
    requires |s| > 0 && key(s[0]) >= key(x)
    requires WithKey(InsertDesc(x, s[1..], key), key, k) == WithKey(s[1..], key, k) + (if key(x) == k then [x] else [])
    ensures WithKey(InsertDesc(x, s, key), key, k) == WithKey(s, key, k) + (if key(x) == k then [x] else [])
  {
    var r, rest := InsertDesc(x, s, key), InsertDesc(x, s[1..], key);
    var h := if key(s[0]) == k then [s[0]] else [];
    var tail := if key(x) == k then [x] else [];
    assert r == [s[0]] + rest;
    assert r[0] == s[0] && r[1..] == rest;
    assert WithKey(r, key, k) == h + WithKey(rest, key, k);
    assert WithKey(s, key, k) == h + WithKey(s[1..], key, k);
    assert h + (WithKey(s[1..], key, k) + tail) == (h + WithKey(s[1..], key, k)) + tail;
  }

  /** The step of `InsertDescStable` when `x` goes in front: no element of
      `s` shares its key. */
  lemma StableInFront<T>(x: T, s: seq<T>, key: T -> int, k: int)
    requires |s| > 0 && key(s[0]) < key(x)
    requires forall e :: e in s ==> key(e) <= key(s[0])
    ensures WithKey(InsertDesc(x, s, key), key, k) == WithKey(s, key, k) + (if key(x) == k then [x] else [])
  {
    WithKeyCons(x, s, key, k);
    if key(x) == k {
      WithKeyNone(s, key, k);
    }
  }

  lemma SortedTail<T>(s: seq<T>, key: T -> int)
    requires |s| > 0 && SortedDesc(s, key)
    ensures SortedDesc(s[1..], key)
  {
    assert forall i, j :: 0 <= i < j < |s| - 1 ==> s[1..][i] == s[i + 1] && s[1..][j] == s[j + 1];
  }

  lemma {:induction false} WithKeyNone<T>(s: seq<T>, key: T -> int, k: int)
    requires forall e :: e in s ==> key(e) != k
    ensures WithKey(s, key, k) == []
  {
    if |s| > 0 {
      assert forall e :: e in s[1..] ==> e in s;
      WithKeyNone(s[1..], key, k);
    }
  }

  /** The stable descending sort. */
  function SortDesc<T>(s: seq<T>, key: T -> int): (r: seq<T>)
    ensures |r| == |s|
    ensures multiset(r) == multiset(s)
  {
    if |s| == 0 then []
    else
      assert s == s[..|s| - 1] + [s[|s| - 1]];
      InsertDescPerm(s[|s| - 1], SortDesc(s[..|s| - 1], key), key);
      InsertDesc(s[|s| - 1], SortDesc(s[..|s| - 1], key), key)
  }

  lemma {:induction false} SortDescSorted<T>(s: seq<T>, key: T -> int)
    ensures SortedDesc(SortDesc(s, key), key)
  {
    if |s| > 0 {
      SortDescSorted(s[..|s| - 1], key);
      InsertDescSorted(s[|s| - 1], SortDesc(s[..|s| - 1], key), key);
    }
  }

  /** Elements with equal keys keep their input order. */
  lemma {:induction false} SortDescStable<T>(s: seq<T>, key: T -> int, k: int)
    ensures WithKey(SortDesc(s, key), key, k) == WithKey(s, key, k)
  {
    if |s| > 0 {
      var init, last := s[..|s| - 1], s[|s| - 1];
      SortDescStable(init, key, k);
      SortDescSorted(init, key);
      InsertDescStable(last, SortDesc(init, key), key, k);
      assert s == init + [last];
      WithKeyAppend(init, [last], key, k);
      WithKeyCons(last, [], key, k);
      assert [last] + [] == [last];
    }
  }

  /** An element of the input at position 10 or later of the sorted output
      has a key no larger than any of the first ten. */
  lemma TopCut<T>(s: seq<T>, key: T -> int, x: T, n: nat)
    requires x in s
    ensures x in SortDesc(s, key)[..if n <= |s| then n else |s|]
         || (n <= |s| && forall i :: 0 <= i < n ==> key(SortDesc(s, key)[i]) >= key(x))
  {
    var r := SortDesc(s, key);
    SortDescSorted(s, key);
    assert x in multiset(r);
    var j :| 0 <= j < |r| && r[j] == x;
    if j >= n {
      assert n <= |s|;
    } else {
      assert r[..if n <= |s| then n else |s|][j] == x;
    }
  }

  /** `slice(0, n)`. */
  function Take<T>(s: seq<T>, n: nat): (r: seq<T>)
    ensures |r| == if n <= |s| then n else |s|
    ensures r <= s
  {
    if n <= |s| then s[..n] else s
  }
}
