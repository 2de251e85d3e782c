/** Python's `list.sort(key=...)`: a stable sort by a numeric key. The
    decoders and the tempo list call it; it is a library routine, not a loop
    of the modelled code, so it is a function here. */
module StableSort {

  /** Nondecreasing by key. */
  ghost predicate SortedBy<T>(s: seq<T>, key: T -> real) {
    forall i, j :: 0 <= i < j < |s| ==> key(s[i]) <= key(s[j])
  }

  /** The elements whose key is k, in their order in s. */
  function WithKey<T>(s: seq<T>, key: T -> real, k: real): (r: seq<T>)
    ensures |r| <= |s|
    decreases |s|
  {
    if |s| == 0 then []
    else WithKey(s[..|s| - 1], key, k) + (if key(s[|s| - 1]) == k then [s[|s| - 1]] else [])
  }

  /** Inserts x after every element whose key is at most x's key. */
  function Insert<T>(x: T, t: seq<T>, key: T -> real): (r: seq<T>)
    ensures |r| == |t| + 1
    decreases |t|
  {
    if |t| == 0 then [x]
    else if key(t[0]) <= key(x) then [t[0]] + Insert(x, t[1..], key)
    else [x] + t
  }

  /** `sorted(s, key=key)`: insertion sort, which is stable. */
  function Sort<T>(s: seq<T>, key: T -> real): (r: seq<T>)
    ensures |r| == |s|
    decreases |s|
  {
    if |s| == 0 then [] else Insert(s[|s| - 1], Sort(s[..|s| - 1], key), key)
  }

  lemma {:induction false} WithKeyAppend<T>(a: seq<T>, b: seq<T>, key: T -> real, k: real)
    ensures WithKey(a + b, key, k) == WithKey(a, key, k) + WithKey(b, key, k)
    decreases |b|
  {
    if |b| == 0 {
      assert a + b == a;
    } else {
      WithKeyAppend(a, b[..|b| - 1], key, k);
      assert (a + b)[..|a + b| - 1] == a + b[..|b| - 1];
    }
  }

  lemma {:induction false} WithKeyNone<T>(s: seq<T>, key: T -> real, k: real)
    requires forall i :: 0 <= i < |s| ==> key(s[i]) > k
    ensures WithKey(s, key, k) == []
    decreases |s|
  {
    if |s| > 0 {
      WithKeyNone(s[..|s| - 1], key, k);
    }
  }

  lemma {:induction false} InsertMultiset<T>(x: T, t: seq<T>, key: T -> real)
    ensures multiset(Insert(x, t, key)) == multiset(t) + multiset{x}
    decreases |t|
  {
    if |t| > 0 && key(t[0]) <= key(x) {
      InsertMultiset(x, t[1..], key);
      assert t == [t[0]] + t[1..];
    }
  }

  lemma {:induction false} InsertSorted<T>(x: T, t: seq<T>, key: T -> real)
    requires SortedBy(t, key)
    ensures SortedBy(Insert(x, t, key), key)
    decreases |t|
  {
    var r := Insert(x, t, key);
    if |t| > 0 && key(t[0]) <= key(x) {
      var rest := Insert(x, t[1..], key);
      InsertSorted(x, t[1..], key);
      InsertMultiset(x, t[1..], key);
      forall j | 0 < j < |r| ensures key(r[0]) <= key(r[j]) {
        assert r[j] == rest[j - 1];
        assert rest[j - 1] in multiset(rest);
        if r[j] != x {
          assert r[j] in multiset(t[1..]);
          var m :| 0 <= m < |t[1..]| && t[1..][m] == r[j];
          assert t[1 + m] == r[j];
        }
      }
      forall i, j | 0 <= i < j < |r| ensures key(r[i]) <= key(r[j]) {
        if i > 0 {
          assert r[i] == rest[i - 1] && r[j] == rest[j - 1];
        }
      }
    }
  }

  lemma {:induction false} WithKeySingle<T>(x: T, key: T -> real, k: real)
    ensures WithKey([x], key, k) == if key(x) == k then [x] else []
  {
    assert [x][..0] == [];
  }

  lemma SortedTail<T>(t: seq<T>, key: T -> real)
    requires |t| > 0 && SortedBy(t, key)
    ensures SortedBy(t[1..], key)
    ensures forall i :: 0 <= i < |t| ==> key(t[0]) <= key(t[i])
  {
    forall i, j | 0 <= i < j < |t[1..]| ensures key(t[1..][i]) <= key(t[1..][j]) {
      assert t[1..][i] == t[i + 1] && t[1..][j] == t[j + 1];
    }
  }

  lemma {:induction false} InsertWithKey<T>(x: T, t: seq<T>, key: T -> real, k: real)
    requires SortedBy(t, key)
    ensures WithKey(Insert(x, t, key), key, k) == WithKey(t, key, k) + (if key(x) == k then [x] else [])
    decreases |t|
  {
    if |t| == 0 {
      WithKeySingle(x, key, k);
    } else {
      SortedTail(t, key);
      if key(t[0]) <= key(x) {
        InsertWithKey(x, t[1..], key, k);
        InsertWithKeyBehind(x, t, key, k);
      } else {
        InsertWithKeyFront(x, t, key, k);
      }
    }
  }

  /** x goes behind t's first element: that element's keyed list leads. */
  lemma InsertWithKeyBehind<T>(x: T, t: seq<T>, key: T -> real, k: real)
    requires |t| > 0 && key(t[0]) <= key(x)
    requires WithKey(Insert(x, t[1..], key), key, k) == WithKey(t[1..], key, k) + (if key(x) == k then [x] else [])
    ensures WithKey(Insert(x, t, key), key, k) == WithKey(t, key, k) + (if key(x) == k then [x] else [])
  {
    var rest := Insert(x, t[1..], key);
    assert Insert(x, t, key) == [t[0]] + rest;
    assert t == [t[0]] + t[1..];
    WithKeyAppend([t[0]], rest, key, k);
    WithKeyAppend([t[0]], t[1..], key, k);
  }

  /** x goes in front of a sorted t whose keys all exceed x's. */
  lemma InsertWithKeyFront<T>(x: T, t: seq<T>, key: T -> real, k: real)
    requires |t| > 0 && key(x) < key(t[0])
    requires forall i :: 0 <= i < |t| ==> key(t[0]) <= key(t[i])
    ensures WithKey(Insert(x, t, key), key, k) == WithKey(t, key, k) + (if key(x) == k then [x] else [])
  {
    assert Insert(x, t, key) == [x] + t;
    WithKeyAppend([x], t, key, k);
    WithKeySingle(x, key, k);
    if key(x) == k {
      WithKeyNone(t, key, k);
    }
  }

  /** The sort's result is ordered, holds the same elements, and keeps the
      input order of elements with equal keys (stability). */
  lemma {:induction false} SortProps<T>(s: seq<T>, key: T -> real)
    ensures SortedBy(Sort(s, key), key)
    ensures multiset(Sort(s, key)) == multiset(s)
    ensures forall k :: WithKey(Sort(s, key), key, k) == WithKey(s, key, k)
    decreases |s|
  {
    if |s| > 0 {
      var init := s[..|s| - 1];
      var last := s[|s| - 1];
      SortProps(init, key);
      InsertSorted(last, Sort(init, key), key);
      InsertMultiset(last, Sort(init, key), key);
      assert s == init + [last];
      forall k ensures WithKey(Sort(s, key), key, k) == WithKey(s, key, k) {
        InsertWithKey(last, Sort(init, key), key, k);
      }
    }
  }

  lemma {:induction false} InsertAtEnd<T>(x: T, t: seq<T>, key: T -> real)
    requires forall i :: 0 <= i < |t| ==> key(t[i]) <= key(x)
    ensures Insert(x, t, key) == t + [x]
    decreases |t|
  {
    if |t| > 0 {
      InsertAtEnd(x, t[1..], key);
    }
  }

  /** Sorting a list that is already ordered changes nothing. */
  lemma {:induction false} SortSorted<T>(s: seq<T>, key: T -> real)
    requires SortedBy(s, key)
    ensures Sort(s, key) == s
    decreases |s|
  {
    if |s| > 0 {
      var init := s[..|s| - 1];
      SortSorted(init, key);
      InsertAtEnd(s[|s| - 1], init, key);
    }
  }
}
