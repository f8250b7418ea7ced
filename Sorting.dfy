/** Python's `sorted(xs, key=...)` for string keys: a stable sort under the
    code-point order that `<` gives on str. */
module Sorting {

  /** a < b on Python strings: the first differing code point decides, and a
      proper prefix comes first. */
  predicate Below(a: string, b: string)
    decreases |a|
  {
    b != [] && (a == [] || a[0] < b[0] || (a[0] == b[0] && Below(a[1..], b[1..])))
  }

  lemma {:induction false} BelowIrreflexive(a: string)
    ensures !Below(a, a)
    decreases |a|
  {
    if a != [] {
      BelowIrreflexive(a[1..]);
    }
  }

  lemma {:induction false} BelowTransitive(a: string, b: string, c: string)
    requires Below(a, b) && Below(b, c)
    ensures Below(a, c)
    decreases |a|
  {
    if a != [] && a[0] == b[0] && b[0] == c[0] {
      BelowTransitive(a[1..], b[1..], c[1..]);
    }
  }

  lemma {:induction false} BelowTotal(a: string, b: string)
    ensures a == b || Below(a, b) || Below(b, a)
    decreases |a|
  {
    if a != [] && b != [] && a[0] == b[0] {
      BelowTotal(a[1..], b[1..]);
      if a[1..] == b[1..] {
        assert a == [a[0]] + a[1..] && b == [b[0]] + b[1..];
      }
    }
  }

  lemma BelowAsymmetric(a: string, b: string)
    requires Below(a, b)
    ensures !Below(b, a)
  {
    if Below(b, a) {
      BelowTransitive(a, b, a);
      BelowIrreflexive(a);
    }
  }

  /** "a <= b": b is not below a. */
  predicate AtMost(a: string, b: string)
  {
    !Below(b, a)
  }

  lemma AtMostTransitive(a: string, b: string, c: string)
    requires AtMost(a, b) && AtMost(b, c)
    ensures AtMost(a, c)
  {
    if Below(c, a) {
      BelowTotal(a, b);
      if a == b {
      } else {
        BelowTransitive(c, a, b);
      }
    }
  }

  /** No later element's key is below an earlier one's. */
  predicate SortedBy<T>(s: seq<T>, key: T -> string)
  {
    forall i, j :: 0 <= i < j < |s| ==> AtMost(key(s[i]), key(s[j]))
  }

  /** Places x in front of the first element whose key is not below x's. */
  function Insert<T>(x: T, s: seq<T>, key: T -> string): seq<T>
  {
    if s == [] || AtMost(key(x), key(s[0])) then [x] + s
    else [s[0]] + Insert(x, s[1..], key)
  }

  /** Insertion sort; each element is inserted ahead of the equal keys that
      follow it in the input, so the sort is stable. */
  function SortBy<T>(s: seq<T>, key: T -> string): seq<T>
  {
    if s == [] then [] else Insert(s[0], SortBy(s[1..], key), key)
  }

  /** The elements whose key is k, in their order. */
  function WithKey<T>(s: seq<T>, key: T -> string, k: string): seq<T>
  {
    if s == [] then []
    else (if key(s[0]) == k then [s[0]] else []) + WithKey(s[1..], key, k)
  }

  /** Every element's key is at least b. */
  predicate LowerBound<T>(b: string, s: seq<T>, key: T -> string)
  {
    forall i :: 0 <= i < |s| ==> AtMost(b, key(s[i]))
  }

  /** Inserting keeps the elements, adding x. */
  lemma {:induction false} InsertPermutes<T>(x: T, s: seq<T>, key: T -> string)
    ensures multiset(Insert(x, s, key)) == multiset(s) + multiset{x}
    ensures |Insert(x, s, key)| == |s| + 1
  {
    if s != [] && !AtMost(key(x), key(s[0])) {
      InsertPermutes(x, s[1..], key);
      assert s == [s[0]] + s[1..];
    }
  }

  /** A bound that holds of x and of s holds of the insertion. */
  lemma {:induction false} InsertBounded<T>(x: T, s: seq<T>, key: T -> string, b: string)
    requires LowerBound(b, s, key) && AtMost(b, key(x))
    ensures LowerBound(b, Insert(x, s, key), key)
  {
    var r := Insert(x, s, key);
    if s == [] || AtMost(key(x), key(s[0])) {
      assert r == [x] + s;
      forall i | 0 < i < |r| ensures AtMost(b, key(r[i])) {
        assert r[i] == s[i - 1];
      }
    } else {
      var t := Insert(x, s[1..], key);
      InsertBounded(x, s[1..], key, b);
      assert r == [s[0]] + t;
      forall i | 0 < i < |r| ensures AtMost(b, key(r[i])) {
        assert r[i] == t[i - 1];
      }
    }
  }

  lemma {:induction false} InsertSorted<T>(x: T, s: seq<T>, key: T -> string)
    requires SortedBy(s, key)
    ensures SortedBy(Insert(x, s, key), key)
  {
    var r := Insert(x, s, key);
    if s == [] {
    } else if AtMost(key(x), key(s[0])) {
      assert r == [x] + s;
      forall j | 1 <= j < |r| ensures AtMost(key(x), key(r[j])) {
        assert r[j] == s[j - 1];
        if j > 1 {
          AtMostTransitive(key(x), key(s[0]), key(s[j - 1]));
        }
      }
      forall i, j | 1 <= i < j < |r| ensures AtMost(key(r[i]), key(r[j])) {
        assert r[i] == s[i - 1] && r[j] == s[j - 1];
      }
    } else {
      var t := Insert(x, s[1..], key);
      SortedTail(s, key);
      InsertSorted(x, s[1..], key);
      BelowAsymmetric(key(s[0]), key(x));
      forall i | 0 <= i < |s[1..]| ensures AtMost(key(s[0]), key(s[1..][i])) {
        assert s[1..][i] == s[i + 1];
      }
      InsertBounded(x, s[1..], key, key(s[0]));
      assert r == [s[0]] + t;
      forall i, j | 0 <= i < j < |r| ensures AtMost(key(r[i]), key(r[j])) {
        assert r[j] == t[j - 1];
        if i > 0 {
          assert r[i] == t[i - 1];
        }
      }
    }
  }

  /** The result is ordered by key. */
  lemma {:induction false} SortBySorted<T>(s: seq<T>, key: T -> string)
    ensures SortedBy(SortBy(s, key), key)
    ensures multiset(SortBy(s, key)) == multiset(s)
  {
    if s != [] {
      SortBySorted(s[1..], key);
      InsertSorted(s[0], SortBy(s[1..], key), key);
      InsertPermutes(s[0], SortBy(s[1..], key), key);
      assert s == [s[0]] + s[1..];
    }
  }

  lemma SortedTail<T>(s: seq<T>, key: T -> string)
    requires s != [] && SortedBy(s, key)
    ensures SortedBy(s[1..], key)
  {
    forall i, j | 0 <= i < j < |s[1..]| ensures AtMost(key(s[1..][i]), key(s[1..][j])) {
      assert s[1..][i] == s[i + 1] && s[1..][j] == s[j + 1];
    }
  }

  lemma {:induction false} InsertWithKey<T>(x: T, s: seq<T>, key: T -> string, k: string)
    requires SortedBy(s, key)
    ensures WithKey(Insert(x, s, key), key, k)
         == (if key(x) == k then [x] else []) + WithKey(s, key, k)
  {
    var r := Insert(x, s, key);
    if s == [] || AtMost(key(x), key(s[0])) {
      assert r == [x] + s && r[0] == x && r[1..] == s;
    } else {
      var t := Insert(x, s[1..], key);
      SortedTail(s, key);
      InsertWithKey(x, s[1..], key, k);
      assert r == [s[0]] + t && r[0] == s[0] && r[1..] == t;
      if key(x) == k {
        assert key(s[0]) != k by {
          BelowIrreflexive(key(x));
        }
      }
      assert WithKey(s, key, k) == (if key(s[0]) == k then [s[0]] else []) + WithKey(s[1..], key, k);
    }
  }

  /** Stability: for every key the elements carrying it keep their input order. */
  lemma {:induction false} SortByStable<T>(s: seq<T>, key: T -> string, k: string)
    ensures WithKey(SortBy(s, key), key, k) == WithKey(s, key, k)
  {
    if s != [] {
      SortByStable(s[1..], key, k);
      SortBySorted(s[1..], key);
      InsertWithKey(s[0], SortBy(s[1..], key), key, k);
    }
  }
}
