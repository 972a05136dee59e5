/** The ranking step shared by every ranked output of the system: a stable
    sort by a numeric key (Python's list.sort(key=..., reverse=True) and
    JavaScript's Array.prototype.sort with a `b - a` comparator are both
    stable), followed by a cap on the number of entries kept. */
module Ranking {

  ghost predicate SortedDesc<T>(s: seq<T>, key: T -> real) {
    forall i, j :: 0 <= i < j < |s| ==> key(s[i]) >= key(s[j])
  }

  /** Inserts x after every element of t whose key is at least key(x). */
  function InsertDesc<T>(t: seq<T>, x: T, key: T -> real): (r: seq<T>)
    ensures |r| == |t| + 1
    ensures multiset(r) == multiset(t) + multiset{x}
  {
    if t == [] then [x]
    else if key(t[0]) >= key(x) then
      assert t == [t[0]] + t[1..];
      [t[0]] + InsertDesc(t[1..], x, key)
    else [x] + t
  }

  /** Stable insertion sort into non-increasing key order. */
  function SortDesc<T>(s: seq<T>, key: T -> real): (r: seq<T>)
    ensures |r| == |s|
    ensures multiset(r) == multiset(s)
  {
    if s == [] then []
    else
      assert s == s[..|s| - 1] + [s[|s| - 1]];
      InsertDesc(SortDesc(s[..|s| - 1], key), s[|s| - 1], key)
  }

  /** Stable sort into non-decreasing key order. */
  function SortAsc<T>(s: seq<T>, key: T -> real): (r: seq<T>)
    ensures |r| == |s|
    ensures multiset(r) == multiset(s)
  {
    SortDesc(s, x => -key(x))
  }

  /** The first n entries of s, or all of s when it is shorter. */
  function Take<T>(s: seq<T>, n: nat): (r: seq<T>)
    ensures |r| == if |s| < n then |s| else n
    ensures forall i :: 0 <= i < |r| ==> r[i] == s[i]
  {
    if |s| <= n then s else s[..n]
  }

  lemma {:induction false} InsertDescSorted<T>(t: seq<T>, x: T, key: T -> real)
    requires SortedDesc(t, key)
    ensures SortedDesc(InsertDesc(t, x, key), key)
  {
    if t != [] && key(t[0]) >= key(x) {
      var rest := InsertDesc(t[1..], x, key);
      InsertDescSorted(t[1..], x, key);
      forall i | 0 <= i < |rest|
        ensures key(t[0]) >= key(rest[i])
      {
        assert rest[i] in multiset(rest);
        assert rest[i] in multiset(t[1..]) || rest[i] == x;
      }
    }
  }

  lemma {:induction false} SortDescSorted<T>(s: seq<T>, key: T -> real)
    ensures SortedDesc(SortDesc(s, key), key)
  {
    if s != [] {
      SortDescSorted(s[..|s| - 1], key);
      InsertDescSorted(SortDesc(s[..|s| - 1], key), s[|s| - 1], key);
    }
  }

  lemma SortAscSorted<T>(s: seq<T>, key: T -> real)
    ensures forall i, j :: 0 <= i < j < |SortAsc(s, key)| ==>
      key(SortAsc(s, key)[i]) <= key(SortAsc(s, key)[j])
  {
    SortDescSorted(s, x => -key(x));
  }

  /** The entries of s whose key equals k, in their order in s. */
  function KeyClass<T>(s: seq<T>, key: T -> real, k: real): seq<T>
  {
    if s == [] then []
    else KeyClass(s[..|s| - 1], key, k) + (if key(s[|s| - 1]) == k then [s[|s| - 1]] else [])
  }

  lemma {:induction false} KeyClassConcat<T>(a: seq<T>, b: seq<T>, key: T -> real, k: real)
    ensures KeyClass(a + b, key, k) == KeyClass(a, key, k) + KeyClass(b, key, k)
  {
    if b != [] {
      assert (a + b)[..|a + b| - 1] == a + b[..|b| - 1];
      KeyClassConcat(a, b[..|b| - 1], key, k);
    } else {
      assert a + b == a;
    }
  }

  lemma {:induction false} KeyClassNone<T>(s: seq<T>, key: T -> real, k: real)
    requires forall i :: 0 <= i < |s| ==> key(s[i]) != k
    ensures KeyClass(s, key, k) == []
  {
    if s != [] {
      KeyClassNone(s[..|s| - 1], key, k);
    }
  }

  lemma SortedTail<T>(t: seq<T>, key: T -> real)
    requires |t| > 0 && SortedDesc(t, key)
    ensures SortedDesc(t[1..], key)
  {
    forall i, j | 0 <= i < j < |t| - 1
      ensures key(t[1..][i]) >= key(t[1..][j])
    {
      assert t[1..][i] == t[i + 1] && t[1..][j] == t[j + 1];
    }
  }

  lemma KeyClassSingle<T>(x: T, key: T -> real, k: real)
    ensures KeyClass([x], key, k) == if key(x) == k then [x] else []
  {
    assert [x][..0] == [];
  }

  lemma {:induction false} InsertDescKeyClass<T>(t: seq<T>, x: T, key: T -> real, k: real)
    requires SortedDesc(t, key)
    ensures KeyClass(InsertDesc(t, x, key), key, k)
         == KeyClass(t, key, k) + (if key(x) == k then [x] else [])
    decreases |t|, 1
  {
    KeyClassSingle(x, key, k);
    if t == [] {
      assert InsertDesc(t, x, key) == [x];
    } else if key(t[0]) >= key(x) {
      InsertDescKeyClassKeep(t, x, key, k);
    } else {
      assert InsertDesc(t, x, key) == [x] + t;
      KeyClassConcat([x], t, key, k);
      if key(x) == k {
        forall i | 0 <= i < |t|
          ensures key(t[i]) != k
        {
          assert i == 0 || key(t[0]) >= key(t[i]);
        }
        KeyClassNone(t, key, k);
      }
    }
  }

  lemma {:induction false} InsertDescKeyClassKeep<T>(t: seq<T>, x: T, key: T -> real, k: real)
    requires SortedDesc(t, key)
    requires t != [] && key(t[0]) >= key(x)
    ensures KeyClass(InsertDesc(t, x, key), key, k)
         == KeyClass(t, key, k) + (if key(x) == k then [x] else [])
    decreases |t|, 0
  {
    var own := if key(x) == k then [x] else [];
    var rest := InsertDesc(t[1..], x, key);
    SortedTail(t, key);
    InsertDescKeyClass(t[1..], x, key, k);
    assert InsertDesc(t, x, key) == [t[0]] + rest;
    KeyClassConcat([t[0]], rest, key, k);
    assert [t[0]] + t[1..] == t;
    KeyClassConcat([t[0]], t[1..], key, k);
    ConcatRegroup(KeyClass(InsertDesc(t, x, key), key, k), KeyClass([t[0]], key, k), KeyClass(rest, key, k),
            KeyClass(t[1..], key, k), KeyClass(t, key, k), own);
  }

  lemma ConcatRegroup<T>(whole: seq<T>, a: seq<T>, b: seq<T>, c: seq<T>, total: seq<T>, own: seq<T>)
    requires whole == a + b && b == c + own && total == a + c
    ensures whole == total + own
  {
  }

  /** Stability: entries with equal keys keep their relative order. */
  lemma {:induction false} SortDescStable<T>(s: seq<T>, key: T -> real, k: real)
    ensures KeyClass(SortDesc(s, key), key, k) == KeyClass(s, key, k)
  {
    if s != [] {
      var init := s[..|s| - 1];
      SortDescStable(init, key, k);
      SortDescSorted(init, key);
      InsertDescKeyClass(SortDesc(init, key), s[|s| - 1], key, k);
    }
  }

  lemma SortedPrefixDominates<T>(t: seq<T>, key: T -> real, n: nat, x: T, y: T)
    requires SortedDesc(t, key) && n <= |t|
    requires x in t[..n] && y in t[n..]
    ensures key(x) >= key(y)
  {
    var i :| 0 <= i < n && t[..n][i] == x;
    var j :| 0 <= j < |t| - n && t[n..][j] == y;
    assert t[i] == x && t[n + j] == y;
  }

  lemma TakeSorted<T>(t: seq<T>, key: T -> real, n: nat)
    requires SortedDesc(t, key)
    ensures SortedDesc(Take(t, n), key)
  {
  }

  lemma DroppedIsSuffix<T>(s: seq<T>, t: seq<T>, n: nat)
    requires multiset(t) == multiset(s) && n <= |t|
    ensures multiset(s) - multiset(t[..n]) == multiset(t[n..])
  {
    assert t == t[..n] + t[n..];
  }

  /** Keeping the first n entries of the sorted list keeps a best n: every
      kept entry has a key at least that of every dropped entry. */
  lemma TopDominatesDropped<T>(s: seq<T>, key: T -> real, n: nat)
    ensures var r := Take(SortDesc(s, key), n);
      SortedDesc(r, key) &&
      (forall x, y :: x in r && y in multiset(s) - multiset(r) ==> key(x) >= key(y))
  {
    var t := SortDesc(s, key);
    SortDescSorted(s, key);
    TakeSorted(t, key, n);
    var r := Take(t, n);
    var m := if |t| < n then |t| else n;
    assert r == t[..m];
    DroppedIsSuffix(s, t, m);
    forall x, y | x in r && y in multiset(s) - multiset(r)
      ensures key(x) >= key(y)
    {
      assert y in t[m..];
      SortedPrefixDominates(t, key, m, x, y);
    }
  }

  /** Ranking only selects: whatever is kept came from the input. */
  lemma KeptFromInput<T>(s: seq<T>, key: T -> real, n: nat, x: T)
    requires x in Take(SortDesc(s, key), n)
    ensures x in s
  {
    var t := SortDesc(s, key);
    assert x in t;
    assert x in multiset(t);
  }
}
