/**
 * PHP's `usort` with a descending `strcmp` comparator, `function($a, $b) {
 * return strcmp(key($b), key($a)); }`: the sorted list is a permutation of the
 * input in which no element's key is `strcmp`-greater than an earlier one's.
 */
module Sorting {
  import opened PhpStrings

  /** Keys never increase along `s`. */
  ghost predicate SortedDescBy<T>(s: seq<T>, key: T -> string)
  {
    forall i, j :: 0 <= i < j < |s| ==> StrLe(key(s[j]), key(s[i]))
  }

  /** Inserts `x` after every element whose key is at least `x`'s. */
  function InsertDescBy<T>(x: T, s: seq<T>, key: T -> string): (r: seq<T>)
    ensures multiset(r) == multiset(s) + multiset{x}
    ensures |r| == |s| + 1
  {
    if s == [] then [x]
    else if StrLe(key(x), key(s[0])) then
      var r := [s[0]] + InsertDescBy(x, s[1..], key);
      assert s == [s[0]] + s[1..];
      r
    else [x] + s
  }

  /** Insertion into a descending list keeps it descending. */
  lemma {:induction false} InsertKeepsSorted<T>(x: T, s: seq<T>, key: T -> string)
    requires SortedDescBy(s, key)
    ensures SortedDescBy(InsertDescBy(x, s, key), key)
  {
    if s == [] {
    } else if StrLe(key(x), key(s[0])) {
      InsertKeepsSorted(x, s[1..], key);
      InsertBehindHead(x, s, key);
    } else {
      InsertAtHead(x, s, key);
    }
  }

  /** `x` goes after the head: the head stays first, above everything inserted behind it. */
  lemma InsertBehindHead<T>(x: T, s: seq<T>, key: T -> string)
    requires s != [] && StrLe(key(x), key(s[0])) && SortedDescBy(s, key)
    requires SortedDescBy(InsertDescBy(x, s[1..], key), key)
    ensures SortedDescBy(InsertDescBy(x, s, key), key)
  {
    var tail := InsertDescBy(x, s[1..], key);
    HeadAboveInserted(x, s, key);
    ConsKeepsSorted(s[0], tail, key);
    assert InsertDescBy(x, s, key) == [s[0]] + tail;
  }

  /** Every element of a descending list's tail sorts at or below its head. */
  lemma HeadAboveRest<T>(s: seq<T>, key: T -> string)
    requires s != [] && SortedDescBy(s, key)
    ensures forall e :: e in s[1..] ==> StrLe(key(e), key(s[0]))
  {
    forall e | e in s[1..]
      ensures StrLe(key(e), key(s[0]))
    {
      var m :| 0 <= m < |s[1..]| && s[1..][m] == e;
      assert s[m + 1] == e;
    }
  }

  /** Inserting `x` at or below the head into the tail keeps everything below the head. */
  lemma HeadAboveInserted<T>(x: T, s: seq<T>, key: T -> string)
    requires s != [] && StrLe(key(x), key(s[0])) && SortedDescBy(s, key)
    ensures forall e :: e in InsertDescBy(x, s[1..], key) ==> StrLe(key(e), key(s[0]))
  {
    HeadAboveRest(s, key);
    var tail := InsertDescBy(x, s[1..], key);
    forall e | e in tail
      ensures StrLe(key(e), key(s[0]))
    {
      assert e in multiset(tail);
      assert e in multiset(s[1..]) + multiset{x};
    }
  }

  /** A head at or above every element of a descending list keeps it descending. */
  lemma ConsKeepsSorted<T>(h: T, tail: seq<T>, key: T -> string)
    requires SortedDescBy(tail, key)
    requires forall e :: e in tail ==> StrLe(key(e), key(h))
    ensures SortedDescBy([h] + tail, key)
  {
    var r := [h] + tail;
    forall i, j | 0 <= i < j < |r|
      ensures StrLe(key(r[j]), key(r[i]))
    {
      assert r[j] == tail[j - 1];
      if i > 0 {
        assert r[i] == tail[i - 1];
      }
    }
  }

  /** `x` goes first: it is above the head, hence above everything. */
  lemma InsertAtHead<T>(x: T, s: seq<T>, key: T -> string)
    requires s != [] && !StrLe(key(x), key(s[0])) && SortedDescBy(s, key)
    ensures SortedDescBy(InsertDescBy(x, s, key), key)
  {
    var r := InsertDescBy(x, s, key);
    assert r == [x] + s;
    StrLeTotal(key(x), key(s[0]));
    forall i, j | 0 <= i < j < |r|
      ensures StrLe(key(r[j]), key(r[i]))
    {
      if i == 0 {
        assert r[j] == s[j - 1];
        if j > 1 {
          StrLeTransitive(key(s[j - 1]), key(s[0]), key(x));
        }
      } else {
        assert r[i] == s[i - 1] && r[j] == s[j - 1];
      }
    }
  }

  /** `usort` with a descending comparator on the key, as an insertion sort. */
  method SortDescBy<T>(s: seq<T>, key: T -> string) returns (r: seq<T>)
    ensures multiset(r) == multiset(s)
    ensures SortedDescBy(r, key)
  {
    r := [];
    var i := 0;
    while i < |s|
      invariant 0 <= i <= |s|
      invariant multiset(r) == multiset(s[..i])
      invariant SortedDescBy(r, key)
    {
      InsertKeepsSorted(s[i], r, key);
      r := InsertDescBy(s[i], r, key);
      assert s[..i + 1] == s[..i] + [s[i]];
      i := i + 1;
    }
    assert s[..i] == s;
  }

  /** No element occurs twice. */
  predicate NoDuplicates<T(==)>(s: seq<T>)
  {
    forall i, j :: 0 <= i < j < |s| ==> s[i] != s[j]
  }

  lemma {:induction false} NoDuplicatesCount<T>(s: seq<T>, x: T)
    requires NoDuplicates(s)
    ensures multiset(s)[x] <= 1
  {
    if s != [] {
      var t := s[..|s| - 1];
      assert s == t + [s[|s| - 1]];
      NoDuplicatesCount(t, x);
      if x == s[|s| - 1] {
        assert x !in t;
      }
    }
  }

  /** A permutation of a list without duplicates has none either. */
  lemma PermutationKeepsNoDuplicates<T>(a: seq<T>, b: seq<T>)
    requires NoDuplicates(a) && multiset(a) == multiset(b)
    ensures NoDuplicates(b)
  {
    forall i, j | 0 <= i < j < |b|
      ensures b[i] != b[j]
    {
      NoDuplicatesCount(a, b[i]);
      assert b == b[..j] + b[j..];
      assert b[i] in b[..j] && b[j] in b[j..];
    }
  }

  /** A string is its own sort key. */
  function SelfKey(s: string): (key: string)
  {
    s
  }

  /** Without duplicates, a descending list is strictly descending. */
  lemma StrictlyDescending(s: seq<string>)
    requires NoDuplicates(s) && SortedDescBy(s, SelfKey)
    ensures forall i, j :: 0 <= i < j < |s| ==> StrCmp(s[j], s[i]) < 0
  {
  }
}
