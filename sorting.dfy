/** `Array.prototype.sort` with a numeric comparator `(a, b) => key(a) - key(b)`.
    JavaScript's sort is stable, so it is modelled by an insertion sort that
    puts each element before the equal-keyed elements that follow it. */
module Sorting {
  import opened Lists

  predicate SortedBy<T>(s: seq<T>, key: T -> real) {
    forall i, j | 0 <= i < j < |s| :: key(s[i]) <= key(s[j])
  }

  /** Insert x in front of the first element whose key is not smaller. */
  function InsertBy<T>(x: T, s: seq<T>, key: T -> real): (r: seq<T>)
    ensures |r| == |s| + 1
  {
    if s == [] || key(x) <= key(s[0]) then [x] + s
    else [s[0]] + InsertBy(x, s[1..], key)
  }

  lemma {:induction false} InsertByPermutes<T>(x: T, s: seq<T>, key: T -> real)
    ensures multiset(InsertBy(x, s, key)) == multiset(s) + multiset{x}
  {
    if s != [] && key(s[0]) < key(x) {
      InsertByPermutes(x, s[1..], key);
      assert s == [s[0]] + s[1..];
    }
  }

  /** Inserting into a sorted list keeps it sorted. */
  lemma {:induction false} InsertBySorted<T>(x: T, s: seq<T>, key: T -> real)
    requires SortedBy(s, key)
    ensures SortedBy(InsertBy(x, s, key), key)
  {
    if s == [] || key(x) <= key(s[0]) {
      SortedCons(x, s, key);
    } else {
      var t := InsertBy(x, s[1..], key);
      InsertBySorted(x, s[1..], key);
      InsertByPermutes(x, s[1..], key);
      forall j | 0 <= j < |t| ensures key(s[0]) <= key(t[j]) {
        assert t[j] in multiset(s[1..]) + multiset{x};
      }
      SortedCons(s[0], t, key);
    }
  }

  lemma SortedCons<T>(a: T, t: seq<T>, key: T -> real)
    requires SortedBy(t, key)
    requires forall j | 0 <= j < |t| :: key(a) <= key(t[j])
    ensures SortedBy([a] + t, key)
  {
    var r := [a] + t;
    forall i, j | 0 <= i < j < |r| ensures key(r[i]) <= key(r[j]) {
      if i > 0 {
        assert r[i] == t[i - 1] && r[j] == t[j - 1];
      }
    }
  }

  /** Insert each element, last first, into the sorted rest. */
  function SortBy<T>(s: seq<T>, key: T -> real): (r: seq<T>)
    ensures |r| == |s|
  {
    if s == [] then [] else InsertBy(s[0], SortBy(s[1..], key), key)
  }

  /** The sorted list is ordered by key and a permutation of its input. */
  lemma {:induction false} SortByCorrect<T>(s: seq<T>, key: T -> real)
    ensures SortedBy(SortBy(s, key), key)
    ensures multiset(SortBy(s, key)) == multiset(s)
  {
    if s != [] {
      var t := SortBy(s[1..], key);
      SortByCorrect(s[1..], key);
      assert s == [s[0]] + s[1..];
      InsertBySorted(s[0], t, key);
      InsertByPermutes(s[0], t, key);
    }
  }

  /** The test "has key k", shared by the stability statements. */
  function KeyIs<T>(key: T -> real, k: real): T -> bool {
    y => key(y) == k
  }

  /** Inserting x keeps the relative order of the elements that share a key. */
  lemma {:induction false} InsertByStable<T>(x: T, s: seq<T>, key: T -> real, k: real)
    ensures Keep(InsertBy(x, s, key), KeyIs(key, k)) == Keep([x] + s, KeyIs(key, k))
  {
    if s != [] && key(s[0]) < key(x) {
      var p, t := KeyIs(key, k), InsertBy(x, s[1..], key);
      InsertByStable(x, s[1..], key, k);
      assert s == [s[0]] + s[1..];
      KeepAppend([s[0]], t, p);
      KeepAppend([x], s, p);
      KeepAppend([s[0]], s[1..], p);
      KeepAppend([x], s[1..], p);
      assert Keep([x], p) == [] || Keep([s[0]], p) == [];
    }
  }

  /** The sort is stable: the elements of any one key keep their input order. */
  lemma {:induction false} SortByStable<T>(s: seq<T>, key: T -> real, k: real)
    ensures Keep(SortBy(s, key), KeyIs(key, k)) == Keep(s, KeyIs(key, k))
  {
    if s != [] {
      SortByStable(s[1..], key, k);
      InsertByStable(s[0], SortBy(s[1..], key), key, k);
      assert ([s[0]] + SortBy(s[1..], key))[1..] == SortBy(s[1..], key);
    }
  }

  /** A list that is already in order is returned unchanged. */
  lemma {:induction false} SortBySorted<T>(s: seq<T>, key: T -> real)
    requires SortedBy(s, key)
    ensures SortBy(s, key) == s
  {
    if s != [] {
      SortBySorted(s[1..], key);
      assert s == [s[0]] + s[1..];
    }
  }
}
