/** LINQ's OrderBy over a key selector: a stable sort. The application sorts
    its file list and its project list this way, keyed by the lower-cased
    file path and project name. Items are paired with their key first, so the
    sort itself works on values. */
module Sorting {
  import opened Text

  predicate SortedByKey<T>(xs: seq<(string, T)>)
  {
    forall i, j :: 0 <= i < j < |xs| ==> LexLe(xs[i].0, xs[j].0)
  }

  /** Inserts x before the first item whose key is not smaller, so that x
      stays in front of the items with an equal key. */
  function Insert<T>(x: (string, T), s: seq<(string, T)>): seq<(string, T)>
  {
    if s == [] || LexLe(x.0, s[0].0) then [x] + s else [s[0]] + Insert(x, s[1..])
  }

  /** Insertion sort from the back of the list towards the front. */
  function SortByKey<T>(xs: seq<(string, T)>): seq<(string, T)>
  {
    if xs == [] then [] else Insert(xs[0], SortByKey(xs[1..]))
  }

  /** The items without their keys. */
  function Values<T>(xs: seq<(string, T)>): (r: seq<T>)
    ensures |r| == |xs|
  {
    if xs == [] then [] else [xs[0].1] + Values(xs[1..])
  }

  /** Each value is the value of the item at the same place. */
  lemma {:induction false} ValuesAt<T>(xs: seq<(string, T)>)
    ensures forall i :: 0 <= i < |xs| ==> Values(xs)[i] == xs[i].1
  {
    if xs != [] {
      ValuesAt(xs[1..]);
    }
  }

  /** The items whose key is k, in their order. */
  function WithKey<T>(xs: seq<(string, T)>, k: string): seq<(string, T)>
  {
    if xs == [] then [] else (if xs[0].0 == k then [xs[0]] else []) + WithKey(xs[1..], k)
  }

  lemma {:induction false} InsertPermutes<T>(x: (string, T), s: seq<(string, T)>)
    ensures multiset(Insert(x, s)) == multiset(s) + multiset{x}
  {
    if s != [] && !LexLe(x.0, s[0].0) {
      InsertPermutes(x, s[1..]);
      assert s == [s[0]] + s[1..];
    }
  }

  lemma {:induction false} InsertPermutesValues<T>(x: (string, T), s: seq<(string, T)>)
    ensures multiset(Values(Insert(x, s))) == multiset(Values(s)) + multiset{x.1}
  {
    if s != [] && !LexLe(x.0, s[0].0) {
      InsertPermutesValues(x, s[1..]);
      assert Insert(x, s)[1..] == Insert(x, s[1..]);
    }
  }

  lemma {:induction false} InsertSorted<T>(x: (string, T), s: seq<(string, T)>)
    requires SortedByKey(s)
    ensures SortedByKey(Insert(x, s))
  {
    if s == [] {
    } else if LexLe(x.0, s[0].0) {
      forall j | 0 < j < |s| + 1 ensures LexLe(x.0, ([x] + s)[j].0) {
        if j > 1 { LexLeTransitive(x.0, s[0].0, s[j - 1].0); }
      }
    } else {
      LexLeTotal(x.0, s[0].0);
      InsertSorted(x, s[1..]);
      InsertPermutes(x, s[1..]);
      var t := Insert(x, s[1..]);
      forall j | 0 <= j < |t| ensures LexLe(s[0].0, t[j].0) {
        assert t[j] in multiset(t);
        if t[j] != x {
          assert t[j] in multiset(s[1..]);
          var k :| 0 <= k < |s[1..]| && s[1..][k] == t[j];
          assert s[k + 1] == t[j];
        }
      }
    }
  }

  lemma {:induction false} InsertStable<T>(x: (string, T), s: seq<(string, T)>, k: string)
    ensures WithKey(Insert(x, s), k) == (if x.0 == k then [x] else []) + WithKey(s, k)
  {
    if s != [] && !LexLe(x.0, s[0].0) {
      InsertStable(x, s[1..], k);
      assert Insert(x, s) == [s[0]] + Insert(x, s[1..]);
      assert ([s[0]] + Insert(x, s[1..]))[1..] == Insert(x, s[1..]);
      if x.0 == k && s[0].0 == k { LexLeReflexive(k); }
    } else {
      assert ([x] + s)[1..] == s;
    }
  }

  /** The result is ordered by key. */
  lemma {:induction false} SortByKeySorted<T>(xs: seq<(string, T)>)
    ensures SortedByKey(SortByKey(xs))
  {
    if xs != [] {
      SortByKeySorted(xs[1..]);
      InsertSorted(xs[0], SortByKey(xs[1..]));
    }
  }

  /** The result holds the same items, each as often as before. */
  lemma {:induction false} SortByKeyPermutes<T>(xs: seq<(string, T)>)
    ensures multiset(SortByKey(xs)) == multiset(xs)
  {
    if xs != [] {
      SortByKeyPermutes(xs[1..]);
      InsertPermutes(xs[0], SortByKey(xs[1..]));
      assert xs == [xs[0]] + xs[1..];
    }
  }

  /** The same, stated for the items without their keys. */
  lemma {:induction false} SortByKeyPermutesValues<T>(xs: seq<(string, T)>)
    ensures multiset(Values(SortByKey(xs))) == multiset(Values(xs))
  {
    if xs != [] {
      SortByKeyPermutesValues(xs[1..]);
      InsertPermutesValues(xs[0], SortByKey(xs[1..]));
    }
  }

  /** The sort is stable: items with the same key keep their relative order. */
  lemma {:induction false} SortByKeyStable<T>(xs: seq<(string, T)>, k: string)
    ensures WithKey(SortByKey(xs), k) == WithKey(xs, k)
  {
    if xs != [] {
      SortByKeyStable(xs[1..], k);
      InsertStable(xs[0], SortByKey(xs[1..]), k);
    }
  }
}
