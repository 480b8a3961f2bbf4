/** Where a value stands among others, by counting how many lie below it. */
module Ranks {
  import opened Order

  function Count<T>(s: seq<T>, f: T -> bool): nat {
    if s == [] then 0 else (if f(s[0]) then 1 else 0) + Count(s[1..], f)
  }

  ghost function Places<T>(s: seq<T>, f: T -> bool): set<nat> {
    set i: nat | i < |s| && f(s[i])
  }

  lemma PlacesAppend<T>(s: seq<T>, x: T, f: T -> bool)
    ensures Places(s + [x], f) == if f(x) then Places(s, f) + {|s|} else Places(s, f)
  {
  }

  lemma {:induction false} CountAppend<T>(s: seq<T>, x: T, f: T -> bool)
    ensures Count(s + [x], f) == Count(s, f) + if f(x) then 1 else 0
  {
    if s == [] {
      assert s + [x] == [x];
    } else {
      assert (s + [x])[1..] == s[1..] + [x];
      CountAppend(s[1..], x, f);
    }
  }

  lemma {:induction false} CountIsPlaces<T>(s: seq<T>, f: T -> bool)
    ensures Count(s, f) == |Places(s, f)|
  {
    if s != [] {
      var n := |s| - 1;
      assert s == s[..n] + [s[n]];
      CountIsPlaces(s[..n], f);
      CountAppend(s[..n], s[n], f);
      PlacesAppend(s[..n], s[n], f);
    }
  }

  lemma {:induction false} CountInsert<T>(x: T, s: seq<T>, less: (T, T) -> bool, f: T -> bool)
    ensures Count(Insert(x, s, less), f) == Count(s, f) + if f(x) then 1 else 0
  {
    if s != [] {
      if less(s[0], x) {
        CountInsert(x, s[1..], less, f);
      }
      assert ([x] + s)[1..] == s;
    }
  }

  /** Sorting moves values about and changes no count. */
  lemma {:induction false} CountSort<T>(s: seq<T>, less: (T, T) -> bool, f: T -> bool)
    ensures Count(Sort(s, less), f) == Count(s, f)
  {
    if s != [] {
      CountSort(s[1..], less, f);
      CountInsert(s[0], Sort(s[1..], less), less, f);
    }
  }

  lemma {:induction false} CountAtMost<T>(s: seq<T>, k: nat, f: T -> bool)
    requires k <= |s| && forall i :: k <= i < |s| ==> !f(s[i])
    ensures Count(s, f) <= k
  {
    if s != [] {
      CountAtMost(s[1..], if k == 0 then 0 else k - 1, f);
    }
  }

  lemma {:induction false} CountAtLeast<T>(s: seq<T>, k: nat, f: T -> bool)
    requires k <= |s| && forall i :: 0 <= i < k ==> f(s[i])
    ensures Count(s, f) >= k
  {
    if k > 0 {
      CountAtLeast(s[1..], k - 1, f);
    }
  }

  /** The places of the values that come before x, and of those that do not come after it. */
  ghost function Before<T>(s: seq<T>, less: (T, T) -> bool, x: T): set<nat> {
    set i: nat | i < |s| && less(s[i], x)
  }

  ghost function NotAfter<T>(s: seq<T>, less: (T, T) -> bool, x: T): set<nat> {
    set i: nat | i < |s| && !less(x, s[i])
  }

  /** Among any values, the one that sorting puts at place k has at most k before it, and
      more than k that do not come after it. */
  lemma RankOfPlace<T(!new)>(s: seq<T>, less: (T, T) -> bool, k: nat)
    requires IsOrder(less) && k < |s|
    ensures |Sort(s, less)| == |s|
    ensures var x := Sort(s, less)[k];
            |Before(s, less, x)| <= k < |NotAfter(s, less, x)|
  {
    var t := Sort(s, less);
    SortSorts(s, less);
    SameElements(t, s);
    var x := t[k];
    var below, upTo := y => less(y, x), y => !less(x, y);
    forall i | k <= i < |t| ensures !below(t[i]) {
      if i > k {
        SortedThroughout(t, less, k, i);
      }
    }
    forall i | 0 <= i < k + 1 ensures upTo(t[i]) {
      if i < k {
        SortedThroughout(t, less, i, k);
      }
    }
    CountAtMost(t, k, below);
    CountAtLeast(t, k + 1, upTo);
    CountSort(s, less, below);
    CountSort(s, less, upTo);
    CountIsPlaces(s, below);
    CountIsPlaces(s, upTo);
    assert Places(s, below) == Before(s, less, x) && Places(s, upTo) == NotAfter(s, less, x);
  }

  // ---------- picking some of a list, in its order ----------

  lemma WholeWithin(a: nat, k: nat, b: nat, share: real)
    requires a <= k < b && k as real <= share < k as real + 1.0
    ensures a as real <= share < b as real
  {
  }

  /** Some places of a list, in order. */
  ghost predicate Rising(at: seq<nat>, n: nat) {
    (forall k :: 0 <= k < |at| ==> at[k] < n) && forall j, k :: 0 <= j < k < |at| ==> at[j] < at[k]
  }

  lemma RisingAppend(at: seq<nat>, n: nat)
    requires Rising(at, n)
    ensures Rising(at, n + 1) && Rising(at + [n], n + 1)
  {
  }

  /** Strictly in order. */
  ghost predicate Ascending(s: seq<string>) {
    forall i, j :: 0 <= i < j < |s| ==> Less(s[i], s[j])
  }

  lemma ListsAscend(s: seq<string>, keys: set<string>)
    requires Lists(s, keys)
    ensures Ascending(s)
  {
    forall i, j | 0 <= i < j < |s| ensures Less(s[i], s[j]) {
      SortedThroughout(s, Less, i, j);
      Apart(s, i, j);
      LessIsTotal(s[i], s[j]);
    }
  }

  lemma {:induction false} Apart<T>(s: seq<T>, i: nat, j: nat)
    requires NoRepeats(s) && i < j < |s|
    ensures s[i] != s[j]
  {
    if i > 0 {
      Apart(s[1..], i - 1, j - 1);
    } else {
      assert s[j] == s[1..][j - 1];
    }
  }
}
