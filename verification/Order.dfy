/** Lexicographic order on strings, and what sorting by an order promises. */
module Order {

  predicate Less(a: string, b: string) {
    b != [] && (a == [] || a[0] < b[0] || (a[0] == b[0] && Less(a[1..], b[1..])))
  }

  lemma {:induction false} LessIsTotal(a: string, b: string)
    ensures a != b ==> Less(a, b) || Less(b, a)
    ensures Less(a, b) ==> a != b && !Less(b, a)
  {
    if a != [] && b != [] {
      LessIsTotal(a[1..], b[1..]);
      assert a == [a[0]] + a[1..] && b == [b[0]] + b[1..];
    }
  }

  lemma {:induction false} LessIsTransitive(a: string, b: string, c: string)
    requires Less(a, b) && Less(b, c)
    ensures Less(a, c)
  {
    if a != [] {
      if a[0] == b[0] && b[0] == c[0] {
        LessIsTransitive(a[1..], b[1..], c[1..]);
      }
    }
  }

  /** The strings differ first at place i, or one of them ends there. */
  ghost predicate PartAt(a: string, b: string, i: int) {
    && 0 <= i <= |a| && i <= |b| && a[..i] == b[..i]
    && (i < |a| && i < |b| ==> a[i] != b[i])
  }

  /** One string comes before another exactly if, where they part, it ends and the other
      goes on, or its character is the lower. */
  lemma {:induction false} LessExactly(a: string, b: string)
    ensures Less(a, b) <==> exists i :: PartAt(a, b, i) && i < |b| && (i == |a| || a[i] < b[i])
  {
    if a == [] || b == [] || a[0] != b[0] {
      assert PartAt(a, b, 0);
      forall i | PartAt(a, b, i) ensures i == 0 {
        if i > 0 {
          PartedLater(a, b, i);
        }
      }
    } else {
      LessExactly(a[1..], b[1..]);
      forall i | i >= 0 ensures PartAt(a[1..], b[1..], i) <==> PartAt(a, b, i + 1) {
        PartLater(a, b, i);
      }
      if i :| PartAt(a[1..], b[1..], i) && i < |b[1..]| && (i == |a[1..]| || a[1..][i] < b[1..][i]) {
        assert PartAt(a, b, i + 1);
      }
      if i :| PartAt(a, b, i) && i < |b| && (i == |a| || a[i] < b[i]) {
        assert i != 0;
        assert PartAt(a[1..], b[1..], i - 1);
      }
    }
  }

  lemma PartedLater(a: string, b: string, i: int)
    requires PartAt(a, b, i) && i > 0
    ensures a != [] && b != [] && a[0] == b[0]
  {
    assert a[0] == a[..i][0] == b[..i][0] == b[0];
  }

  lemma PartLater(a: string, b: string, i: nat)
    requires a != [] && b != [] && a[0] == b[0]
    ensures PartAt(a[1..], b[1..], i) <==> PartAt(a, b, i + 1)
  {
    if i <= |a[1..]| && i <= |b[1..]| {
      assert a[..i + 1] == [a[0]] + a[1..][..i] && b[..i + 1] == [b[0]] + b[1..][..i];
      if a[..i + 1] == b[..i + 1] {
        assert a[1..][..i] == a[..i + 1][1..] == b[..i + 1][1..] == b[1..][..i];
      }
    }
  }

  /** A strict order that leaves only interchangeable elements unordered. */
  ghost predicate IsOrder<T(!new)>(less: (T, T) -> bool) {
    && (forall a, b :: less(a, b) ==> !less(b, a))
    && (forall a, b, c :: !less(a, b) && !less(b, c) ==> !less(a, c))
  }

  ghost predicate Sorted<T>(s: seq<T>, less: (T, T) -> bool) {
    s == [] || ((forall x :: x in s[1..] ==> !less(x, s[0])) && Sorted(s[1..], less))
  }

  /** No later element comes before an earlier one. */
  lemma {:induction false} SortedThroughout<T>(s: seq<T>, less: (T, T) -> bool, i: nat, j: nat)
    requires Sorted(s, less) && i < j < |s|
    ensures !less(s[j], s[i])
  {
    if i > 0 {
      SortedThroughout(s[1..], less, i - 1, j - 1);
    } else {
      assert s[j] == s[1..][j - 1];
    }
  }

  /** No two different elements of s are left unordered. */
  ghost predicate Decides<T>(less: (T, T) -> bool, s: seq<T>) {
    forall a, b :: a in s && b in s && a != b ==> less(a, b) || less(b, a)
  }

  /** Elements the order does not tell apart keep their places: the sort is stable. */
  function Insert<T>(x: T, s: seq<T>, less: (T, T) -> bool): seq<T> {
    if s == [] then [x]
    else if less(s[0], x) then [s[0]] + Insert(x, s[1..], less)
    else [x] + s
  }

  function Sort<T>(s: seq<T>, less: (T, T) -> bool): seq<T> {
    if s == [] then [] else Insert(s[0], Sort(s[1..], less), less)
  }

  lemma {:induction false} InsertKeeps<T>(x: T, s: seq<T>, less: (T, T) -> bool)
    ensures multiset(Insert(x, s, less)) == multiset(s) + multiset{x}
    ensures forall y :: y in Insert(x, s, less) <==> y == x || y in s
  {
    if s != [] {
      assert s == [s[0]] + s[1..];
      if less(s[0], x) {
        InsertKeeps(x, s[1..], less);
      }
    }
  }

  lemma {:induction false} InsertSorted<T(!new)>(x: T, s: seq<T>, less: (T, T) -> bool)
    requires IsOrder(less) && Sorted(s, less)
    ensures Sorted(Insert(x, s, less), less)
  {
    if s != [] {
      if !less(s[0], x) {
        var t := [x] + s;
        assert t[1..] == s;
        forall y | y in s ensures !less(y, x) {
          assert y == s[0] || y in s[1..];
        }
      } else {
        InsertSorted(x, s[1..], less);
        InsertKeeps(x, s[1..], less);
        assert ([s[0]] + Insert(x, s[1..], less))[1..] == Insert(x, s[1..], less);
      }
    }
  }

  lemma {:induction false} SortSorts<T(!new)>(s: seq<T>, less: (T, T) -> bool)
    requires IsOrder(less)
    ensures Sorted(Sort(s, less), less) && multiset(Sort(s, less)) == multiset(s)
  {
    if s != [] {
      SortSorts(s[1..], less);
      InsertSorted(s[0], Sort(s[1..], less), less);
      InsertKeeps(s[0], Sort(s[1..], less), less);
      assert s == [s[0]] + s[1..];
    }
  }

  predicate Peer<T>(x: T, y: T, less: (T, T) -> bool) {
    !less(x, y) && !less(y, x)
  }

  /** The elements of s that the order does not tell from x. */
  function Peers<T>(s: seq<T>, x: T, less: (T, T) -> bool): seq<T> {
    if s == [] then [] else (if Peer(s[0], x, less) then [s[0]] else []) + Peers(s[1..], x, less)
  }

  lemma PeersApart<T(!new)>(a: T, b: T, e: T, less: (T, T) -> bool)
    requires IsOrder(less) && less(a, b)
    ensures !(Peer(a, e, less) && Peer(b, e, less))
  {
  }

  lemma PeersCons<T>(x: T, s: seq<T>, e: T, less: (T, T) -> bool)
    ensures Peers([x] + s, e, less) == if Peer(x, e, less) then [x] + Peers(s, e, less) else Peers(s, e, less)
  {
    assert ([x] + s)[1..] == s;
  }

  lemma {:induction false} InsertBeforePeers<T(!new)>(x: T, s: seq<T>, less: (T, T) -> bool, e: T)
    requires IsOrder(less)
    ensures Peers(Insert(x, s, less), e, less) == if Peer(x, e, less) then [x] + Peers(s, e, less) else Peers(s, e, less)
  {
    if s != [] && less(s[0], x) {
      PeersApart(s[0], x, e, less);
      hide IsOrder, Peer, Peers;
      InsertBeforePeers(x, s[1..], less, e);
      PeersCons(s[0], Insert(x, s[1..], less), e, less);
      PeersCons(s[0], s[1..], e, less);
      assert s == [s[0]] + s[1..];
    } else {
      hide IsOrder, Peer, Peers;
      PeersCons(x, s, e, less);
      assert s == [] ==> [x] + s == [x];
    }
  }

  /** Sorting keeps the order of elements that the order does not tell apart. */
  lemma {:induction false} SortIsStable<T(!new)>(s: seq<T>, less: (T, T) -> bool, e: T)
    requires IsOrder(less)
    ensures Peers(Sort(s, less), e, less) == Peers(s, e, less)
  {
    if s != [] {
      hide IsOrder, Peer, Peers, Insert;
      SortIsStable(s[1..], less, e);
      InsertBeforePeers(s[0], Sort(s[1..], less), less, e);
      PeersCons(s[0], s[1..], e, less);
      assert s == [s[0]] + s[1..];
    }
  }

  lemma HeadOrTail<T>(s: seq<T>, x: T)
    requires x in s
    ensures x == s[0] || x in s[1..]
  {
  }

  lemma SameHead<T>(s: seq<T>, t: seq<T>, less: (T, T) -> bool)
    requires Sorted(s, less) && Sorted(t, less) && s != [] && t != [] && Decides(less, s)
    requires forall x :: x in s <==> x in t
    ensures s[0] == t[0]
  {
    HeadOrTail(s, t[0]);
    HeadOrTail(t, s[0]);
  }

  /** However the elements were arranged, there is one way to sort them. */
  lemma {:induction false} SortedOnce<T>(s: seq<T>, t: seq<T>, less: (T, T) -> bool)
    requires Sorted(s, less) && Sorted(t, less) && multiset(s) == multiset(t) && Decides(less, s)
    ensures s == t
  {
    if s != [] {
      SameElements(s, t);
      SameHead(s, t, less);
      TailsAgree(s, t);
      assert Decides(less, s[1..]) by { assert forall x :: x in s[1..] ==> x in s; }
      hide Sorted, Decides;
      Tails(s, less);
      Tails(t, less);
      SortedOnce(s[1..], t[1..], less);
      assert s == [s[0]] + s[1..] && t == [t[0]] + t[1..];
    } else {
      SameElements(s, t);
    }
  }

  lemma TailsAgree<T>(s: seq<T>, t: seq<T>)
    requires multiset(s) == multiset(t) && s != [] && t != [] && s[0] == t[0]
    ensures multiset(s[1..]) == multiset(t[1..])
  {
    assert s == [s[0]] + s[1..] && t == [t[0]] + t[1..];
    assert multiset(s[1..]) == multiset(s) - multiset{s[0]};
    assert multiset(t[1..]) == multiset(t) - multiset{t[0]};
  }

  lemma Tails<T>(s: seq<T>, less: (T, T) -> bool)
    requires Sorted(s, less) && s != []
    ensures Sorted(s[1..], less)
  {
  }

  lemma SameElements<T>(s: seq<T>, t: seq<T>)
    requires multiset(s) == multiset(t)
    ensures |s| == |t| && forall x :: x in s <==> x in t
  {
    assert |multiset(s)| == |s| && |multiset(t)| == |t|;
    forall x ensures x in s <==> x in t {
      assert x in s <==> x in multiset(s);
      assert x in t <==> x in multiset(t);
    }
  }

  /** Every arrangement of the same elements sorts to the same sequence. */
  lemma SortIsCanonical<T(!new)>(s: seq<T>, t: seq<T>, less: (T, T) -> bool)
    requires IsOrder(less) && multiset(s) == multiset(t) && Decides(less, s)
    ensures Sort(s, less) == Sort(t, less)
  {
    SortSorts(s, less);
    SortSorts(t, less);
    SameElements(s, Sort(s, less));
    SortedOnce(Sort(s, less), Sort(t, less), less);
  }

  lemma LessIsOrder()
    ensures IsOrder(Less)
  {
    forall a, b | Less(a, b) ensures !Less(b, a) {
      LessIsTotal(a, b);
    }
    forall a, b, c | !Less(a, b) && !Less(b, c) ensures !Less(a, c) {
      LessIsTotal(a, b);
      LessIsTotal(b, c);
      LessIsTotal(a, c);
      if Less(a, c) && a != b && b != c {
        LessIsTransitive(a, c, b);
      }
    }
  }

  ghost predicate NoRepeats<T>(s: seq<T>) {
    s == [] || (s[0] !in s[1..] && NoRepeats(s[1..]))
  }

  lemma {:induction false} NoRepeatsAsMultiset<T>(s: seq<T>, x: T)
    requires NoRepeats(s)
    ensures multiset(s)[x] == if x in s then 1 else 0
  {
    if s != [] {
      assert s == [s[0]] + s[1..] && multiset(s) == multiset{s[0]} + multiset(s[1..]);
      NoRepeatsAsMultiset(s[1..], x);
    }
  }

  lemma {:induction false} NoRepeatsFromMultiset<T>(s: seq<T>)
    requires forall x :: multiset(s)[x] <= 1
    ensures NoRepeats(s)
  {
    if s != [] {
      assert s == [s[0]] + s[1..] && multiset(s) == multiset{s[0]} + multiset(s[1..]);
      assert s[0] !in s[1..] by { assert multiset(s)[s[0]] == 1 + multiset(s[1..])[s[0]]; }
      forall x ensures multiset(s[1..])[x] <= 1 {
        assert multiset(s)[x] >= multiset(s[1..])[x];
      }
      NoRepeatsFromMultiset(s[1..]);
    }
  }

  lemma Rearranged<T>(s: seq<T>, t: seq<T>)
    requires NoRepeats(s) && multiset(s) == multiset(t)
    ensures NoRepeats(t)
  {
    forall x ensures multiset(t)[x] <= 1 {
      NoRepeatsAsMultiset(s, x);
    }
    NoRepeatsFromMultiset(t);
  }

  /** Sequences with the same elements and no repeats are arrangements of one another. */
  lemma SameSetSameMultiset<T>(s: seq<T>, t: seq<T>)
    requires NoRepeats(s) && NoRepeats(t) && forall x :: x in s <==> x in t
    ensures multiset(s) == multiset(t)
  {
    forall x ensures multiset(s)[x] == multiset(t)[x] {
      NoRepeatsAsMultiset(s, x);
      NoRepeatsAsMultiset(t, x);
    }
  }

  lemma {:induction false} NoRepeatsAppend<T>(s: seq<T>, x: T)
    requires NoRepeats(s) && x !in s
    ensures NoRepeats(s + [x])
  {
    if s != [] {
      NoRepeatsAppend(s[1..], x);
      assert (s + [x])[1..] == s[1..] + [x];
    }
  }

  function Mapped<T, U>(s: seq<T>, f: T -> U): seq<U> {
    seq(|s|, i requires 0 <= i < |s| => f(s[i]))
  }

  /** The first element of s stands somewhere in t; what is around it there rearranges
      the rest of s. */
  lemma TakeOut<T>(s: seq<T>, t: seq<T>) returns (a: seq<T>, b: seq<T>)
    requires multiset(s) == multiset(t) && s != []
    ensures t == a + [s[0]] + b && multiset(s[1..]) == multiset(a + b)
  {
    var x := s[0];
    SameElements(s, t);
    a, b := SplitAt(t, x);
    MiddleFirst(a, x, b);
    TailsAgree(s, [x] + (a + b));
    assert ([x] + (a + b))[1..] == a + b;
  }

  lemma SplitAt<T>(t: seq<T>, x: T) returns (a: seq<T>, b: seq<T>)
    requires x in t
    ensures t == a + [x] + b
  {
    var i :| 0 <= i < |t| && t[i] == x;
    a, b := t[..i], t[i + 1..];
  }

  lemma MiddleFirst<T>(a: seq<T>, x: T, b: seq<T>)
    ensures multiset([x] + (a + b)) == multiset(a + [x] + b)
  {
  }

  /** Mapping two arrangements of the same elements gives two arrangements. */
  lemma {:induction false} MappedRearranged<T, U>(s: seq<T>, t: seq<T>, f: T -> U)
    requires multiset(s) == multiset(t)
    ensures multiset(Mapped(s, f)) == multiset(Mapped(t, f))
  {
    SameElements(s, t);
    if s != [] {
      var a, b := TakeOut(s, t);
      MappedRearranged(s[1..], a + b, f);
      MappedConcat(a, b, f);
      MappedConcat(a, [s[0]], f);
      MappedConcat(a + [s[0]], b, f);
      MappedConcat([s[0]], s[1..], f);
      assert s == [s[0]] + s[1..];
    }
  }

  lemma MappedConcat<T, U>(a: seq<T>, b: seq<T>, f: T -> U)
    ensures Mapped(a + b, f) == Mapped(a, f) + Mapped(b, f)
  {
  }

  /** s lists the keys in order. */
  ghost predicate Lists(s: seq<string>, keys: set<string>) {
    NoRepeats(s) && Sorted(s, Less) && forall k :: k in s <==> k in keys
  }

  /** Collects the keys in whatever order the set yields them, then sorts. */
  method SortedList(keys: set<string>) returns (s: seq<string>)
    ensures Lists(s, keys)
  {
    s := [];
    var left := keys;
    while left != {}
      invariant left <= keys && NoRepeats(s) && forall k :: k in s <==> k in keys && k !in left
      decreases left
    {
      var k :| k in left;
      NoRepeatsAppend(s, k);
      s := s + [k];
      left := left - {k};
    }
    LessIsOrder();
    SortSorts(s, Less);
    SameElements(s, Sort(s, Less));
    Rearranged(s, Sort(s, Less));
    s := Sort(s, Less);
  }

  lemma ListIsUnique(s: seq<string>, t: seq<string>, keys: set<string>)
    requires Lists(s, keys) && Lists(t, keys)
    ensures s == t
  {
    SameSetSameMultiset(s, t);
    forall x, y | x in s && y in s && x != y ensures Less(x, y) || Less(y, x) {
      LessIsTotal(x, y);
    }
    SortedOnce(s, t, Less);
  }

  lemma {:induction false} AllButLast<T>(before: seq<T>, last: T)
    requires NoRepeats(before + [last])
    ensures NoRepeats(before) && last !in before
  {
    if before != [] {
      assert (before + [last])[1..] == before[1..] + [last];
      AllButLast(before[1..], last);
    }
  }

  lemma {:induction false} NoRepeatsConcat<T>(s: seq<T>, t: seq<T>)
    requires NoRepeats(s) && NoRepeats(t) && forall x :: x in s ==> x !in t
    ensures NoRepeats(s + t)
  {
    if s != [] {
      NoRepeatsConcat(s[1..], t);
      assert (s + t)[1..] == s[1..] + t;
    } else {
      assert s + t == t;
    }
  }
}
