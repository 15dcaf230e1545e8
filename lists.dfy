/**
 * The list operations the app builds on, written once: Swift's `sorted(by:)`,
 * `filter`, `first(where:)`, `firstIndex(where:)`, `remove(at:)` and SwiftUI's
 * `move(fromOffsets:toOffset:)`. `sorted(by:)` takes an "are in increasing order" predicate that must be a
 * strict weak order; the model is a stable insertion sort (Swift 5's sort is stable),
 * which places each element before every later element it does not follow.
 */
module Lists {
  import opened Wrappers
  import opened Text


  /** The comparator requirement of `sorted(by:)`: asymmetric, and "not less" is transitive. */
  ghost predicate StrictWeakOrder<T(!new)>(lt: (T, T) -> bool) {
    && (forall a, b :: lt(a, b) ==> !lt(b, a))
    && (forall a, b, c {:trigger lt(a, b), lt(b, c)} :: !lt(a, b) && !lt(b, c) ==> !lt(a, c))
  }

  /** No element is strictly smaller than an element before it. */
  ghost predicate SortedBy<T>(s: seq<T>, lt: (T, T) -> bool) {
    forall i, j :: 0 <= i < j < |s| ==> !lt(s[j], s[i])
  }

  /** Puts `x` after the leading elements of `t` that are smaller than it. */
  function Insert<T>(x: T, t: seq<T>, lt: (T, T) -> bool): seq<T> {
    if t == [] then [x]
    else if lt(t[0], x) then [t[0]] + Insert(x, t[1..], lt)
    else [x] + t
  }

  /** `s.sorted(by: lt)`. */
  function SortBy<T>(s: seq<T>, lt: (T, T) -> bool): seq<T> {
    if s == [] then [] else Insert(s[0], SortBy(s[1..], lt), lt)
  }

  lemma {:induction false} InsertPermutes<T>(x: T, t: seq<T>, lt: (T, T) -> bool)
    ensures multiset(Insert(x, t, lt)) == multiset(t) + multiset{x}
  {
    if t != [] && lt(t[0], x) {
      InsertPermutes(x, t[1..], lt);
      assert t == [t[0]] + t[1..];
    }
  }

  /** One use of the transitivity of "not less". */
  lemma NotLessChain<T(!new)>(lt: (T, T) -> bool, a: T, b: T, c: T)
    requires StrictWeakOrder(lt)
    requires !lt(a, b) && !lt(b, c)
    ensures !lt(a, c)
  {
  }

  /** Every element of `Insert(x, t)` is `x` or an element of `t`. */
  lemma InsertMembers<T>(x: T, t: seq<T>, lt: (T, T) -> bool, j: nat)
    requires j < |Insert(x, t, lt)|
    ensures Insert(x, t, lt)[j] == x || Insert(x, t, lt)[j] in t
  {
    var r := Insert(x, t, lt);
    InsertPermutes(x, t, lt);
    assert r[j] in multiset(r);
  }

  lemma {:induction false} InsertSorted<T(!new)>(x: T, t: seq<T>, lt: (T, T) -> bool)
    requires StrictWeakOrder(lt)
    requires SortedBy(t, lt)
    ensures SortedBy(Insert(x, t, lt), lt)
  {
    if t == [] {
    } else if lt(t[0], x) {
      InsertSorted(x, t[1..], lt);
      InsertSortedBehind(x, t, lt);
    } else {
      InsertSortedInFront(x, t, lt);
    }
  }

  lemma InsertSortedBehind<T(!new)>(x: T, t: seq<T>, lt: (T, T) -> bool)
    requires StrictWeakOrder(lt)
    requires SortedBy(t, lt)
    requires t != [] && lt(t[0], x)
    requires SortedBy(Insert(x, t[1..], lt), lt)
    ensures SortedBy(Insert(x, t, lt), lt)
  {
    var rest := Insert(x, t[1..], lt);
    forall j | 0 <= j < |rest|
      ensures !lt(rest[j], t[0])
    {
      RestNotBelowHead(x, t, lt, j);
    }
    ConsSorted(t[0], rest, lt);
  }

  /** A sorted list stays sorted behind a head that no element is below. */
  lemma ConsSorted<T>(h: T, rest: seq<T>, lt: (T, T) -> bool)
    requires SortedBy(rest, lt)
    requires forall j :: 0 <= j < |rest| ==> !lt(rest[j], h)
    ensures SortedBy([h] + rest, lt)
  {
    var r := [h] + rest;
    forall i, j | 0 <= i < j < |r|
      ensures !lt(r[j], r[i])
    {
      assert r[j] == rest[j - 1];
      if i > 0 {
        assert r[i] == rest[i - 1];
      }
    }
  }

  /** Behind the head of `t`, `x` and the rest of `t` are each not below it. */
  lemma RestNotBelowHead<T(!new)>(x: T, t: seq<T>, lt: (T, T) -> bool, j: nat)
    requires StrictWeakOrder(lt)
    requires SortedBy(t, lt)
    requires t != [] && lt(t[0], x)
    requires j < |Insert(x, t[1..], lt)|
    ensures !lt(Insert(x, t[1..], lt)[j], t[0])
  {
    var y := Insert(x, t[1..], lt)[j];
    InsertMembers(x, t[1..], lt, j);
    if y != x {
      TailNotBelowHead(t, lt, y);
    }
  }

  /** In a sorted list, no later element is below the head. */
  lemma TailNotBelowHead<T>(t: seq<T>, lt: (T, T) -> bool, y: T)
    requires SortedBy(t, lt)
    requires t != [] && y in t[1..]
    ensures !lt(y, t[0])
  {
    var k :| 0 <= k < |t[1..]| && t[1..][k] == y;
    assert t[k + 1] == y;
  }

  lemma InsertSortedInFront<T(!new)>(x: T, t: seq<T>, lt: (T, T) -> bool)
    requires StrictWeakOrder(lt)
    requires SortedBy(t, lt)
    requires t != [] && !lt(t[0], x)
    ensures SortedBy(Insert(x, t, lt), lt)
  {
    forall k | 0 <= k < |t|
      ensures !lt(t[k], x)
    {
      FrontNotBelowLater(x, t, lt, k);
    }
    ConsSorted(x, t, lt);
  }

  /** No element of `t` is below an `x` that is not above the head of `t`. */
  lemma FrontNotBelowLater<T(!new)>(x: T, t: seq<T>, lt: (T, T) -> bool, k: nat)
    requires StrictWeakOrder(lt)
    requires SortedBy(t, lt)
    requires k < |t| && !lt(t[0], x)
    ensures !lt(t[k], x)
  {
    if k > 0 {
      assert !lt(t[k], t[0]);
      NotLessChain(lt, t[k], t[0], x);
    }
  }

  /** `SortBy` returns a permutation of its input. */
  lemma {:induction false} SortPermutes<T>(s: seq<T>, lt: (T, T) -> bool)
    ensures multiset(SortBy(s, lt)) == multiset(s)
  {
    if s != [] {
      SortPermutes(s[1..], lt);
      InsertPermutes(s[0], SortBy(s[1..], lt), lt);
      assert s == [s[0]] + s[1..];
    }
  }

  /** `SortBy` returns a list sorted by its comparator. */
  lemma {:induction false} SortSorts<T(!new)>(s: seq<T>, lt: (T, T) -> bool)
    requires StrictWeakOrder(lt)
    ensures SortedBy(SortBy(s, lt), lt)
  {
    if s != [] {
      SortSorts(s[1..], lt);
      InsertSorted(s[0], SortBy(s[1..], lt), lt);
    }
  }

  lemma SortLength<T>(s: seq<T>, lt: (T, T) -> bool)
    ensures |SortBy(s, lt)| == |s|
  {
    SortPermutes(s, lt);
    assert |multiset(SortBy(s, lt))| == |multiset(s)|;
  }

  // ---------------------------------------------------------------------------
  // filter
  // ---------------------------------------------------------------------------

  /** `s.filter(p)`. */
  function Filter<T>(s: seq<T>, p: T -> bool): (r: seq<T>)
    ensures |r| <= |s|
  {
    if s == [] then [] else (if p(s[0]) then [s[0]] else []) + Filter(s[1..], p)
  }

  /** `r` is `s` with some elements left out, the others in their original order. */
  ghost predicate IsSubsequence<T>(r: seq<T>, s: seq<T>)
    decreases |s|
  {
    if r == [] then true
    else if s == [] then false
    else (r[0] == s[0] && IsSubsequence(r[1..], s[1..])) || IsSubsequence(r, s[1..])
  }

  lemma {:induction false} FilterMembers<T>(s: seq<T>, p: T -> bool)
    ensures forall x :: x in Filter(s, p) <==> x in s && p(x)
  {
    if s != [] {
      FilterMembers(s[1..], p);
      assert s == [s[0]] + s[1..];
    }
  }

  lemma {:induction false} FilterIsSubsequence<T>(s: seq<T>, p: T -> bool)
    ensures IsSubsequence(Filter(s, p), s)
  {
    if s != [] {
      FilterIsSubsequence(s[1..], p);
      var r := Filter(s, p);
      if p(s[0]) {
        assert r[0] == s[0] && r[1..] == Filter(s[1..], p);
      } else {
        assert r == Filter(s[1..], p);
      }
    }
  }

  /** Two successive filters still leave a subsequence of the original. */
  lemma {:induction false} FilterFilterIsSubsequence<T>(s: seq<T>, p: T -> bool, q: T -> bool)
    ensures IsSubsequence(Filter(Filter(s, p), q), s)
  {
    if s != [] {
      FilterFilterIsSubsequence(s[1..], p, q);
      FilterAppend(if p(s[0]) then [s[0]] else [], Filter(s[1..], p), q);
      var r := Filter(Filter(s, p), q);
      if p(s[0]) && q(s[0]) {
        assert r[0] == s[0] && r[1..] == Filter(Filter(s[1..], p), q);
      } else {
        assert r == Filter(Filter(s[1..], p), q);
      }
    }
  }

  /** The filter keeps every element exactly when the predicate holds throughout. */
  lemma {:induction false} FilterAll<T>(s: seq<T>, p: T -> bool)
    requires forall x :: x in s ==> p(x)
    ensures Filter(s, p) == s
  {
    if s != [] {
      FilterAll(s[1..], p);
      assert s == [s[0]] + s[1..];
    }
  }

  /** Filtering twice is filtering once by the conjunction. */
  lemma {:induction false} FilterFilter<T>(s: seq<T>, p: T -> bool, q: T -> bool)
    ensures Filter(Filter(s, p), q) == Filter(s, x => p(x) && q(x))
  {
    if s != [] {
      FilterFilter(s[1..], p, q);
      FilterAppend([s[0]], Filter(s[1..], p), q);
      if p(s[0]) {
        assert Filter(s, p) == [s[0]] + Filter(s[1..], p);
      } else {
        assert Filter(s, p) == Filter(s[1..], p);
      }
    }
  }

  lemma {:induction false} FilterAppend<T>(a: seq<T>, b: seq<T>, p: T -> bool)
    ensures Filter(a + b, p) == Filter(a, p) + Filter(b, p)
  {
    if a != [] {
      FilterAppend(a[1..], b, p);
      assert (a + b)[1..] == a[1..] + b;
    } else {
      assert a + b == b;
    }
  }

  /** Filters that agree on the list's elements keep the same elements. */
  lemma {:induction false} FilterCongruent<T>(s: seq<T>, p: T -> bool, q: T -> bool)
    requires forall x :: x in s ==> p(x) == q(x)
    ensures Filter(s, p) == Filter(s, q)
  {
    if s != [] {
      assert forall x :: x in s[1..] ==> x in s;
      FilterCongruent(s[1..], p, q);
    }
  }

  /** How many elements satisfy `p` (`s.filter(p).count`). */
  function Count<T>(s: seq<T>, p: T -> bool): nat {
    |Filter(s, p)|
  }

  /** A predicate and its complement split the list: `filter(p).count + filter(q).count == count` when `q` is `!p`. */
  lemma {:induction false} CountSplit<T>(s: seq<T>, p: T -> bool, q: T -> bool)
    requires forall x :: x in s ==> q(x) == !p(x)
    ensures Count(s, p) + Count(s, q) == |s|
  {
    if s != [] {
      CountSplit(s[1..], p, q);
    }
  }

  // ---------------------------------------------------------------------------
  // first(where:), firstIndex(where:), remove(at:)
  // ---------------------------------------------------------------------------

  /** `s.firstIndex(where: p)`. */
  function FirstIndex<T>(s: seq<T>, p: T -> bool): (r: Option<nat>)
    ensures r.Some? ==> r.value < |s| && p(s[r.value]) && forall i :: 0 <= i < r.value ==> !p(s[i])
    ensures r.None? <==> forall i :: 0 <= i < |s| ==> !p(s[i])
  {
    if s == [] then None
    else if p(s[0]) then Some(0)
    else
      var t := FirstIndex(s[1..], p);
      assert forall i :: 1 <= i < |s| ==> s[i] == s[1..][i - 1];
      if t.None? then None else Some(t.value + 1)
  }

  /** `s.first(where: p)`. */
  function FirstMatch<T>(s: seq<T>, p: T -> bool): (r: Option<T>)
    ensures r.Some? ==> r.value in s && p(r.value)
    ensures r.None? <==> forall x :: x in s ==> !p(x)
  {
    var i := FirstIndex(s, p);
    if i.None? then None else Some(s[i.value])
  }

  /** `s.remove(at: i)`. */
  function RemoveAt<T>(s: seq<T>, i: nat): (r: seq<T>)
    requires i < |s|
    ensures |r| == |s| - 1
    ensures forall j :: 0 <= j < i ==> r[j] == s[j]
    ensures forall j :: i <= j < |r| ==> r[j] == s[j + 1]
    ensures multiset(r) + multiset{s[i]} == multiset(s)
  {
    assert s == s[..i] + [s[i]] + s[i + 1..];
    s[..i] + s[i + 1..]
  }

  /** Removing a later element keeps the head in front. */
  lemma RemoveAtCons<T>(s: seq<T>, i: nat)
    requires 0 < i < |s|
    ensures RemoveAt(s, i) == [s[0]] + RemoveAt(s[1..], i - 1)
  {
    var r, t := RemoveAt(s, i), [s[0]] + RemoveAt(s[1..], i - 1);
    assert |r| == |t|;
    forall j | 0 <= j < |r|
      ensures r[j] == t[j]
    {
      if j > 0 {
        assert t[j] == RemoveAt(s[1..], i - 1)[j - 1];
      }
    }
  }

  // ---------------------------------------------------------------------------
  // move(fromOffsets:toOffset:)
  // ---------------------------------------------------------------------------

  /** The elements at the positions `lo <= i < hi` that are in `source` (`inSource`) or not in it, in order. */
  function Pick<T>(s: seq<T>, source: set<int>, inSource: bool, lo: int, hi: int): (r: seq<T>)
    requires 0 <= lo <= hi <= |s|
    ensures |r| <= hi - lo
    decreases hi - lo
  {
    if lo == hi then [] else (if (lo in source) == inSource then [s[lo]] else []) + Pick(s, source, inSource, lo + 1, hi)
  }

  lemma {:induction false} PickSplit<T>(s: seq<T>, source: set<int>, inSource: bool, lo: int, mid: int, hi: int)
    requires 0 <= lo <= mid <= hi <= |s|
    ensures Pick(s, source, inSource, lo, hi) == Pick(s, source, inSource, lo, mid) + Pick(s, source, inSource, mid, hi)
    decreases mid - lo
  {
    if lo < mid {
      PickSplit(s, source, inSource, lo + 1, mid, hi);
    }
  }

  /** The moved and the staying positions of a range together hold the range's elements. */
  lemma {:induction false} PickComplement<T>(s: seq<T>, source: set<int>, lo: int, hi: int)
    requires 0 <= lo <= hi <= |s|
    ensures multiset(Pick(s, source, true, lo, hi)) + multiset(Pick(s, source, false, lo, hi)) == multiset(s[lo..hi])
    decreases hi - lo
  {
    if lo < hi {
      PickComplement(s, source, lo + 1, hi);
      PickHead(s, source, lo, hi);
      SliceHead(s, lo, hi);
    }
  }

  lemma SliceHead<T>(s: seq<T>, lo: int, hi: int)
    requires 0 <= lo < hi <= |s|
    ensures multiset(s[lo..hi]) == multiset{s[lo]} + multiset(s[lo + 1..hi])
  {
    assert s[lo..hi] == [s[lo]] + s[lo + 1..hi];
  }

  /** The first position of a range goes to exactly one of the two picks. */
  lemma PickHead<T>(s: seq<T>, source: set<int>, lo: int, hi: int)
    requires 0 <= lo < hi <= |s|
    ensures multiset(Pick(s, source, true, lo, hi)) + multiset(Pick(s, source, false, lo, hi)) ==
      multiset{s[lo]} + multiset(Pick(s, source, true, lo + 1, hi)) + multiset(Pick(s, source, false, lo + 1, hi))
  {
    var x, a, b := [s[lo]], Pick(s, source, true, lo + 1, hi), Pick(s, source, false, lo + 1, hi);
    if lo in source {
      assert Pick(s, source, true, lo, hi) == x + a;
      assert Pick(s, source, false, lo, hi) == [] + b;
    } else {
      assert Pick(s, source, true, lo, hi) == [] + a;
      assert Pick(s, source, false, lo, hi) == x + b;
    }
  }

  /**
   * `s.move(fromOffsets: source, toOffset: destination)`: the elements at the
   * offsets in `source`, in their order, are placed where `destination` was,
   * between the other elements before it and the other elements after it.
   */
  function Move<T>(s: seq<T>, source: set<int>, destination: int): (r: seq<T>)
    requires 0 <= destination <= |s|
  {
    Pick(s, source, false, 0, destination) + Pick(s, source, true, 0, |s|) + Pick(s, source, false, destination, |s|)
  }

  /** `move` rearranges and neither adds nor drops an element. */
  lemma MovePermutes<T>(s: seq<T>, source: set<int>, destination: int)
    requires 0 <= destination <= |s|
    ensures multiset(Move(s, source, destination)) == multiset(s)
    ensures |Move(s, source, destination)| == |s|
  {
    PickSplit(s, source, false, 0, destination, |s|);
    PickComplement(s, source, 0, |s|);
    assert s[0..|s|] == s;
    var r := Move(s, source, destination);
    assert |multiset(r)| == |multiset(s)|;
  }

  lemma {:induction false} PickAll<T>(s: seq<T>, source: set<int>, inSource: bool, lo: int, hi: int)
    requires 0 <= lo <= hi <= |s|
    requires forall i :: lo <= i < hi ==> (i in source) == inSource
    ensures Pick(s, source, inSource, lo, hi) == s[lo..hi]
    decreases hi - lo
  {
    if lo < hi {
      PickAll(s, source, inSource, lo + 1, hi);
      assert s[lo..hi] == [s[lo]] + s[lo + 1..hi];
    }
  }

  lemma {:induction false} PickNone<T>(s: seq<T>, source: set<int>, inSource: bool, lo: int, hi: int)
    requires 0 <= lo <= hi <= |s|
    requires forall i :: lo <= i < hi ==> (i in source) != inSource
    ensures Pick(s, source, inSource, lo, hi) == []
    decreases hi - lo
  {
    if lo < hi {
      PickNone(s, source, inSource, lo + 1, hi);
    }
  }

  /** Moving nothing leaves the list as it is. */
  lemma MoveNothing<T>(s: seq<T>, destination: int)
    requires 0 <= destination <= |s|
    ensures Move(s, {}, destination) == s
  {
    PickAll(s, {}, false, 0, destination);
    PickAll(s, {}, false, destination, |s|);
    PickNone(s, {}, true, 0, |s|);
    assert s[0..destination] + s[destination..|s|] == s;
  }

  // ---------------------------------------------------------------------------
  // Distinct keys and duplicate removal
  // ---------------------------------------------------------------------------

  /** No two positions hold elements with the same key. */
  predicate DistinctKeys<T>(s: seq<T>, key: T -> int) {
    forall i, j :: 0 <= i < |s| && 0 <= j < |s| && key(s[i]) == key(s[j]) ==> i == j
  }

  /** With distinct keys every element occurs at most once. */
  lemma {:induction false} DistinctKeysOccurOnce<T>(s: seq<T>, key: T -> int, x: T)
    requires DistinctKeys(s, key)
    ensures multiset(s)[x] <= 1
  {
    if s != [] {
      assert DistinctKeys(s[1..], key) by {
        forall i, j | 0 <= i < |s[1..]| && 0 <= j < |s[1..]| && key(s[1..][i]) == key(s[1..][j])
          ensures i == j
        {
          assert s[1..][i] == s[i + 1] && s[1..][j] == s[j + 1];
        }
      }
      DistinctKeysOccurOnce(s[1..], key, x);
      assert s == [s[0]] + s[1..];
      if x == s[0] {
        forall k | 0 <= k < |s[1..]|
          ensures s[1..][k] != x
        {
          assert s[1..][k] == s[k + 1];
        }
        assert x !in s[1..];
      }
    }
  }

  /** Two different positions holding the same element make it occur twice. */
  lemma TwoPositions<T>(s: seq<T>, i: int, j: int)
    requires 0 <= i < j < |s| && s[i] == s[j]
    ensures multiset(s)[s[i]] >= 2
  {
    assert s == s[..j] + s[j..];
    assert s[i] in s[..j];
    assert s[j] in s[j..];
    assert multiset(s) == multiset(s[..j]) + multiset(s[j..]);
  }

  /** A rearrangement of a list with distinct keys has distinct keys. */
  lemma PermutationKeepsDistinctKeys<T>(a: seq<T>, b: seq<T>, key: T -> int)
    requires multiset(a) == multiset(b) && DistinctKeys(a, key)
    ensures DistinctKeys(b, key)
  {
    forall i, j | 0 <= i < |b| && 0 <= j < |b| && key(b[i]) == key(b[j])
      ensures i == j
    {
      assert b[i] in multiset(a) && b[j] in multiset(a);
      var ia :| 0 <= ia < |a| && a[ia] == b[i];
      var ja :| 0 <= ja < |a| && a[ja] == b[j];
      assert ia == ja;
      DistinctKeysOccurOnce(a, key, b[i]);
      if i < j {
        TwoPositions(b, i, j);
      } else if j < i {
        TwoPositions(b, j, i);
      }
    }
  }

  /** An element kept from the tail has a key different from the head's. */
  lemma KeyFromTail<T>(s: seq<T>, t: seq<T>, p: T -> bool, key: T -> int, k: nat)
    requires s != [] && DistinctKeys(s, key) && t == Filter(s[1..], p) && k < |t|
    ensures key(t[k]) != key(s[0])
  {
    FilterMembers(s[1..], p);
    assert t[k] in t;
    var m :| 0 <= m < |s[1..]| && s[1..][m] == t[k];
    assert s[m + 1] == t[k];
  }

  /** Filtering keeps keys distinct: the kept elements are a subsequence. */
  lemma {:induction false} FilterKeepsDistinctKeys<T>(s: seq<T>, p: T -> bool, key: T -> int)
    requires DistinctKeys(s, key)
    ensures DistinctKeys(Filter(s, p), key)
  {
    if s != [] {
      assert DistinctKeys(s[1..], key) by {
        forall i, j | 0 <= i < |s[1..]| && 0 <= j < |s[1..]| && key(s[1..][i]) == key(s[1..][j])
          ensures i == j
        {
          assert s[1..][i] == s[i + 1] && s[1..][j] == s[j + 1];
        }
      }
      FilterKeepsDistinctKeys(s[1..], p, key);
      FilterMembers(s[1..], p);
      var t := Filter(s[1..], p);
      if p(s[0]) {
        var r := [s[0]] + t;
        forall i, j | 0 <= i < |r| && 0 <= j < |r| && key(r[i]) == key(r[j])
          ensures i == j
        {
          if i == 0 && j > 0 {
            KeyFromTail(s, t, p, key, j - 1);
          } else if j == 0 && i > 0 {
            KeyFromTail(s, t, p, key, i - 1);
          }
        }
      }
    }
  }

  /** No element occurs twice. */
  ghost predicate Distinct<T>(s: seq<T>) {
    forall i, j :: 0 <= i < j < |s| ==> s[i] != s[j]
  }

  /** `Set(s)` listed without order: each element once. */
  function Dedup<T(==,!new)>(s: seq<T>): (r: seq<T>)
    ensures forall x :: x in r <==> x in s
    ensures Distinct(r)
  {
    if s == [] then []
    else if s[0] in s[1..] then Dedup(s[1..])
    else
      var t := Dedup(s[1..]);
      assert s[0] !in t;
      [s[0]] + t
  }

  /** Strictly increasing under `lt`. */
  predicate StrictlySortedBy<T>(s: seq<T>, lt: (T, T) -> bool) {
    forall i, j :: 0 <= i < j < |s| ==> lt(s[i], s[j])
  }

  /** Sorting a list that is already strictly increasing leaves it as it is. */
  lemma {:induction false} SortStrictlySorted<T(!new)>(s: seq<T>, lt: (T, T) -> bool)
    requires StrictWeakOrder(lt) && StrictlySortedBy(s, lt)
    ensures SortBy(s, lt) == s
  {
    if s != [] {
      assert StrictlySortedBy(s[1..], lt) by {
        forall i, j | 0 <= i < j < |s[1..]|
          ensures lt(s[1..][i], s[1..][j])
        {
          assert s[1..][i] == s[i + 1] && s[1..][j] == s[j + 1];
        }
      }
      SortStrictlySorted(s[1..], lt);
      if |s| > 1 {
        assert lt(s[0], s[1]);
        assert !lt(s[1], s[0]);
      }
      assert s == [s[0]] + s[1..];
    }
  }

  /** A distinct list sorted by a comparator that orders any two different elements is strictly increasing. */
  lemma {:induction false} SortDistinct<T(!new)>(s: seq<T>, lt: (T, T) -> bool)
    requires StrictWeakOrder(lt) && Distinct(s)
    requires forall x, y :: x != y ==> lt(x, y) || lt(y, x)
    ensures StrictlySortedBy(SortBy(s, lt), lt)
  {
    var r := SortBy(s, lt);
    SortSorts(s, lt);
    SortPermutes(s, lt);
    forall i, j | 0 <= i < j < |r|
      ensures lt(r[i], r[j])
    {
      if r[i] == r[j] {
        TwoPositions(r, i, j);
        assert r[i] in multiset(s);
        DistinctOccurOnce(s, r[i]);
      }
    }
  }

  lemma {:induction false} DistinctOccurOnce<T>(s: seq<T>, x: T)
    requires Distinct(s)
    ensures multiset(s)[x] <= 1
  {
    if s != [] {
      DistinctOccurOnce(s[1..], x);
      assert s == [s[0]] + s[1..];
      if x == s[0] {
        forall k | 0 <= k < |s[1..]|
          ensures s[1..][k] != x
        {
          assert s[1..][k] == s[k + 1];
        }
        assert x !in s[1..];
      }
    }
  }

  /** Swift's `<` on strings is a strict weak order. */
  lemma StrLtIsStrictWeakOrder()
    ensures StrictWeakOrder(StrLt)
  {
    forall a, b | StrLt(a, b)
      ensures !StrLt(b, a)
    {
      StrLtAsymmetric(a, b);
    }
    forall a, b, c | !StrLt(a, b) && !StrLt(b, c)
      ensures !StrLt(a, c)
    {
      StrLtTrichotomy(a, b);
      StrLtTrichotomy(b, c);
      if StrLt(b, a) && StrLt(c, b) {
        StrLtTransitive(c, b, a);
        StrLtAsymmetric(c, a);
      } else if StrLt(b, a) {
        StrLtAsymmetric(b, a);
      } else if StrLt(c, b) {
        StrLtAsymmetric(c, b);
      } else {
        StrLtIrreflexive(a);
      }
    }
  }

  /**
   * A comparator that puts a higher rank first and orders equal ranks by name
   * (the shape of both voice lists' `sorted(by:)`) is a strict weak order.
   */
  lemma RankThenNameIsStrictWeakOrder<T(!new)>(rank: T -> int, name: T -> string, lt: (T, T) -> bool)
    requires forall a, b :: lt(a, b) == (rank(a) > rank(b) || (rank(a) == rank(b) && StrLt(name(a), name(b))))
    ensures StrictWeakOrder(lt)
  {
    StrLtIsStrictWeakOrder();
    forall a, b | lt(a, b)
      ensures !lt(b, a)
    {
      if rank(a) == rank(b) {
        StrLtAsymmetric(name(a), name(b));
      }
    }
    forall a, b, c | !lt(a, b) && !lt(b, c)
      ensures !lt(a, c)
    {
      if rank(a) == rank(b) == rank(c) {
        NotLessChain(StrLt, name(a), name(b), name(c));
      }
    }
  }
}
