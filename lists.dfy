/**
 * The Kotlin standard-library list operations the core relies on
 * (`filter`, `find`, `mapNotNull`, `sortedBy`, `minByOrNull`), as functions
 * on sequences, each with the contract the library documents.
 */
module Lists {
  import opened Wrappers

  /** `filter`: the elements of `s` that satisfy `p`, in the order of `s`. */
  function Filter<T>(s: seq<T>, p: T -> bool): (r: seq<T>)
    ensures |r| <= |s|
    ensures r == [] <==> forall i :: 0 <= i < |s| ==> !p(s[i])
  {
    if s == [] then []
    else
      var rest := Filter(s[1..], p);
      assert forall i :: 1 <= i < |s| ==> s[i] == s[1..][i - 1];
      (if p(s[0]) then [s[0]] else []) + rest
  }

  /** The filtered list holds exactly the elements of `s` that satisfy `p`, and all of `s` when each does. */
  lemma {:induction false} FilterMembers<T>(s: seq<T>, p: T -> bool)
    ensures forall i :: 0 <= i < |Filter(s, p)| ==> Filter(s, p)[i] in s && p(Filter(s, p)[i])
    ensures forall i :: 0 <= i < |s| && p(s[i]) ==> s[i] in Filter(s, p)
    ensures |Filter(s, p)| == |s| <==> forall i :: 0 <= i < |s| ==> p(s[i])
  {
    if s != [] {
      FilterMembers(s[1..], p);
      assert forall i :: 1 <= i < |s| ==> s[i] == s[1..][i - 1];
      assert Filter(s, p) == (if p(s[0]) then [s[0]] else []) + Filter(s[1..], p);
    }
  }

  /** An element of `s` is in the filtered list exactly when it satisfies `p`. */
  lemma {:induction false} FilterContains<T>(s: seq<T>, p: T -> bool, x: T)
    requires x in s
    ensures x in Filter(s, p) <==> p(x)
  {
    FilterMembers(s, p);
    var k :| 0 <= k < |s| && s[k] == x;
    if x in Filter(s, p) {
      var j :| 0 <= j < |Filter(s, p)| && Filter(s, p)[j] == x;
    }
  }

  /** Filtering distributes over concatenation, which fixes the order of the result. */
  lemma {:induction false} FilterConcat<T>(a: seq<T>, b: seq<T>, p: T -> bool)
    ensures Filter(a + b, p) == Filter(a, p) + Filter(b, p)
  {
    if a == [] {
      assert a + b == b;
    } else {
      var head := if p(a[0]) then [a[0]] else [];
      assert (a + b)[0] == a[0];
      assert (a + b)[1..] == a[1..] + b;
      FilterConcat(a[1..], b, p);
      assert Filter(a + b, p) == head + Filter(a[1..] + b, p);
      assert Filter(a, p) == head + Filter(a[1..], p);
      assert head + (Filter(a[1..], p) + Filter(b, p)) == (head + Filter(a[1..], p)) + Filter(b, p);
    }
  }

  ghost predicate IncreasingBy<T>(s: seq<T>, key: T -> int) {
    forall i, j :: 0 <= i < j < |s| ==> key(s[i]) < key(s[j])
  }

  /** An element below everything after it extends an increasing list. */
  lemma {:induction false} IncreasingCons<T>(x: T, s: seq<T>, key: T -> int)
    requires IncreasingBy(s, key)
    requires forall k :: 0 <= k < |s| ==> key(x) < key(s[k])
    ensures IncreasingBy([x] + s, key)
  {
    var t := [x] + s;
    forall i, j | 0 <= i < j < |t|
      ensures key(t[i]) < key(t[j])
    {
      assert t[j] == s[j - 1];
      if i > 0 {
        assert t[i] == s[i - 1];
      }
    }
  }

  /** Filtering keeps the relative order: a key that grows along the list grows along the filtered list. */
  lemma {:induction false} FilterKeepsIncreasing<T>(s: seq<T>, p: T -> bool, key: T -> int)
    requires IncreasingBy(s, key)
    ensures IncreasingBy(Filter(s, p), key)
  {
    if s != [] {
      var tail := s[1..];
      assert IncreasingBy(tail, key) by {
        forall i, j | 0 <= i < j < |tail|
          ensures key(tail[i]) < key(tail[j])
        {
          assert tail[i] == s[i + 1] && tail[j] == s[j + 1];
        }
      }
      FilterKeepsIncreasing(tail, p, key);
      var rest := Filter(tail, p);
      FilterMembers(tail, p);
      forall k | 0 <= k < |rest|
        ensures key(s[0]) < key(rest[k])
      {
        var m :| 0 <= m < |tail| && tail[m] == rest[k];
        assert s[m + 1] == rest[k];
      }
      assert Filter(s, p) == (if p(s[0]) then [s[0]] else []) + rest;
      if p(s[0]) {
        IncreasingCons(s[0], rest, key);
      }
    }
  }

  /** A list whose every element satisfies `p` is kept whole. */
  lemma {:induction false} FilterKeepsAll<T>(s: seq<T>, p: T -> bool)
    requires forall i :: 0 <= i < |s| ==> p(s[i])
    ensures Filter(s, p) == s
  {
    if s != [] {
      assert forall i :: 0 <= i < |s[1..]| ==> s[1..][i] == s[i + 1];
      FilterKeepsAll(s[1..], p);
    }
  }

  /** Filtering a list cut in two filters each part. */
  lemma {:induction false} FilterSplit<T>(s: seq<T>, p: T -> bool, k: nat)
    requires k <= |s|
    ensures Filter(s, p) == Filter(s[..k], p) + Filter(s[k..], p)
  {
    assert s == s[..k] + s[k..];
    FilterConcat(s[..k], s[k..], p);
  }

  /** A slice none of whose elements satisfies `p` filters to nothing. */
  lemma {:induction false} FilterNoneIn<T>(s: seq<T>, p: T -> bool, lo: nat, hi: nat)
    requires lo <= hi <= |s|
    requires forall k :: lo <= k < hi ==> !p(s[k])
    ensures Filter(s[lo..hi], p) == []
  {
    assert forall k :: 0 <= k < hi - lo ==> s[lo..hi][k] == s[lo + k];
  }

  /** A slice all of whose elements satisfy `p` is kept whole. */
  lemma {:induction false} FilterAllIn<T>(s: seq<T>, p: T -> bool, lo: nat, hi: nat)
    requires lo <= hi <= |s|
    requires forall k :: lo <= k < hi ==> p(s[k])
    ensures Filter(s[lo..hi], p) == s[lo..hi]
  {
    assert forall k :: 0 <= k < hi - lo ==> s[lo..hi][k] == s[lo + k];
    FilterKeepsAll(s[lo..hi], p);
  }

  /** Filtering a suffix cut in two filters each part. */
  lemma {:induction false} FilterSplitSuffix<T>(s: seq<T>, p: T -> bool, lo: nat, hi: nat)
    requires lo <= hi <= |s|
    ensures Filter(s[lo..], p) == Filter(s[lo..hi], p) + Filter(s[hi..], p)
  {
    var t := s[lo..];
    assert t[..hi - lo] == s[lo..hi];
    assert t[hi - lo..] == s[hi..];
    FilterSplit(t, p, hi - lo);
  }

  /** Filtering a list cut in three filters each part. */
  lemma {:induction false} FilterSplit3<T>(s: seq<T>, p: T -> bool, lo: nat, hi: nat)
    requires lo <= hi <= |s|
    ensures Filter(s, p) == Filter(s[..lo], p) + Filter(s[lo..hi], p) + Filter(s[hi..], p)
  {
    FilterSplitSuffix(s, p, lo, hi);
    FilterSplit(s, p, lo);
  }

  /** When exactly the block `s[lo..hi]` satisfies `p`, filtering yields that block. */
  lemma {:induction false} FilterExactBlock<T>(s: seq<T>, p: T -> bool, lo: nat, hi: nat)
    requires lo <= hi <= |s|
    requires forall k :: lo <= k < hi ==> p(s[k])
    requires forall k :: 0 <= k < |s| && !(lo <= k < hi) ==> !p(s[k])
    ensures Filter(s, p) == s[lo..hi]
  {
    FilterSplit3(s, p, lo, hi);
    var middle := s[lo..hi];
    assert Filter(s[..lo], p) == [] by {
      FilterNoneIn(s, p, 0, lo);
      assert s[0..lo] == s[..lo];
    }
    assert Filter(middle, p) == middle by {
      FilterAllIn(s, p, lo, hi);
    }
    assert Filter(s[hi..], p) == [] by {
      FilterNoneIn(s, p, hi, |s|);
      assert s[hi..|s|] == s[hi..];
    }
    assert [] + middle + [] == middle;
  }

  /** The index of the first element that satisfies `p`, if there is one. */
  function IndexWhere<T>(s: seq<T>, p: T -> bool): (r: Option<nat>)
    ensures r.None? <==> forall i :: 0 <= i < |s| ==> !p(s[i])
    ensures r.Some? ==> r.value < |s| && p(s[r.value]) && forall j :: 0 <= j < r.value ==> !p(s[j])
  {
    if s == [] then None
    else if p(s[0]) then Some(0)
    else
      match IndexWhere(s[1..], p)
      case None => None
      case Some(k) => Some(k + 1)
  }

  /** `find`: the first element that satisfies `p`, or null when none does. */
  function Find<T>(s: seq<T>, p: T -> bool): (r: Option<T>)
    ensures r.None? <==> forall i :: 0 <= i < |s| ==> !p(s[i])
    ensures r.Some? ==> r.value in s && p(r.value)
    ensures r.Some? ==> exists i :: 0 <= i < |s| && s[i] == r.value && forall j :: 0 <= j < i ==> !p(s[j])
  {
    match IndexWhere(s, p)
    case None => None
    case Some(i) => Some(s[i])
  }

  /** `mapNotNull`: `f` applied to every element in order, the nulls dropped. */
  function MapNotNull<T, U>(s: seq<T>, f: T -> Option<U>): (r: seq<U>)
    ensures |r| <= |s|
    ensures (forall i :: 0 <= i < |s| ==> f(s[i]).Some?) ==>
              |r| == |s| && forall i :: 0 <= i < |s| ==> r[i] == f(s[i]).value
  {
    if s == [] then []
    else
      var rest := MapNotNull(s[1..], f);
      assert forall i :: 1 <= i < |s| ==> s[i] == s[1..][i - 1];
      ToSeq(f(s[0])) + rest
  }

  /** `mapNotNull` over a concatenation is the concatenation of the two results. */
  lemma {:induction false} MapNotNullConcat<T, U>(a: seq<T>, b: seq<T>, f: T -> Option<U>)
    ensures MapNotNull(a + b, f) == MapNotNull(a, f) + MapNotNull(b, f)
    decreases |a|
  {
    if a == [] {
      assert a + b == b;
    } else {
      assert (a + b)[1..] == a[1..] + b;
      MapNotNullConcat(a[1..], b, f);
    }
  }

  /** An element that `f` sends to null contributes nothing: dropping it leaves the result unchanged. */
  lemma {:induction false} MapNotNullDrops<T, U>(s: seq<T>, j: int, f: T -> Option<U>)
    requires 0 <= j < |s| && f(s[j]).None?
    ensures MapNotNull(s, f) == MapNotNull(s[..j] + s[j + 1..], f)
  {
    var front, x, back := s[..j], [s[j]], s[j + 1..];
    assert s == front + (x + back);
    var a := MapNotNull(front, f);
    var m := MapNotNull(x + back, f);
    var b := MapNotNull(back, f);
    MapNotNullConcat(front, x + back, f);
    assert MapNotNull(s, f) == a + m;
    MapNotNullConcat(x, back, f);
    assert MapNotNull(x, f) == [] by {
      assert x[1..] == [];
      assert ToSeq(f(x[0])) == [];
    }
    assert m == b;
    MapNotNullConcat(front, back, f);
    assert MapNotNull(front + back, f) == a + b;
  }

  /** A value is in the result exactly when `f` gives it for some element. */
  lemma {:induction false} MapNotNullMembers<T, U>(s: seq<T>, f: T -> Option<U>, x: U)
    ensures x in MapNotNull(s, f) <==> exists i :: 0 <= i < |s| && f(s[i]) == Some(x)
    decreases |s|
  {
    if s != [] {
      MapNotNullMembers(s[1..], f, x);
      if exists i :: 0 <= i < |s| && f(s[i]) == Some(x) {
        var i :| 0 <= i < |s| && f(s[i]) == Some(x);
        if i > 0 {
          assert f(s[1..][i - 1]) == Some(x);
        }
      }
      if exists i :: 0 <= i < |s[1..]| && f(s[1..][i]) == Some(x) {
        var i :| 0 <= i < |s[1..]| && f(s[1..][i]) == Some(x);
        assert f(s[i + 1]) == Some(x);
      }
    }
  }

  ghost predicate SortedByKey<T>(s: seq<T>, key: T -> int) {
    forall i, j :: 0 <= i < j < |s| ==> key(s[i]) <= key(s[j])
  }

  /** Places `x` in front of the first element whose key is not smaller than its own. */
  function InsertBy<T>(x: T, s: seq<T>, key: T -> int): (r: seq<T>)
    ensures |r| == |s| + 1
    ensures multiset(r) == multiset(s) + multiset{x}
    ensures r[0] == x || (s != [] && r[0] == s[0])
  {
    if s == [] || key(x) <= key(s[0]) then [x] + s
    else
      assert s == [s[0]] + s[1..];
      [s[0]] + InsertBy(x, s[1..], key)
  }

  /** Inserting into a sorted list keeps it sorted. */
  lemma {:induction false} InsertBySorted<T>(x: T, s: seq<T>, key: T -> int)
    requires SortedByKey(s, key)
    ensures SortedByKey(InsertBy(x, s, key), key)
  {
    if s != [] && key(x) > key(s[0]) {
      var rest := InsertBy(x, s[1..], key);
      InsertBySorted(x, s[1..], key);
      assert key(s[0]) <= key(rest[0]);
      assert InsertBy(x, s, key) == [s[0]] + rest;
    }
  }

  /**
   * `sortedBy`: the list ordered by ascending `key`, equal keys keeping their
   * original order (the library sort is stable, and every stable sort yields
   * the same list; this one inserts each element in front of its equals).
   */
  function SortedBy<T>(s: seq<T>, key: T -> int): (r: seq<T>)
    ensures |r| == |s|
    ensures multiset(r) == multiset(s)
    ensures SortedByKey(r, key)
  {
    if s == [] then []
    else
      assert s == [s[0]] + s[1..];
      var t := SortedBy(s[1..], key);
      InsertBySorted(s[0], t, key);
      InsertBy(s[0], t, key)
  }

  /** The index of the first element whose key is least. */
  function IndexOfMinBy<T>(s: seq<T>, key: T -> int): (k: nat)
    requires s != []
    ensures k < |s|
    ensures forall j :: 0 <= j < |s| ==> key(s[k]) <= key(s[j])
    ensures forall j :: 0 <= j < k ==> key(s[k]) < key(s[j])
  {
    if |s| == 1 then 0
    else
      var k := IndexOfMinBy(s[1..], key);
      assert forall j :: 1 <= j < |s| ==> s[j] == s[1..][j - 1];
      if key(s[0]) <= key(s[1 + k]) then 0 else 1 + k
  }

  /** `minByOrNull`: the first element with the least key, or null for an empty list. */
  function MinByOrNull<T>(s: seq<T>, key: T -> int): (r: Option<T>)
    ensures r.None? <==> s == []
    ensures r.Some? ==> r.value in s && forall j :: 0 <= j < |s| ==> key(r.value) <= key(s[j])
  {
    if s == [] then None else Some(s[IndexOfMinBy(s, key)])
  }

  /**
   * The head of a stable ascending sort is the first element with the least
   * key: `sortedBy { k }.first()` and `minByOrNull { k }` pick the same element.
   */
  lemma {:induction false} SortedByHead<T>(s: seq<T>, key: T -> int)
    requires s != []
    ensures SortedBy(s, key)[0] == s[IndexOfMinBy(s, key)]
    ensures MinByOrNull(s, key) == Some(SortedBy(s, key)[0])
  {
    if |s| > 1 {
      SortedByHead(s[1..], key);
    }
  }

  /**
   * `i` is the first position of `s` holding an element that satisfies `p`
   * with the least key among all elements that satisfy `p`.
   */
  ghost predicate IsFirstMinWhere<T>(s: seq<T>, p: T -> bool, key: T -> int, i: int) {
    && 0 <= i < |s|
    && p(s[i])
    && (forall j :: 0 <= j < |s| && p(s[j]) ==> key(s[i]) <= key(s[j]))
    && (forall j :: 0 <= j < i && p(s[j]) ==> key(s[i]) < key(s[j]))
  }

  /** At most one position is the first least one. */
  lemma {:induction false} FirstMinWhereUnique<T>(s: seq<T>, p: T -> bool, key: T -> int, i: int, i': int)
    requires IsFirstMinWhere(s, p, key, i) && IsFirstMinWhere(s, p, key, i')
    ensures i == i'
  {
  }

  /** The first position holding the least key among the elements that satisfy `p`. */
  function FirstMinWhere<T>(s: seq<T>, p: T -> bool, key: T -> int): (i: nat)
    requires Filter(s, p) != []
    ensures IsFirstMinWhere(s, p, key, i)
  {
    assert forall j :: 1 <= j < |s| ==> s[j] == s[1..][j - 1];
    if !p(s[0]) then
      1 + FirstMinWhere(s[1..], p, key)
    else if Filter(s[1..], p) == [] then
      0
    else
      var k := 1 + FirstMinWhere(s[1..], p, key);
      if key(s[0]) <= key(s[k]) then 0 else k
  }

  /** Taking the least element of a filtered list picks the first least one of those that pass the filter. */
  lemma {:induction false} MinByOfFilter<T>(s: seq<T>, p: T -> bool, key: T -> int)
    requires Filter(s, p) != []
    ensures Filter(s, p)[IndexOfMinBy(Filter(s, p), key)] == s[FirstMinWhere(s, p, key)]
  {
    var f, rest := Filter(s, p), Filter(s[1..], p);
    assert f == (if p(s[0]) then [s[0]] else []) + rest;
    if !p(s[0]) {
      assert f == rest;
      MinByOfFilter(s[1..], p, key);
      var k := FirstMinWhere(s[1..], p, key);
      assert FirstMinWhere(s, p, key) == 1 + k;
      assert s[1..][k] == s[1 + k];
    } else if rest != [] {
      assert f[1..] == rest;
      MinByOfFilter(s[1..], p, key);
    }
  }
}
