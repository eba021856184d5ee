/** Generic sequence functions: order-preserving filter, subsequence and a
    sort by an integer key, specified by its order and its multiset. */
module Seqs {

  function Filter<T>(p: T -> bool, s: seq<T>): (r: seq<T>)
    ensures |r| <= |s|
    ensures forall i :: 0 <= i < |r| ==> r[i] in s && p(r[i])
    ensures forall i :: 0 <= i < |s| && p(s[i]) ==> s[i] in r
  {
    if s == [] then []
    else if p(s[0]) then [s[0]] + Filter(p, s[1..])
    else Filter(p, s[1..])
  }

  lemma {:induction false} FilterAppend<T>(p: T -> bool, a: seq<T>, b: seq<T>)
    ensures Filter(p, a + b) == Filter(p, a) + Filter(p, b)
  {
    if a == [] {
      assert a + b == b;
    } else {
      assert (a + b)[1..] == a[1..] + b;
      FilterAppend(p, a[1..], b);
    }
  }

  lemma {:induction false} FilterNone<T>(p: T -> bool, s: seq<T>)
    requires forall i :: 0 <= i < |s| ==> !p(s[i])
    ensures Filter(p, s) == []
  {
    if s != [] {
      FilterNone(p, s[1..]);
    }
  }

  lemma {:induction false} FilterAll<T>(p: T -> bool, s: seq<T>)
    requires forall i :: 0 <= i < |s| ==> p(s[i])
    ensures Filter(p, s) == s
  {
    if s != [] {
      FilterAll(p, s[1..]);
      assert s == [s[0]] + s[1..];
    }
  }

  /** The positions of `s` whose element satisfies `p`. */
  function IndicesWhere<T>(p: T -> bool, s: seq<T>): set<nat> {
    set i | 0 <= i < |s| && p(s[i])
  }

  /** Filtering keeps one element per index that satisfies `p`. */
  lemma {:induction false} FilterLengthIsIndexCount<T>(p: T -> bool, s: seq<T>)
    ensures |Filter(p, s)| == |IndicesWhere(p, s)|
    decreases |s|
  {
    if s != [] {
      var init, x := s[..|s| - 1], s[|s| - 1];
      assert s == init + [x];
      FilterLengthIsIndexCount(p, init);
      FilterAppend(p, init, [x]);
      IndicesWhereSnoc(p, init, x);
    }
  }

  lemma IndicesWhereSnoc<T>(p: T -> bool, init: seq<T>, x: T)
    ensures IndicesWhere(p, init + [x]) == IndicesWhere(p, init) + (if p(x) then {|init|} else {})
    ensures |init| !in IndicesWhere(p, init)
  {
    var s := init + [x];
    var before := IndicesWhere(p, init);
    var after := IndicesWhere(p, s);
    forall i | i in after ensures i in before + (if p(x) then {|init|} else {}) {
      if i < |init| {
        assert s[i] == init[i];
      }
    }
    forall i | i in before ensures i in after {
      assert s[i] == init[i];
    }
  }

  /** Two filters can be applied in either order. */
  lemma {:induction false} FilterCommutes<T>(p: T -> bool, q: T -> bool, s: seq<T>)
    ensures Filter(p, Filter(q, s)) == Filter(q, Filter(p, s))
  {
    if s != [] {
      FilterCommutes(p, q, s[1..]);
      assert s == [s[0]] + s[1..];
      FilterAppend(p, [s[0]], s[1..]);
      FilterAppend(q, [s[0]], s[1..]);
      FilterAppend(p, Filter(q, [s[0]]), Filter(q, s[1..]));
      FilterAppend(q, Filter(p, [s[0]]), Filter(p, s[1..]));
    }
  }

  /** `a` can be obtained from `b` by deleting elements. */
  ghost predicate IsSubsequence<T>(a: seq<T>, b: seq<T>)
    decreases |b|
  {
    if a == [] then true
    else if b == [] then false
    else (a[0] == b[0] && IsSubsequence(a[1..], b[1..])) || IsSubsequence(a, b[1..])
  }

  lemma {:induction false} FilterIsSubsequence<T>(p: T -> bool, s: seq<T>)
    ensures IsSubsequence(Filter(p, s), s)
  {
    if s != [] {
      FilterIsSubsequence(p, s[1..]);
      if p(s[0]) {
        assert Filter(p, s)[1..] == Filter(p, s[1..]);
      }
    }
  }

  ghost predicate SortedBy<T>(key: T -> int, s: seq<T>) {
    forall i, j :: 0 <= i < j < |s| ==> key(s[i]) <= key(s[j])
  }

  /** Inserts `x` before the first element whose key is not smaller, so that
      equal keys keep their original order. */
  function InsertBy<T>(key: T -> int, x: T, s: seq<T>): (r: seq<T>)
    requires SortedBy(key, s)
    ensures SortedBy(key, r)
    ensures multiset(r) == multiset(s) + multiset{x}
    ensures |r| == |s| + 1
  {
    if s == [] || key(x) <= key(s[0]) then [x] + s
    else
      var rest := InsertBy(key, x, s[1..]);
      InsertedAboveHead(key, s, x, rest);
      assert s == [s[0]] + s[1..];
      [s[0]] + rest
  }

  lemma InsertedAboveHead<T>(key: T -> int, s: seq<T>, x: T, rest: seq<T>)
    requires SortedBy(key, s) && s != [] && key(s[0]) < key(x)
    requires SortedBy(key, rest) && multiset(rest) == multiset(s[1..]) + multiset{x}
    ensures SortedBy(key, [s[0]] + rest)
  {
    forall i | 0 <= i < |rest| ensures key(s[0]) <= key(rest[i]) {
      assert rest[i] in multiset(rest);
      if rest[i] != x {
        assert rest[i] in multiset(s[1..]);
        var j :| 0 <= j < |s[1..]| && s[1..][j] == rest[i];
        assert s[j + 1] == rest[i];
      }
    }
    var r := [s[0]] + rest;
    forall i, j | 0 <= i < j < |r| ensures key(r[i]) <= key(r[j]) {
      if i > 0 {
        assert r[i] == rest[i - 1] && r[j] == rest[j - 1];
      }
    }
  }

  function SortBy<T>(key: T -> int, s: seq<T>): (r: seq<T>)
    ensures SortedBy(key, r)
    ensures multiset(r) == multiset(s)
    ensures |r| == |s|
  {
    if s == [] then []
    else
      assert s == [s[0]] + s[1..];
      InsertBy(key, s[0], SortBy(key, s[1..]))
  }

  /** `.order(key).limit(n)`: the first `n` elements in key order. */
  function FirstByKey<T>(key: T -> int, s: seq<T>, n: nat): (r: seq<T>)
    ensures |r| == if |s| < n then |s| else n
    ensures SortedBy(key, r)
    ensures multiset(r) <= multiset(s)
  {
    var sorted := SortBy(key, s);
    var k := if |s| < n then |s| else n;
    assert sorted == sorted[..k] + sorted[k..];
    sorted[..k]
  }

  /** What `FirstByKey` cuts off. */
  function RestByKey<T>(key: T -> int, s: seq<T>, n: nat): seq<T> {
    SortBy(key, s)[(if |s| < n then |s| else n)..]
  }

  /** The limit keeps the smallest keys: everything cut off has a key no
      smaller than anything kept, and together they are the whole input. */
  lemma FirstByKeyKeepsSmallest<T>(key: T -> int, s: seq<T>, n: nat)
    ensures multiset(FirstByKey(key, s, n)) + multiset(RestByKey(key, s, n)) == multiset(s)
    ensures forall i, j :: 0 <= i < |FirstByKey(key, s, n)| && 0 <= j < |RestByKey(key, s, n)| ==>
      key(FirstByKey(key, s, n)[i]) <= key(RestByKey(key, s, n)[j])
  {
    var sorted := SortBy(key, s);
    var k := if |s| < n then |s| else n;
    assert sorted == sorted[..k] + sorted[k..];
    forall i, j | 0 <= i < k && 0 <= j < |sorted| - k
      ensures key(sorted[..k][i]) <= key(sorted[k..][j])
    {
      assert sorted[..k][i] == sorted[i] && sorted[k..][j] == sorted[k + j];
    }
  }

  /** The head of a sorted permutation has the smallest key of the input. */
  lemma SortedHeadIsMinimum<T>(key: T -> int, s: seq<T>, r: seq<T>)
    requires SortedBy(key, r) && multiset(r) == multiset(s) && r != []
    ensures r[0] in s
    ensures forall i :: 0 <= i < |s| ==> key(r[0]) <= key(s[i])
  {
    assert r[0] in multiset(r);
    forall i | 0 <= i < |s| ensures key(r[0]) <= key(s[i]) {
      assert s[i] in multiset(s);
      assert s[i] in multiset(r);
      var j :| 0 <= j < |r| && r[j] == s[i];
    }
  }
}
