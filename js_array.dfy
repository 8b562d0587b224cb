// The few Array.prototype operations the pages rely on (find, findIndex,
// filter, slice), modelled on immutable sequences, with the facts about them
// that the feed, the report table and the chat history use.

module JsArray {

  /** A present value, or JavaScript's `undefined` / `null` / `-1` "not found" sentinel. */
  datatype Option<+T> = None | Some(value: T)

  /** `findIndex`: the position of the first element satisfying `p`; `None` stands for -1. */
  function FindIndex<T>(s: seq<T>, p: T -> bool): (r: Option<nat>)
    ensures r.Some? ==> r.value < |s| && p(s[r.value])
    ensures r.Some? ==> forall j :: 0 <= j < r.value ==> !p(s[j])
    ensures r.None? <==> forall j :: 0 <= j < |s| ==> !p(s[j])
  {
    if |s| == 0 then None
    else if p(s[0]) then Some(0)
    else match FindIndex(s[1..], p)
      case None => None
      case Some(k) => Some(k + 1)
  }

  /** `find`: the first element satisfying `p`, or `undefined`. */
  function Find<T>(s: seq<T>, p: T -> bool): (r: Option<T>)
    ensures r.Some? ==> r.value in s && p(r.value)
    ensures r.Some? ==> exists i :: 0 <= i < |s| && s[i] == r.value && forall j :: 0 <= j < i ==> !p(s[j])
    ensures r.None? <==> forall j :: 0 <= j < |s| ==> !p(s[j])
  {
    match FindIndex(s, p)
    case None => None
    case Some(i) => Some(s[i])
  }

  /** `filter`: the elements satisfying `p`, in their original order. */
  function Filter<T>(s: seq<T>, p: T -> bool): (r: seq<T>)
    ensures |r| <= |s|
    ensures forall i :: 0 <= i < |r| ==> r[i] in s && p(r[i])
    ensures forall j :: 0 <= j < |s| && p(s[j]) ==> s[j] in r
    ensures multiset(r) <= multiset(s)
    ensures forall j :: 0 <= j < |s| && p(s[j]) ==> multiset(r)[s[j]] == multiset(s)[s[j]]
  {
    if |s| == 0 then []
    else
      assert s == [s[0]] + s[1..];
      var rest := Filter(s[1..], p);
      KeptCopiesStep(s, p, rest);
      if p(s[0]) then [s[0]] + rest else rest
  }

  /** One step of `filter`: a passing element keeps all its copies when those of the tail were all kept. */
  lemma KeptCopiesStep<T>(s: seq<T>, p: T -> bool, rest: seq<T>)
    requires |s| > 0 && multiset(rest) <= multiset(s[1..])
    requires forall j :: 0 <= j < |s| - 1 && p(s[1..][j]) ==> multiset(rest)[s[1..][j]] == multiset(s[1..])[s[1..][j]]
    ensures var r := if p(s[0]) then [s[0]] + rest else rest;
      forall j :: 0 <= j < |s| && p(s[j]) ==> multiset(r)[s[j]] == multiset(s)[s[j]]
  {
    var t := s[1..];
    assert s == [s[0]] + t;
    var r := if p(s[0]) then [s[0]] + rest else rest;
    forall j | 0 <= j < |s| && p(s[j]) ensures multiset(r)[s[j]] == multiset(s)[s[j]] {
      if j > 0 {
        assert s[j] == t[j - 1];
      } else if s[0] in t {
        var k :| 0 <= k < |t| && t[k] == s[0];
      } else {
        assert multiset(rest)[s[0]] <= multiset(t)[s[0]] == 0;
      }
    }
  }

  /** `slice(0, n)`: at most the first `n` elements. */
  function Take<T>(s: seq<T>, n: nat): (r: seq<T>)
    ensures |r| <= n && r <= s
    ensures |s| <= n ==> r == s
    ensures n <= |s| ==> |r| == n
  {
    if |s| <= n then s else s[..n]
  }

  /** `a` is `b` with some elements dropped and the rest kept in order. */
  ghost predicate IsSubsequence<T>(a: seq<T>, b: seq<T>)
    decreases |b|
  {
    if |a| == 0 then true
    else if |b| == 0 then false
    else (a[0] == b[0] && IsSubsequence(a[1..], b[1..])) || IsSubsequence(a, b[1..])
  }

  lemma {:induction false} FilterIsSubsequence<T>(s: seq<T>, p: T -> bool)
    ensures IsSubsequence(Filter(s, p), s)
    decreases |s|
  {
    if |s| > 0 {
      FilterIsSubsequence(s[1..], p);
      var r := Filter(s, p);
      if p(s[0]) {
        assert r[0] == s[0] && r[1..] == Filter(s[1..], p);
      }
    }
  }

  /** Keeping everything leaves the sequence as it is. */
  lemma {:induction false} FilterKeepsAll<T>(s: seq<T>, p: T -> bool)
    requires forall i :: 0 <= i < |s| ==> p(s[i])
    ensures Filter(s, p) == s
    decreases |s|
  {
    if |s| > 0 {
      FilterKeepsAll(s[1..], p);
      assert [s[0]] + s[1..] == s;
    }
  }

  /** Filtering twice with the same predicate is filtering once. */
  lemma FilterIdempotent<T>(s: seq<T>, p: T -> bool)
    ensures Filter(Filter(s, p), p) == Filter(s, p)
  {
    var r := Filter(s, p);
    FilterKeepsAll(r, p);
  }

  /** Two predicates that agree on every element select the same elements. */
  lemma {:induction false} FilterExtensional<T>(s: seq<T>, p: T -> bool, q: T -> bool)
    requires forall i :: 0 <= i < |s| ==> p(s[i]) == q(s[i])
    ensures Filter(s, p) == Filter(s, q)
    decreases |s|
  {
    if |s| > 0 {
      FilterExtensional(s[1..], p, q);
    }
  }

  /** Unfolding `Filter` on a sequence written as a head and a tail. */
  lemma FilterCons<T>(x: T, s: seq<T>, p: T -> bool)
    ensures Filter([x] + s, p) == if p(x) then [x] + Filter(s, p) else Filter(s, p)
  {
    assert ([x] + s)[0] == x && ([x] + s)[1..] == s;
  }
}
