/** Sequence operations that the JavaScript code reaches through `Array`
    methods: `filter`, an `includes`-guarded `push`, and `Math.min` over a
    spread array. */
module Collections {

  /** `s.filter(p)`, written from the back so that appending one element is a single step. */
  function Filter<T>(s: seq<T>, p: T -> bool): (r: seq<T>)
    ensures |r| <= |s|
    ensures forall j :: 0 <= j < |r| ==> p(r[j]) && r[j] in s
    decreases |s|
  {
    if s == [] then []
    else Filter(s[..|s| - 1], p) + (if p(s[|s| - 1]) then [s[|s| - 1]] else [])
  }

  /** Filter keeps exactly the elements satisfying p, in their original order:
      the j-th kept element is s[idx[j]], the indices increase, and an index
      is among them exactly when its element satisfies p. */
  lemma {:induction false} FilterIndices<T>(s: seq<T>, p: T -> bool) returns (idx: seq<nat>)
    ensures |idx| == |Filter(s, p)|
    ensures forall j :: 0 <= j < |idx| ==> idx[j] < |s| && Filter(s, p)[j] == s[idx[j]]
    ensures forall j, k :: 0 <= j < k < |idx| ==> idx[j] < idx[k]
    ensures forall i :: 0 <= i < |s| ==> (i in idx <==> p(s[i]))
    decreases |s|
  {
    if s == [] {
      idx := [];
    } else {
      var n := |s| - 1;
      var prev := FilterIndices(s[..n], p);
      idx := FilterIndicesStep(s, p, prev);
    }
  }

  /** The inductive step of FilterIndices: extend the indices of s without its last element. */
  lemma FilterIndicesStep<T>(s: seq<T>, p: T -> bool, prev: seq<nat>) returns (idx: seq<nat>)
    requires |s| > 0
    requires |prev| == |Filter(s[..|s| - 1], p)|
    requires forall j :: 0 <= j < |prev| ==> prev[j] < |s| - 1 && Filter(s[..|s| - 1], p)[j] == s[..|s| - 1][prev[j]]
    requires forall j, k :: 0 <= j < k < |prev| ==> prev[j] < prev[k]
    requires forall i :: 0 <= i < |s| - 1 ==> (i in prev <==> p(s[..|s| - 1][i]))
    ensures |idx| == |Filter(s, p)|
    ensures forall j :: 0 <= j < |idx| ==> idx[j] < |s| && Filter(s, p)[j] == s[idx[j]]
    ensures forall j, k :: 0 <= j < k < |idx| ==> idx[j] < idx[k]
    ensures forall i :: 0 <= i < |s| ==> (i in idx <==> p(s[i]))
  {
    var n := |s| - 1;
    var init := s[..n];
    assert Filter(s, p) == Filter(init, p) + (if p(s[n]) then [s[n]] else []);
    assert forall i :: 0 <= i < n ==> init[i] == s[i];
    if p(s[n]) {
      idx := prev + [n];
    } else {
      idx := prev;
    }
  }

  /** Filtering with two predicates that agree on every element gives the same result. */
  lemma {:induction false} FilterCongruent<T>(s: seq<T>, p: T -> bool, q: T -> bool)
    requires forall i :: 0 <= i < |s| ==> p(s[i]) == q(s[i])
    ensures Filter(s, p) == Filter(s, q)
    decreases |s|
  {
    if s != [] {
      var n := |s| - 1;
      assert forall i :: 0 <= i < n ==> s[..n][i] == s[i];
      FilterCongruent(s[..n], p, q);
    }
  }

  predicate NoDuplicates<T(==)>(s: seq<T>)
  {
    forall i, j :: 0 <= i < j < |s| ==> s[i] != s[j]
  }

  /** `if (!s.includes(x)) s.push(x)`. */
  function PushIfAbsent<T(==)>(s: seq<T>, x: T): seq<T>
  {
    if x in s then s else s + [x]
  }

  /** The distinct elements of s, each kept where it is first seen. */
  function DedupPush<T(==)>(s: seq<T>): (d: seq<T>)
    ensures NoDuplicates(d)
    ensures forall i :: 0 <= i < |d| ==> d[i] in s
    ensures forall i :: 0 <= i < |s| ==> s[i] in d
    ensures |s| > 0 ==> |d| > 0
    decreases |s|
  {
    if s == [] then [] else PushIfAbsent(DedupPush(s[..|s| - 1]), s[|s| - 1])
  }

  /** The position where x first occurs in s. */
  function FirstIndex<T(==)>(s: seq<T>, x: T): (i: nat)
    requires x in s
    ensures i < |s| && s[i] == x && x !in s[..i]
    decreases |s|
  {
    if s[0] == x then 0 else 1 + FirstIndex(s[1..], x)
  }

  /** Appending to s does not move the first occurrence of anything already in s. */
  lemma FirstIndexOfPrefix<T>(s: seq<T>, x: T, y: T)
    requires x in s
    ensures FirstIndex(s + [y], x) == FirstIndex(s, x)
  {
    var t := s + [y];
    var a, b := FirstIndex(t, x), FirstIndex(s, x);
    assert t[..b] == s[..b] && t[b] == x;
    assert forall k :: 0 <= k < b ==> t[k] != x;
    assert forall k :: 0 <= k < a ==> t[k] != x;
  }

  /** DedupPush lists the distinct elements in the order of their first sighting. */
  lemma {:induction false} DedupPushFirstSightingOrder<T>(s: seq<T>)
    ensures forall i, j :: 0 <= i < j < |DedupPush(s)| ==>
              FirstIndex(s, DedupPush(s)[i]) < FirstIndex(s, DedupPush(s)[j])
    decreases |s|
  {
    if s != [] {
      var n := |s| - 1;
      var init, x := s[..n], s[n];
      assert s == init + [x];
      DedupPushFirstSightingOrder(init);
      var d0 := DedupPush(init);
      forall y | y in d0
        ensures FirstIndex(s, y) == FirstIndex(init, y)
      {
        FirstIndexOfPrefix(init, y, x);
      }
      if x !in d0 {
        assert x !in init;
        assert FirstIndex(s, x) == n by {
          assert s[n] == x;
          assert s[..n] == init;
        }
      }
    }
  }

  /** `Math.min(...s)` for a non-empty s. */
  function MinOf(s: seq<int>): (m: int)
    requires |s| > 0
    ensures m in s
    ensures forall x :: x in s ==> m <= x
    decreases |s|
  {
    if |s| == 1 then s[0]
    else
      assert s == [s[0]] + s[1..];
      var rest := MinOf(s[1..]);
      if s[0] <= rest then s[0] else rest
  }
}
