/**
 * The JavaScript array methods the stores use (`findIndex`, `find`,
 * `filter`), and the "update the first match" step that `find` followed
 * by an in-place assignment performs on a list held in a store.
 */
module JsArray {
  import opened Wrappers

  /** `s.findIndex(p)`: the index of the first element satisfying `p`, or -1. */
  function FindIndex<T>(s: seq<T>, p: T -> bool): (i: int)
    ensures -1 <= i < |s|
    ensures i == -1 <==> forall j :: 0 <= j < |s| ==> !p(s[j])
    ensures i >= 0 ==> p(s[i]) && forall j :: 0 <= j < i ==> !p(s[j])
  {
    if s == [] then -1
    else if p(s[0]) then 0
    else
      var k := FindIndex(s[1..], p);
      if k == -1 then -1 else k + 1
  }

  /** `s.find(p)`: the first element satisfying `p`, if any. */
  function Find<T>(s: seq<T>, p: T -> bool): (r: Option<T>)
    ensures r.None? <==> forall j :: 0 <= j < |s| ==> !p(s[j])
    ensures r.Some? ==> r.value == s[FindIndex(s, p)] && p(r.value)
  {
    var i := FindIndex(s, p);
    if i == -1 then None else Some(s[i])
  }

  /**
   * The list after `const x = s.find(p); if (x) <mutate x by f>`: the first
   * element satisfying `p` is replaced by `f` of it, every other element stays.
   */
  function UpdateFirst<T>(s: seq<T>, p: T -> bool, f: T -> T): (r: seq<T>)
    ensures |r| == |s|
    ensures forall j :: 0 <= j < |s| && j != FindIndex(s, p) ==> r[j] == s[j]
    ensures FindIndex(s, p) >= 0 ==> r[FindIndex(s, p)] == f(s[FindIndex(s, p)])
  {
    var i := FindIndex(s, p);
    if i == -1 then s else s[i := f(s[i])]
  }

  /** With no element satisfying `p`, updating the first match changes nothing. */
  lemma UpdateFirstNoMatch<T>(s: seq<T>, p: T -> bool, f: T -> T)
    requires forall j :: 0 <= j < |s| ==> !p(s[j])
    ensures UpdateFirst(s, p, f) == s
  {
  }

  /**
   * When `f` keeps the element matching and applying it twice is applying
   * it once, updating the first match twice is updating it once.
   */
  lemma UpdateFirstIdempotent<T>(s: seq<T>, p: T -> bool, f: T -> T)
    requires forall x :: p(x) ==> p(f(x)) && f(f(x)) == f(x)
    ensures UpdateFirst(UpdateFirst(s, p, f), p, f) == UpdateFirst(s, p, f)
  {
    var i := FindIndex(s, p);
    if i >= 0 {
      var r := UpdateFirst(s, p, f);
      assert forall j :: 0 <= j < i ==> r[j] == s[j];
      assert p(r[i]);
      assert FindIndex(r, p) == i;
    }
  }

  /** `s.filter(p)`: the elements satisfying `p`, in their original order. */
  function Filter<T>(s: seq<T>, p: T -> bool): (r: seq<T>)
    ensures |r| <= |s|
    ensures forall j :: 0 <= j < |r| ==> r[j] in s && p(r[j])
    ensures forall j :: 0 <= j < |s| && p(s[j]) ==> s[j] in r
  {
    if s == [] then []
    else if p(s[0]) then [s[0]] + Filter(s[1..], p)
    else Filter(s[1..], p)
  }

  /** Filtering respects concatenation, so the kept elements stay in order. */
  lemma {:induction false} FilterAppend<T>(a: seq<T>, b: seq<T>, p: T -> bool)
    ensures Filter(a + b, p) == Filter(a, p) + Filter(b, p)
    decreases |a|
  {
    if a == [] {
      assert a + b == b;
    } else {
      assert (a + b)[0] == a[0] && (a + b)[1..] == a[1..] + b;
      FilterAppend(a[1..], b, p);
    }
  }

  /** A filter that removes nothing returns the list itself. */
  lemma {:induction false} FilterKeepsAll<T>(s: seq<T>, p: T -> bool)
    requires forall j :: 0 <= j < |s| ==> p(s[j])
    ensures Filter(s, p) == s
    decreases |s|
  {
    if s != [] {
      FilterKeepsAll(s[1..], p);
    }
  }

  /** Filtering twice by the same test is filtering once. */
  lemma FilterIdempotent<T>(s: seq<T>, p: T -> bool)
    ensures Filter(Filter(s, p), p) == Filter(s, p)
  {
    FilterKeepsAll(Filter(s, p), p);
  }

  /** Filtering never adds occurrences: the result is a sub-multiset of the input. */
  lemma {:induction false} FilterSubMultiset<T>(s: seq<T>, p: T -> bool)
    ensures multiset(Filter(s, p)) <= multiset(s)
    decreases |s|
  {
    if s != [] {
      FilterSubMultiset(s[1..], p);
      assert s == [s[0]] + s[1..];
    }
  }
}
