/** The JavaScript array searches the data layer relies on: `findIndex` (and `find`, which is
    `findIndex` followed by an element read) and `filter`, over a total predicate. */
module Arrays {

  /** `s.findIndex(p)`: the index of the FIRST element satisfying p, or -1 when there is none. */
  function FindIndex<T>(s: seq<T>, p: T -> bool): (r: int)
    ensures -1 <= r < |s|
    ensures r >= 0 ==> p(s[r]) && forall j :: 0 <= j < r ==> !p(s[j])
    ensures r == -1 <==> forall j :: 0 <= j < |s| ==> !p(s[j])
  {
    if s == [] then -1
    else if p(s[0]) then 0
    else
      var k := FindIndex(s[1..], p);
      if k == -1 then -1 else k + 1
  }

  /** `s.filter(p)`: the elements satisfying p, in their order. */
  function Filter<T(!new)>(s: seq<T>, p: T -> bool): (r: seq<T>)
    ensures |r| <= |s|
    ensures forall x :: x in r <==> x in s && p(x)
    ensures |r| == |s| <==> forall j :: 0 <= j < |s| ==> p(s[j])
    ensures |r| == |s| ==> r == s
  {
    if s == [] then []
    else
      var rest := Filter(s[1..], p);
      assert s == [s[0]] + s[1..];
      if p(s[0]) then [s[0]] + rest else rest
  }

  /** `filter` keeps the order: the first element leads the result exactly when it satisfies p. */
  lemma FilterCons<T(!new)>(x: T, s: seq<T>, p: T -> bool)
    ensures Filter([x] + s, p) == (if p(x) then [x] else []) + Filter(s, p)
  {
    assert ([x] + s)[1..] == s;
  }

  lemma AppendAssociative<T>(x: seq<T>, y: seq<T>, z: seq<T>)
    ensures x + (y + z) == (x + y) + z
  {
  }

  /** One step of `filter` over a concatenation whose left part is not empty. */
  lemma FilterConcatStep<T(!new)>(a: seq<T>, b: seq<T>, p: T -> bool)
    requires a != []
    ensures Filter(a + b, p) == (if p(a[0]) then [a[0]] else []) + Filter(a[1..] + b, p)
  {
    assert a + b == [a[0]] + (a[1..] + b);
    FilterCons(a[0], a[1..] + b, p);
  }

  /** `filter` keeps the order of the elements it keeps: filtering a concatenation filters each
      part and concatenates the results. */
  lemma {:induction false} FilterConcat<T(!new)>(a: seq<T>, b: seq<T>, p: T -> bool)
    ensures Filter(a + b, p) == Filter(a, p) + Filter(b, p)
  {
    if a == [] {
      assert a + b == b;
    } else {
      var head := if p(a[0]) then [a[0]] else [];
      FilterConcat(a[1..], b, p);
      FilterConcatStep(a, b, p);
      FilterCons(a[0], a[1..], p);
      assert [a[0]] + a[1..] == a;
      AppendAssociative(head, Filter(a[1..], p), Filter(b, p));
    }
  }

  /** `filter` keeps every element satisfying p as often as it occurs, and drops every other. */
  lemma {:induction false} FilterMultiset<T(!new)>(s: seq<T>, p: T -> bool, x: T)
    ensures multiset(Filter(s, p))[x] == if p(x) then multiset(s)[x] else 0
  {
    if s != [] {
      FilterMultiset(s[1..], p, x);
      assert s == [s[0]] + s[1..];
      assert multiset(s) == multiset{s[0]} + multiset(s[1..]);
      FilterCons(s[0], s[1..], p);
    }
  }
}
