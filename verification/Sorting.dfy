/** `sorted(xs, key=...)`: a stable sort. */
module Sorting {

  predicate Ascending<T>(key: T -> real, s: seq<T>) {
    forall i, j :: 0 <= i < j < |s| ==> key(s[i]) <= key(s[j])
  }

  function Insert<T>(key: T -> real, x: T, s: seq<T>): seq<T> {
    if s == [] || key(x) <= key(s[0]) then [x] + s else [s[0]] + Insert(key, x, s[1..])
  }

  function Sort<T>(key: T -> real, s: seq<T>): seq<T> {
    if s == [] then [] else Insert(key, s[0], Sort(key, s[1..]))
  }

  lemma {:induction false} InsertAdds<T>(key: T -> real, x: T, s: seq<T>)
    ensures multiset(Insert(key, x, s)) == multiset{x} + multiset(s)
    ensures |Insert(key, x, s)| == |s| + 1
  {
    if !(s == [] || key(x) <= key(s[0])) {
      InsertAdds(key, x, s[1..]);
      assert s == [s[0]] + s[1..];
    }
  }

  lemma InsertMember<T>(key: T -> real, x: T, s: seq<T>, i: nat)
    requires i < |Insert(key, x, s)|
    ensures Insert(key, x, s)[i] == x || Insert(key, x, s)[i] in s
  {
    InsertAdds(key, x, s);
    assert Insert(key, x, s)[i] in multiset(Insert(key, x, s));
  }

  lemma AscendingCons<T>(key: T -> real, x: T, s: seq<T>)
    requires Ascending(key, s) && forall i :: 0 <= i < |s| ==> key(x) <= key(s[i])
    ensures Ascending(key, [x] + s)
  {}

  lemma {:induction false} InsertKeeps<T>(key: T -> real, x: T, s: seq<T>)
    requires Ascending(key, s)
    ensures Ascending(key, Insert(key, x, s))
  {
    if s == [] || key(x) <= key(s[0]) {
      AscendingCons(key, x, s);
    } else {
      var tail := Insert(key, x, s[1..]);
      InsertKeeps(key, x, s[1..]);
      forall i | 0 <= i < |tail| ensures key(s[0]) <= key(tail[i]) {
        InsertMember(key, x, s[1..], i);
      }
      AscendingCons(key, s[0], tail);
    }
  }

  lemma {:induction false} SortSorts<T>(key: T -> real, s: seq<T>)
    ensures Ascending(key, Sort(key, s)) && multiset(Sort(key, s)) == multiset(s) && |Sort(key, s)| == |s|
  {
    if s != [] {
      SortSorts(key, s[1..]);
      InsertKeeps(key, s[0], Sort(key, s[1..]));
      InsertAdds(key, s[0], Sort(key, s[1..]));
      assert s == [s[0]] + s[1..];
    }
  }

  // ---------- Lists of numbers ----------

  predicate Sorted(s: seq<real>) { forall i, j :: 0 <= i < j < |s| ==> s[i] <= s[j] }

  /** `sorted(xs)` */
  function SortReals(s: seq<real>): (r: seq<real>)
    ensures Sorted(r) && multiset(r) == multiset(s) && |r| == |s|
  {
    var key := (x: real) => x;
    SortSorts(key, s);
    var r := Sort(key, s);
    assert forall i, j :: 0 <= i < j < |r| ==> key(r[i]) <= key(r[j]);
    r
  }

  lemma LeastFirst(a: seq<real>, x: real)
    requires a != [] && Sorted(a) && x in multiset(a)
    ensures a[0] <= x
  {
    var i :| 0 <= i < |a| && a[i] == x;
  }

  lemma TailMultiset(a: seq<real>)
    requires a != []
    ensures multiset(a[1..]) == multiset(a) - multiset{a[0]}
  {
    assert a == [a[0]] + a[1..];
  }

  lemma SameHead(a: seq<real>, b: seq<real>)
    requires a != [] && b != [] && Sorted(a) && Sorted(b) && multiset(a) == multiset(b)
    ensures a[0] == b[0]
  {
    assert a[0] in multiset(a) && b[0] in multiset(b);
    LeastFirst(a, b[0]);
    LeastFirst(b, a[0]);
  }

  lemma SameLength(a: seq<real>, b: seq<real>)
    requires multiset(a) == multiset(b)
    ensures |a| == |b|
  {
    assert |a| == |multiset(a)| == |multiset(b)| == |b|;
  }

  /** Sorted lists of the same numbers are equal. */
  lemma {:induction false} SortedIsUnique(a: seq<real>, b: seq<real>)
    requires Sorted(a) && Sorted(b) && multiset(a) == multiset(b)
    ensures a == b
  {
    SameLength(a, b);
    if a != [] {
      SameHead(a, b);
      TailMultiset(a);
      TailMultiset(b);
      SortedIsUnique(a[1..], b[1..]);
      assert a == [a[0]] + a[1..] && b == [b[0]] + b[1..];
    }
  }

  lemma SortIgnoresOrder(a: seq<real>, b: seq<real>)
    requires multiset(a) == multiset(b)
    ensures SortReals(a) == SortReals(b)
  {
    hide SortReals;
    SortedIsUnique(SortReals(a), SortReals(b));
  }

  lemma SortedElements(s: seq<real>, i: nat)
    requires i < |s|
    ensures SortReals(s)[i] in s
  {
    hide SortReals;
    assert SortReals(s)[i] in multiset(SortReals(s));
  }
}
