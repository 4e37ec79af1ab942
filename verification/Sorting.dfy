// A stable sort, standing for the library sorts the services call. Only what it returns
// matters here, not how the library computes it.
module Sorting {

  ghost predicate IsPreorder<T(!new)>(before: (T, T) -> bool) {
    && (forall x :: !before(x, x))
    && (forall x, y, z :: before(x, y) && before(y, z) ==> before(x, z))
    && (forall x, y, z :: !before(x, y) && !before(y, z) ==> !before(x, z))
  }

  ghost predicate Sorted<T>(before: (T, T) -> bool, s: seq<T>) {
    forall i, j :: 0 <= i < j < |s| ==> !before(s[j], s[i])
  }

  // Put x in front of the first element that is not before it.
  function Insert<T>(before: (T, T) -> bool, x: T, s: seq<T>): (r: seq<T>)
    ensures multiset(r) == multiset(s) + multiset{x}
  {
    if s == [] then [x]
    else
      assert s == [s[0]] + s[1..];
      if before(s[0], x) then [s[0]] + Insert(before, x, s[1..]) else [x] + s
  }

  function Sort<T>(before: (T, T) -> bool, s: seq<T>): (r: seq<T>)
    ensures multiset(r) == multiset(s)
  {
    if s == [] then []
    else
      assert s == [s[0]] + s[1..];
      Insert(before, s[0], Sort(before, s[1..]))
  }

  lemma SameElements<T>(a: seq<T>, b: seq<T>)
    requires multiset(a) == multiset(b)
    ensures |a| == |b|
    ensures forall x :: x in a <==> x in b
  {
    assert |multiset(a)| == |a| && |multiset(b)| == |b|;
    forall x ensures x in a <==> x in b {
      assert x in a <==> x in multiset(a);
      assert x in b <==> x in multiset(b);
    }
  }

  lemma {:induction false} InsertHolds<T(!new)>(before: (T, T) -> bool, x: T, s: seq<T>, j: nat)
    requires j < |Insert(before, x, s)|
    ensures Insert(before, x, s)[j] == x || Insert(before, x, s)[j] in s
  {
    if s != [] && before(s[0], x) && j > 0 {
      InsertHolds(before, x, s[1..], j - 1);
    }
  }

  lemma {:induction false} InsertSorts<T(!new)>(before: (T, T) -> bool, x: T, s: seq<T>)
    requires IsPreorder(before) && Sorted(before, s)
    ensures Sorted(before, Insert(before, x, s))
  {
    if s != [] {
      if before(s[0], x) {
        var head, rest := s[0], Insert(before, x, s[1..]);
        InsertSorts(before, x, s[1..]);
        forall j | 0 <= j < |rest| ensures !before(rest[j], head) {
          InsertHolds(before, x, s[1..], j);
          assert before(x, head) ==> before(head, head);
        }
        PrependSorted(before, head, rest);
      } else {
        forall j | 0 <= j < |s| ensures !before(s[j], x) {
          assert !before(s[j], s[0]) && !before(s[0], x);
        }
        PrependSorted(before, x, s);
      }
    }
  }

  lemma PrependSorted<T>(before: (T, T) -> bool, x: T, s: seq<T>)
    requires Sorted(before, s) && forall j :: 0 <= j < |s| ==> !before(s[j], x)
    ensures Sorted(before, [x] + s)
  {
  }

  lemma {:induction false} SortSorts<T(!new)>(before: (T, T) -> bool, s: seq<T>)
    requires IsPreorder(before)
    ensures Sorted(before, Sort(before, s))
  {
    if s != [] {
      SortSorts(before, s[1..]);
      InsertSorts(before, s[0], Sort(before, s[1..]));
    }
  }

  // Sorting what is already in order changes nothing.
  lemma {:induction false} SortOfSorted<T(!new)>(before: (T, T) -> bool, s: seq<T>)
    requires Sorted(before, s)
    ensures Sort(before, s) == s
  {
    if s != [] {
      SortOfSorted(before, s[1..]);
      assert s == [s[0]] + s[1..];
      if |s| > 1 {
        assert !before(s[1], s[0]);
      }
    }
  }

  // ---- what holds between any two elements ----

  ghost predicate Pairwise<T>(p: (T, T) -> bool, s: seq<T>) {
    forall i, j :: 0 <= i < j < |s| ==> p(s[i], s[j])
  }

  lemma {:induction false} InsertKeepsPairs<T(!new)>(before: (T, T) -> bool, p: (T, T) -> bool, x: T, s: seq<T>)
    requires forall a, b :: p(a, b) <==> p(b, a)
    requires Pairwise(p, s) && forall j :: 0 <= j < |s| ==> p(x, s[j])
    ensures Pairwise(p, Insert(before, x, s))
  {
    if s != [] && before(s[0], x) {
      var rest := Insert(before, x, s[1..]);
      InsertKeepsPairs(before, p, x, s[1..]);
      forall j | 0 <= j < |rest| ensures p(s[0], rest[j]) {
        InsertHolds(before, x, s[1..], j);
      }
      hide Insert;
    }
  }

  // A relation that does not care for order survives sorting.
  lemma {:induction false} SortKeepsPairs<T(!new)>(before: (T, T) -> bool, p: (T, T) -> bool, s: seq<T>)
    requires forall a, b :: p(a, b) <==> p(b, a)
    requires Pairwise(p, s)
    ensures Pairwise(p, Sort(before, s))
  {
    if s != [] {
      var rest := Sort(before, s[1..]);
      SortKeepsPairs(before, p, s[1..]);
      SameElements(rest, s[1..]);
      forall j | 0 <= j < |rest| ensures p(s[0], rest[j]) {
        assert rest[j] in rest;
        assert rest[j] in s[1..];
      }
      InsertKeepsPairs(before, p, s[0], rest);
      hide Insert;
    }
  }
}
