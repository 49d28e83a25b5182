/** The Strategy pattern: a `Sorter` applies whichever sorting strategy it was
    built with. Both strategies sort a copy of their input array, so the input
    itself, a value here, is never changed. */
module Strategies {

  /** The direction a comparator sorts in: `a - b` ascending, `b - a` descending. */
  datatype Order = Ascending | Descending

  /** Whether `a` may stand before `b` in a list sorted by `o`. */
  predicate Before(o: Order, a: int, b: int) {
    match o
    case Ascending => a <= b
    case Descending => a >= b
  }

  predicate Sorted(o: Order, s: seq<int>) {
    forall i, j :: 0 <= i < j < |s| ==> Before(o, s[i], s[j])
  }

  /** Places `x` into a list ahead of the first element it may precede. */
  function Insert(o: Order, x: int, s: seq<int>): seq<int> {
    if s == [] then [x]
    else if Before(o, x, s[0]) then [x] + s
    else [s[0]] + Insert(o, x, s[1..])
  }

  /** Insertion adds exactly `x`. */
  lemma {:induction false} InsertPermutes(o: Order, x: int, s: seq<int>)
    ensures multiset(Insert(o, x, s)) == multiset(s) + multiset{x}
    decreases |s|
  {
    if s != [] && !Before(o, x, s[0]) {
      InsertPermutes(o, x, s[1..]);
      assert s == [s[0]] + s[1..];
    }
  }

  /** A sorted list stays sorted under a new first element that may precede all of it. */
  lemma SortedCons(o: Order, h: int, t: seq<int>)
    requires Sorted(o, t)
    requires forall k :: 0 <= k < |t| ==> Before(o, h, t[k])
    ensures Sorted(o, [h] + t)
  {
    var r := [h] + t;
    forall i, j | 0 <= i < j < |r|
      ensures Before(o, r[i], r[j])
    {
      assert r[j] == t[j - 1];
      if i > 0 {
        assert r[i] == t[i - 1];
      }
    }
  }

  /** When `x` goes after the head, everything after the head may follow it. */
  lemma HeadPrecedesInsertion(o: Order, x: int, s: seq<int>)
    requires Sorted(o, s) && s != [] && !Before(o, x, s[0])
    ensures forall k :: 0 <= k < |Insert(o, x, s[1..])| ==> Before(o, s[0], Insert(o, x, s[1..])[k])
  {
    var tail := s[1..];
    var rest := Insert(o, x, tail);
    InsertPermutes(o, x, tail);
    forall k | 0 <= k < |rest|
      ensures Before(o, s[0], rest[k])
    {
      assert rest[k] in multiset(rest);
      if rest[k] != x {
        assert rest[k] in multiset(tail);
        var m :| 0 <= m < |tail| && tail[m] == rest[k];
        assert s[1 + m] == rest[k];
      }
    }
  }

  /** Insertion into a sorted list keeps it sorted and adds exactly `x`. */
  lemma {:induction false} InsertSorted(o: Order, x: int, s: seq<int>)
    requires Sorted(o, s)
    ensures Sorted(o, Insert(o, x, s))
    ensures multiset(Insert(o, x, s)) == multiset(s) + multiset{x}
    decreases |s|
  {
    InsertPermutes(o, x, s);
    if s == [] {
    } else if Before(o, x, s[0]) {
      SortedCons(o, x, s);
    } else {
      InsertSorted(o, x, s[1..]);
      HeadPrecedesInsertion(o, x, s);
      SortedCons(o, s[0], Insert(o, x, s[1..]));
    }
  }

  /** A comparison sort by `o`: insertion sort of the tail, then the head. */
  function SortBy(o: Order, s: seq<int>): seq<int> {
    if s == [] then [] else Insert(o, s[0], SortBy(o, s[1..]))
  }

  /** The sort's result is in order and a permutation of its input. */
  lemma {:induction false} SortBySortsAndPermutes(o: Order, s: seq<int>)
    ensures Sorted(o, SortBy(o, s))
    ensures multiset(SortBy(o, s)) == multiset(s)
    decreases |s|
  {
    if s != [] {
      SortBySortsAndPermutes(o, s[1..]);
      InsertSorted(o, s[0], SortBy(o, s[1..]));
      assert s == [s[0]] + s[1..];
    }
  }

  /** `asc`: an ascending permutation of the input. */
  function Asc(arr: seq<int>): (r: seq<int>)
    ensures Sorted(Ascending, r) && multiset(r) == multiset(arr)
  {
    SortBySortsAndPermutes(Ascending, arr);
    SortBy(Ascending, arr)
  }

  /** `desc`: a descending permutation of the input. */
  function Desc(arr: seq<int>): (r: seq<int>)
    ensures Sorted(Descending, r) && multiset(r) == multiset(arr)
  {
    SortBySortsAndPermutes(Descending, arr);
    SortBy(Descending, arr)
  }

  /** The two strategies the module defines. */
  datatype SortStrategy = AscStrategy | DescStrategy {
    function Direction(): Order {
      match this
      case AscStrategy => Ascending
      case DescStrategy => Descending
    }

    function Apply(arr: seq<int>): seq<int> {
      match this
      case AscStrategy => Asc(arr)
      case DescStrategy => Desc(arr)
    }
  }

  /** A sorter holds the strategy given to its constructor and never changes it. */
  datatype Sorter = Sorter(strategy: SortStrategy) {
    /** `sort` returns exactly what the strategy returns. */
    function Sort(arr: seq<int>): (r: seq<int>)
      ensures r == strategy.Apply(arr)
      ensures Sorted(strategy.Direction(), r) && multiset(r) == multiset(arr)
    {
      strategy.Apply(arr)
    }
  }

  /** Two sorted lists with the same elements start with the same element. */
  lemma HeadsAgree(o: Order, a: seq<int>, b: seq<int>)
    requires Sorted(o, a) && Sorted(o, b)
    requires multiset(a) == multiset(b) && a != []
    ensures b != [] && a[0] == b[0]
  {
    assert a[0] in multiset(b);
    var i :| 0 <= i < |b| && b[i] == a[0];
    assert b[0] in multiset(a);
    var j :| 0 <= j < |a| && a[j] == b[0];
    assert Before(o, b[0], b[i]) by {
      if i == 0 { assert b[0] == b[i]; }
    }
    assert Before(o, a[0], a[j]) by {
      if j == 0 { assert a[0] == a[j]; }
    }
  }

  /** Taking the same first element away leaves the same elements. */
  lemma TailsAgree(a: seq<int>, b: seq<int>)
    requires a != [] && b != [] && a[0] == b[0]
    requires multiset(a) == multiset(b)
    ensures multiset(a[1..]) == multiset(b[1..])
  {
    assert a == [a[0]] + a[1..] && b == [b[0]] + b[1..];
    forall y
      ensures multiset(a[1..])[y] == multiset(b[1..])[y]
    {
      assert multiset(a)[y] == multiset{a[0]}[y] + multiset(a[1..])[y];
      assert multiset(b)[y] == multiset{b[0]}[y] + multiset(b[1..])[y];
    }
  }

  /** A sorted permutation is unique: any two sorted lists with the same elements
      are the same list, so the model's choice of sorting algorithm is immaterial. */
  lemma {:induction false} SortedPermutationUnique(o: Order, a: seq<int>, b: seq<int>)
    requires Sorted(o, a) && Sorted(o, b)
    requires multiset(a) == multiset(b)
    ensures a == b
    decreases |a|
  {
    if a == [] {
      assert |b| == |multiset(b)| == 0;
    } else {
      HeadsAgree(o, a, b);
      TailsAgree(a, b);
      SortedPermutationUnique(o, a[1..], b[1..]);
      assert a == [a[0]] + a[1..] && b == [b[0]] + b[1..];
    }
  }

  /** Reversing a list sorted one way gives it sorted the other way, so `desc` is
      `asc` reversed. */
  lemma DescIsReversedAsc(arr: seq<int>)
    ensures Desc(arr) == Reverse(Asc(arr))
  {
    var r := Reverse(Asc(arr));
    ReverseFacts(Asc(arr));
    assert Sorted(Descending, r);
    SortedPermutationUnique(Descending, Desc(arr), r);
  }

  function Reverse(s: seq<int>): seq<int> {
    seq(|s|, i requires 0 <= i < |s| => s[|s| - 1 - i])
  }

  lemma {:induction false} ReverseFacts(s: seq<int>)
    ensures multiset(Reverse(s)) == multiset(s)
    ensures Sorted(Ascending, s) ==> Sorted(Descending, Reverse(s))
    decreases |s|
  {
    if s != [] {
      ReverseFacts(s[1..]);
      assert Reverse(s) == Reverse(s[1..]) + [s[0]];
      assert s == [s[0]] + s[1..];
    }
  }

  const DemoData: seq<int> := [5, 3, 9, 1]

  /** The steps of sorting the demo data ascending, innermost insertion first. */
  lemma DemoAscSteps()
    ensures SortBy(Ascending, [1]) == [1]
    ensures SortBy(Ascending, [9, 1]) == [1, 9]
    ensures SortBy(Ascending, [3, 9, 1]) == [1, 3, 9]
  {
    assert [1][1..] == [] && [9, 1][1..] == [1] && [3, 9, 1][1..] == [9, 1];
    assert Insert(Ascending, 1, []) == [1];
    assert Insert(Ascending, 9, [1]) == [1] + Insert(Ascending, 9, []);
    assert [1, 9][1..] == [9];
    assert Insert(Ascending, 3, [9]) == [3, 9];
    assert Insert(Ascending, 3, [1, 9]) == [1] + Insert(Ascending, 3, [9]);
  }

  lemma DemoAscSort()
    ensures SortBy(Ascending, DemoData) == [1, 3, 5, 9]
  {
    DemoAscSteps();
    assert DemoData[1..] == [3, 9, 1];
    assert [1, 3, 9][1..] == [3, 9] && [3, 9][1..] == [9];
    assert Insert(Ascending, 5, [9]) == [5, 9];
    assert Insert(Ascending, 5, [3, 9]) == [3] + Insert(Ascending, 5, [9]);
    assert Insert(Ascending, 5, [1, 3, 9]) == [1] + Insert(Ascending, 5, [3, 9]);
  }

  /** The demo data sorts to [1, 3, 5, 9] ascending. */
  lemma DemoAsc()
    ensures Sorter(AscStrategy).Sort(DemoData) == [1, 3, 5, 9]
  {
    DemoAscSort();
  }

  /** The steps of sorting the demo data descending, innermost insertion first. */
  lemma DemoDescSteps()
    ensures SortBy(Descending, [1]) == [1]
    ensures SortBy(Descending, [9, 1]) == [9, 1]
    ensures SortBy(Descending, [3, 9, 1]) == [9, 3, 1]
  {
    assert [1][1..] == [] && [9, 1][1..] == [1] && [3, 9, 1][1..] == [9, 1];
    assert Insert(Descending, 1, []) == [1];
    assert Insert(Descending, 9, [1]) == [9, 1];
    assert [9, 1][1..] == [1];
    assert Insert(Descending, 3, [1]) == [3, 1];
    assert Insert(Descending, 3, [9, 1]) == [9] + Insert(Descending, 3, [1]);
  }

  lemma DemoDescSort()
    ensures SortBy(Descending, DemoData) == [9, 5, 3, 1]
  {
    DemoDescSteps();
    assert DemoData[1..] == [3, 9, 1];
    assert [9, 3, 1][1..] == [3, 1];
    assert Insert(Descending, 5, [3, 1]) == [5, 3, 1];
    assert Insert(Descending, 5, [9, 3, 1]) == [9] + Insert(Descending, 5, [3, 1]);
  }

  /** The demo data sorts to [9, 5, 3, 1] descending. */
  lemma DemoDesc()
    ensures Sorter(DescStrategy).Sort(DemoData) == [9, 5, 3, 1]
  {
    DemoDescSort();
  }
}
