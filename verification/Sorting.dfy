/** A stable sort, standing for the standard library's `sort_by`. */
module Sorting {

  ghost predicate TotalPreorder<T(!new)>(leq: (T, T) -> bool) {
    && (forall x, y :: leq(x, y) || leq(y, x))
    && (forall x, y, z :: leq(x, y) && leq(y, z) ==> leq(x, z))
  }

  ghost predicate Sorted<T(!new)>(leq: (T, T) -> bool, xs: seq<T>) {
    forall i, j :: 0 <= i < j < |xs| ==> leq(xs[i], xs[j])
  }

  /** Before everything it is not above, so equal keys keep their order. */
  function Insert<T>(leq: (T, T) -> bool, x: T, xs: seq<T>): (r: seq<T>)
    ensures multiset(r) == multiset(xs) + multiset{x}
  {
    if xs == [] || leq(x, xs[0]) then [x] + xs
    else
      assert xs == [xs[0]] + xs[1..];
      [xs[0]] + Insert(leq, x, xs[1..])
  }

  function Sort<T>(leq: (T, T) -> bool, xs: seq<T>): (r: seq<T>)
    ensures multiset(r) == multiset(xs)
  {
    if xs == [] then []
    else
      assert xs == [xs[0]] + xs[1..];
      Insert(leq, xs[0], Sort(leq, xs[1..]))
  }

  lemma SameMembers<T>(xs: seq<T>, ys: seq<T>)
    requires multiset(xs) == multiset(ys)
    ensures |xs| == |ys|
    ensures forall x :: x in xs <==> x in ys
  {
    assert |multiset(xs)| == |multiset(ys)|;
    forall x ensures x in xs <==> x in ys {
      assert x in xs <==> x in multiset(xs);
      assert x in ys <==> x in multiset(ys);
    }
  }

  lemma ConsSorted<T(!new)>(leq: (T, T) -> bool, x: T, xs: seq<T>)
    requires Sorted(leq, xs) && forall y :: y in xs ==> leq(x, y)
    ensures Sorted(leq, [x] + xs)
  {
    var r := [x] + xs;
    forall i, j | 0 <= i < j < |r| ensures leq(r[i], r[j]) {
      assert r[j] == xs[j - 1] && xs[j - 1] in xs;
    }
  }

  lemma {:induction false} InsertSorted<T(!new)>(leq: (T, T) -> bool, x: T, xs: seq<T>)
    requires TotalPreorder(leq) && Sorted(leq, xs)
    ensures Sorted(leq, Insert(leq, x, xs))
  {
    if xs == [] {
    } else if leq(x, xs[0]) {
      forall y | y in xs ensures leq(x, y) {
        var i :| 0 <= i < |xs| && xs[i] == y;
      }
      ConsSorted(leq, x, xs);
    } else {
      var rest := Insert(leq, x, xs[1..]);
      InsertSorted(leq, x, xs[1..]);
      forall y | y in rest ensures leq(xs[0], y) {
        assert y in multiset(rest);
        if y != x {
          assert y in xs[1..];
        }
      }
      ConsSorted(leq, xs[0], rest);
    }
  }

  lemma {:induction false} SortSorted<T(!new)>(leq: (T, T) -> bool, xs: seq<T>)
    requires TotalPreorder(leq)
    ensures Sorted(leq, Sort(leq, xs))
  {
    if xs != [] {
      SortSorted(leq, xs[1..]);
      InsertSorted(leq, xs[0], Sort(leq, xs[1..]));
    }
  }

  /** No two different elements of the list compare equal. */
  ghost predicate DistinctKeys<T(!new)>(leq: (T, T) -> bool, xs: seq<T>) {
    forall x, y :: x in xs && y in xs && leq(x, y) && leq(y, x) ==> x == y
  }

  lemma SameHead<T(!new)>(leq: (T, T) -> bool, xs: seq<T>, ys: seq<T>)
    requires xs != [] && ys != [] && xs[0] in ys && ys[0] in xs
    requires Sorted(leq, xs) && Sorted(leq, ys) && DistinctKeys(leq, xs)
    ensures xs[0] == ys[0]
  {
    var i :| 0 <= i < |ys| && ys[i] == xs[0];
    var j :| 0 <= j < |xs| && xs[j] == ys[0];
    if i != 0 && j != 0 {
      assert leq(xs[0], xs[j]) && leq(ys[0], ys[i]);
    }
  }

  lemma TailMultiset<T>(xs: seq<T>)
    requires xs != []
    ensures multiset(xs[1..]) == multiset(xs) - multiset{xs[0]}
  {
    assert xs == [xs[0]] + xs[1..];
  }

  lemma TailSorted<T(!new)>(leq: (T, T) -> bool, xs: seq<T>)
    requires xs != [] && Sorted(leq, xs)
    ensures Sorted(leq, xs[1..])
    ensures DistinctKeys(leq, xs) ==> DistinctKeys(leq, xs[1..])
  {
  }

  /** Distinct keys leave only one sorted arrangement of the same elements. */
  lemma {:induction false} SortedUnique<T(!new)>(leq: (T, T) -> bool, xs: seq<T>, ys: seq<T>)
    requires multiset(xs) == multiset(ys)
    requires Sorted(leq, xs) && Sorted(leq, ys) && DistinctKeys(leq, xs)
    ensures xs == ys
    decreases |xs|
  {
    assert |xs| == |ys| by {
      SameMembers(xs, ys);
    }
    if xs != [] {
      assert xs[0] == ys[0] by {
        SameMembers(xs, ys);
        SameHead(leq, xs, ys);
      }
      assert multiset(xs[1..]) == multiset(ys[1..]) by {
        TailMultiset(xs);
        TailMultiset(ys);
      }
      TailSorted(leq, xs);
      TailSorted(leq, ys);
      SortedUnique(leq, xs[1..], ys[1..]);
      ConsEqual(xs, ys);
    }
  }

  lemma ConsEqual<T>(xs: seq<T>, ys: seq<T>)
    requires xs != [] && ys != [] && xs[0] == ys[0] && xs[1..] == ys[1..]
    ensures xs == ys
  {
    assert xs == [xs[0]] + xs[1..] && ys == [ys[0]] + ys[1..];
  }

  /** The arrangement does not depend on the order the elements came in. */
  lemma SortOrderFree<T(!new)>(leq: (T, T) -> bool, xs: seq<T>, ys: seq<T>)
    requires TotalPreorder(leq) && multiset(xs) == multiset(ys) && DistinctKeys(leq, xs)
    ensures Sort(leq, xs) == Sort(leq, ys)
  {
    SortSorted(leq, xs);
    SortSorted(leq, ys);
    SameMembers(Sort(leq, xs), xs);
    SortedUnique(leq, Sort(leq, xs), Sort(leq, ys));
  }
}
