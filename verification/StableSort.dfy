// Array.sort with a comparator: insertion from the back, so that an element comes after the ones it ties with.
module StableSort {
  // The laws of a comparator: nothing precedes what precedes it, and not being preceded is transitive.
  ghost predicate Order<T(!new)>(less: (T, T) -> bool) {
    && (forall a, b :: less(a, b) ==> !less(b, a))
    && (forall a, b, c :: !less(b, a) && !less(c, b) ==> !less(c, a))
  }

  predicate Sorted<T>(less: (T, T) -> bool, items: seq<T>) {
    forall i, j | 0 <= i < j < |items| :: !less(items[j], items[i])
  }

  function Insert<T>(less: (T, T) -> bool, sorted: seq<T>, x: T): seq<T> {
    if sorted == [] then [x]
    else
      var front, last := sorted[..|sorted| - 1], sorted[|sorted| - 1];
      if less(x, last) then Insert(less, front, x) + [last] else sorted + [x]
  }

  function Sort<T>(less: (T, T) -> bool, items: seq<T>): seq<T> {
    if items == [] then [] else Insert(less, Sort(less, items[..|items| - 1]), items[|items| - 1])
  }

  lemma SortedSnoc<T>(less: (T, T) -> bool, items: seq<T>, x: T)
    requires Sorted(less, items) && forall y | y in items :: !less(x, y)
    ensures Sorted(less, items + [x])
  {
  }

  lemma {:induction false} InsertElements<T>(less: (T, T) -> bool, sorted: seq<T>, x: T)
    ensures multiset(Insert(less, sorted, x)) == multiset(sorted) + multiset{x}
    ensures forall y <- Insert(less, sorted, x) :: y == x || y in sorted
  {
    if sorted != [] {
      var front, last := sorted[..|sorted| - 1], sorted[|sorted| - 1];
      assert sorted == front + [last];
      InsertElements(less, front, x);
    }
  }

  lemma {:induction false} InsertSorts<T(!new)>(less: (T, T) -> bool, sorted: seq<T>, x: T)
    requires Order(less) && Sorted(less, sorted)
    ensures Sorted(less, Insert(less, sorted, x))
  {
    if sorted != [] {
      var front, last := sorted[..|sorted| - 1], sorted[|sorted| - 1];
      if less(x, last) {
        InsertSorts(less, front, x);
        InsertElements(less, front, x);
        SortedSnoc(less, Insert(less, front, x), last);
      } else {
        forall y | y in sorted ensures !less(x, y) {
          var i :| 0 <= i < |sorted| && sorted[i] == y;
          assert i < |sorted| - 1 ==> !less(last, y);
        }
        SortedSnoc(less, sorted, x);
      }
    }
  }

  // Sorting is a permutation in order.
  lemma {:induction false} SortExact<T(!new)>(less: (T, T) -> bool, items: seq<T>)
    requires Order(less)
    ensures Sorted(less, Sort(less, items)) && multiset(Sort(less, items)) == multiset(items)
  {
    if items != [] {
      var front, last := items[..|items| - 1], items[|items| - 1];
      SortExact(less, front);
      InsertSorts(less, Sort(less, front), last);
      InsertElements(less, Sort(less, front), last);
      assert items == front + [last];
    }
  }

  // The elements that tie with `y`, in their order.
  function Ties<T>(less: (T, T) -> bool, items: seq<T>, y: T): seq<T> {
    if items == [] then []
    else
      var last := items[|items| - 1];
      Ties(less, items[..|items| - 1], y) + if less(last, y) || less(y, last) then [] else [last]
  }

  lemma TiesSnoc<T>(less: (T, T) -> bool, items: seq<T>, x: T, y: T)
    ensures Ties(less, items + [x], y) == Ties(less, items, y) + if less(x, y) || less(y, x) then [] else [x]
  {
    assert (items + [x])[..|items|] == items;
  }

  lemma {:induction false} InsertKeepsTies<T(!new)>(less: (T, T) -> bool, sorted: seq<T>, x: T, y: T)
    requires Order(less)
    ensures Ties(less, Insert(less, sorted, x), y) == Ties(less, sorted, y) + if less(x, y) || less(y, x) then [] else [x]
  {
    if sorted != [] && less(x, sorted[|sorted| - 1]) {
      var front, last := sorted[..|sorted| - 1], sorted[|sorted| - 1];
      InsertKeepsTies(less, front, x, y);
      TiesSnoc(less, Insert(less, front, x), last, y);
      assert less(x, y) || less(y, x) || less(last, y) || less(y, last);
    } else {
      TiesSnoc(less, sorted, x, y);
    }
  }

  // Sorting keeps the order of elements that tie.
  lemma {:induction false} SortIsStable<T(!new)>(less: (T, T) -> bool, items: seq<T>, y: T)
    requires Order(less)
    ensures Ties(less, Sort(less, items), y) == Ties(less, items, y)
  {
    if items != [] {
      var front, last := items[..|items| - 1], items[|items| - 1];
      SortIsStable(less, front, y);
      InsertKeepsTies(less, Sort(less, front), last, y);
    }
  }
}
