/** `Array.prototype.sort` with a comparator. The language guarantees a
    stable sort; insertion sort that inserts each element after every
    element it does not precede is stable (`SortByStable`), so for a
    consistent comparator it yields the same order as the built-in. */
module Sorting {
  import opened Seqs

  /** A consistent comparator: the sign flips when the arguments are swapped,
      and "not after" is transitive. */
  ghost predicate IsComparator<T(!new)>(cmp: (T, T) -> int) {
    (forall a, b :: cmp(a, b) < 0 <==> cmp(b, a) > 0) &&
    (forall a, b, c :: cmp(a, b) <= 0 && cmp(b, c) <= 0 ==> cmp(a, c) <= 0)
  }

  /** No element is ordered after an element that follows it. */
  ghost predicate SortedBy<T>(s: seq<T>, cmp: (T, T) -> int) {
    forall i, j :: 0 <= i < j < |s| ==> cmp(s[i], s[j]) <= 0
  }

  /** Inserts `x` before the first element it strictly precedes. */
  function InsertBy<T>(x: T, s: seq<T>, cmp: (T, T) -> int): (r: seq<T>)
    ensures |r| == |s| + 1
    ensures multiset(r) == multiset(s) + multiset{x}
  {
    if s == [] then [x]
    else if cmp(x, s[0]) < 0 then [x] + s
    else
      assert s == [s[0]] + s[1..];
      [s[0]] + InsertBy(x, s[1..], cmp)
  }

  /** `s.slice().sort(cmp)`. */
  function SortBy<T>(s: seq<T>, cmp: (T, T) -> int): (r: seq<T>)
    ensures |r| == |s|
    ensures multiset(r) == multiset(s)
  {
    if s == [] then []
    else
      assert s == s[..|s| - 1] + [s[|s| - 1]];
      InsertBy(s[|s| - 1], SortBy(s[..|s| - 1], cmp), cmp)
  }

  /** Putting in front an element that precedes or ties with every element
      of a sorted list keeps it sorted. */
  lemma ConsSorted<T>(a: T, t: seq<T>, cmp: (T, T) -> int)
    requires SortedBy(t, cmp)
    requires forall j :: 0 <= j < |t| ==> cmp(a, t[j]) <= 0
    ensures SortedBy([a] + t, cmp)
  {
    var r := [a] + t;
    forall i, j | 0 <= i < j < |r| ensures cmp(r[i], r[j]) <= 0 {
      if i == 0 {
        assert r[j] == t[j - 1];
      } else {
        assert r[i] == t[i - 1] && r[j] == t[j - 1];
      }
    }
  }

  lemma {:induction false} InsertBySorted<T(!new)>(x: T, s: seq<T>, cmp: (T, T) -> int)
    requires IsComparator(cmp) && SortedBy(s, cmp)
    ensures SortedBy(InsertBy(x, s, cmp), cmp)
    decreases |s|
  {
    if s == [] {
    } else if cmp(x, s[0]) < 0 {
      forall j | 0 <= j < |s| ensures cmp(x, s[j]) <= 0 {
        if j == 0 {
        } else {
          assert cmp(s[0], s[j]) <= 0;
        }
      }
      ConsSorted(x, s, cmp);
    } else {
      var rest := InsertBy(x, s[1..], cmp);
      InsertBySorted(x, s[1..], cmp);
      forall j | 0 <= j < |rest| ensures cmp(s[0], rest[j]) <= 0 {
        assert rest[j] in multiset(rest);
        if rest[j] == x {
          assert !(cmp(s[0], x) > 0);
        } else {
          assert rest[j] in multiset(s[1..]);
          var k :| 0 <= k < |s[1..]| && s[1..][k] == rest[j];
          assert s[k + 1] == rest[j];
        }
      }
      ConsSorted(s[0], rest, cmp);
    }
  }

  /** The sort yields a permutation of its input that is ordered by the comparator. */
  lemma {:induction false} SortBySorted<T(!new)>(s: seq<T>, cmp: (T, T) -> int)
    requires IsComparator(cmp)
    ensures SortedBy(SortBy(s, cmp), cmp)
    decreases |s|
  {
    if s != [] {
      SortBySorted(s[..|s| - 1], cmp);
      InsertBySorted(s[|s| - 1], SortBy(s[..|s| - 1], cmp), cmp);
    }
  }

  /** The elements the comparator ranks together with `v`. */
  function Ties<T>(cmp: (T, T) -> int, v: T): T -> bool {
    y => cmp(y, v) == 0
  }

  /** An element that ties with `v` is not strictly before another that ties
      with `v` too. */
  lemma TieBlocked<T(!new)>(x: T, y: T, v: T, cmp: (T, T) -> int)
    requires IsComparator(cmp) && cmp(x, v) == 0 && cmp(x, y) < 0
    ensures cmp(y, v) != 0
  {
  }

  /** Strictly before, then not after, is strictly before. */
  lemma StrictChain<T(!new)>(x: T, y: T, z: T, cmp: (T, T) -> int)
    requires IsComparator(cmp) && cmp(x, y) < 0 && cmp(y, z) <= 0
    ensures cmp(x, z) < 0
  {
  }

  /** When `x` ties with `v` and strictly precedes the head of a sorted list,
      nothing in the list ties with `v`. */
  lemma NoTiesAfter<T(!new)>(x: T, s: seq<T>, cmp: (T, T) -> int, v: T)
    requires IsComparator(cmp) && SortedBy(s, cmp)
    requires s != [] && cmp(x, s[0]) < 0 && cmp(x, v) == 0
    ensures Filter(s, Ties(cmp, v)) == []
  {
    forall j | 0 <= j < |s| ensures !Ties(cmp, v)(s[j]) {
      if j > 0 {
        StrictChain(x, s[0], s[j], cmp);
      }
      TieBlocked(x, s[j], v, cmp);
    }
    FilterNone(s, Ties(cmp, v));
  }

  /** The tail of a sorted list is sorted. */
  lemma SortedTail<T>(s: seq<T>, cmp: (T, T) -> int)
    requires s != [] && SortedBy(s, cmp)
    ensures SortedBy(s[1..], cmp)
  {
    forall i, j | 0 <= i < j < |s[1..]| ensures cmp(s[1..][i], s[1..][j]) <= 0 {
      assert s[1..][i] == s[i + 1] && s[1..][j] == s[j + 1];
    }
  }

  /** `x` placed in front of a sorted list it strictly precedes: the ties
      with `v` are those of the list followed by `x` if it ties. */
  lemma InsertFrontStable<T(!new)>(x: T, s: seq<T>, cmp: (T, T) -> int, v: T)
    requires IsComparator(cmp) && SortedBy(s, cmp) && s != [] && cmp(x, s[0]) < 0
    ensures Filter([x] + s, Ties(cmp, v)) == Filter(s, Ties(cmp, v)) + Filter([x], Ties(cmp, v))
  {
    var p := Ties(cmp, v);
    FilterAppend([x], s, p);
    if p(x) {
      NoTiesAfter(x, s, cmp, v);
    } else {
      assert Filter([x], p) == [];
    }
  }

  /** Inserting `x` into a sorted list puts it after every element it ties
      with: among the elements tying with any `v`, `x` comes last. */
  lemma {:induction false} InsertByStable<T(!new)>(x: T, s: seq<T>, cmp: (T, T) -> int, v: T)
    requires IsComparator(cmp) && SortedBy(s, cmp)
    ensures Filter(InsertBy(x, s, cmp), Ties(cmp, v)) == Filter(s, Ties(cmp, v)) + Filter([x], Ties(cmp, v))
    decreases |s|
  {
    if s == [] {
      assert InsertBy(x, s, cmp) == [x];
    } else if cmp(x, s[0]) < 0 {
      InsertFrontStable(x, s, cmp, v);
    } else {
      SortedTail(s, cmp);
      InsertByStable(x, s[1..], cmp, v);
      FilterConsShift(s[0], InsertBy(x, s[1..], cmp), s[1..], Filter([x], Ties(cmp, v)), Ties(cmp, v));
      assert s == [s[0]] + s[1..];
    }
  }

  /** The sort is stable: for every `v`, the elements the comparator ranks
      with `v` come out in the order they went in. */
  lemma {:induction false} SortByStable<T(!new)>(s: seq<T>, cmp: (T, T) -> int, v: T)
    requires IsComparator(cmp)
    ensures Filter(SortBy(s, cmp), Ties(cmp, v)) == Filter(s, Ties(cmp, v))
    decreases |s|
  {
    if s != [] {
      var init := s[..|s| - 1];
      SortByStable(init, cmp, v);
      SortBySorted(init, cmp);
      InsertByStable(s[|s| - 1], SortBy(init, cmp), cmp, v);
      SortByStableStep(s, cmp, v);
    }
  }

  /** One step of the sort: inserting the last element keeps the ties of
      the sorted prefix, followed by the last element if it ties. */
  lemma SortByStableStep<T(!new)>(s: seq<T>, cmp: (T, T) -> int, v: T)
    requires s != []
    requires Filter(SortBy(s[..|s| - 1], cmp), Ties(cmp, v)) == Filter(s[..|s| - 1], Ties(cmp, v))
    requires Filter(InsertBy(s[|s| - 1], SortBy(s[..|s| - 1], cmp), cmp), Ties(cmp, v)) ==
      Filter(SortBy(s[..|s| - 1], cmp), Ties(cmp, v)) + Filter([s[|s| - 1]], Ties(cmp, v))
    ensures Filter(SortBy(s, cmp), Ties(cmp, v)) == Filter(s, Ties(cmp, v))
  {
    SortByLast(s, cmp);
    FilterLast(s, Ties(cmp, v));
  }

  /** The sort inserts the last element into the sorted prefix. */
  lemma SortByLast<T>(s: seq<T>, cmp: (T, T) -> int)
    requires s != []
    ensures SortBy(s, cmp) == InsertBy(s[|s| - 1], SortBy(s[..|s| - 1], cmp), cmp)
  {
  }
}
