/**
 * Rust's `std::cmp::Ordering`, the laws a comparator must obey, and the
 * library sort `slice::sort_unstable_by`, modelled as an insertion sort on
 * values (the result is determined by the comparator when no two elements
 * compare `Equal`, so stability plays no part).
 */
module Orders {

  datatype Ordering = Less | Equal | Greater {
    /** `Ordering::reverse`. */
    function Reverse(): Ordering {
      match this
      case Less => Greater
      case Equal => Equal
      case Greater => Less
    }
  }

  /** Swapping the arguments reverses the result. */
  ghost predicate Antisymmetric<T(!new)>(cmp: (T, T) -> Ordering) {
    forall a, b :: cmp(a, b) == cmp(b, a).Reverse()
  }

  /** `Less` is transitive. */
  ghost predicate Transitive<T(!new)>(cmp: (T, T) -> Ordering) {
    forall a, b, c :: cmp(a, b) == Less && cmp(b, c) == Less ==> cmp(a, c) == Less
  }

  ghost predicate Comparator<T(!new)>(cmp: (T, T) -> Ordering) {
    Antisymmetric(cmp) && Transitive(cmp)
  }

  predicate StrictlySorted<T>(cmp: (T, T) -> Ordering, s: seq<T>) {
    forall i, j :: 0 <= i < j < |s| ==> cmp(s[i], s[j]) == Less
  }

  /** No two elements compare `Equal`. */
  predicate PairwiseDistinct<T>(cmp: (T, T) -> Ordering, s: seq<T>) {
    forall i, j :: 0 <= i < j < |s| ==> cmp(s[i], s[j]) != Equal
  }

  /** Inserts `x` before the first element it compares `Less` with. */
  function Insert<T>(cmp: (T, T) -> Ordering, x: T, s: seq<T>): seq<T>
    decreases |s|
  {
    if s == [] || cmp(x, s[0]) == Less then [x] + s
    else [s[0]] + Insert(cmp, x, s[1..])
  }

  /** `sort_unstable_by(cmp)`, as an insertion sort. */
  function SortBy<T>(cmp: (T, T) -> Ordering, s: seq<T>): seq<T>
    decreases |s|
  {
    if s == [] then [] else Insert(cmp, s[0], SortBy(cmp, s[1..]))
  }

  /** Inserting adds exactly `x`. */
  lemma {:induction false} InsertMultiset<T>(cmp: (T, T) -> Ordering, x: T, s: seq<T>)
    ensures multiset(Insert(cmp, x, s)) == multiset(s) + multiset{x}
    decreases |s|
  {
    if s != [] && cmp(x, s[0]) != Less {
      InsertMultiset(cmp, x, s[1..]);
      assert s == [s[0]] + s[1..];
    }
  }

  /** Prefixing a strictly sorted sequence with an element below all of it keeps it strictly sorted. */
  lemma ConsSorted<T>(cmp: (T, T) -> Ordering, h: T, s: seq<T>)
    requires StrictlySorted(cmp, s)
    requires forall k :: 0 <= k < |s| ==> cmp(h, s[k]) == Less
    ensures StrictlySorted(cmp, [h] + s)
  {
    var r := [h] + s;
    forall i, j | 0 <= i < j < |r| ensures cmp(r[i], r[j]) == Less {
      if i == 0 {
        assert r[j] == s[j - 1];
      } else {
        assert r[i] == s[i - 1] && r[j] == s[j - 1];
      }
    }
  }

  /** An element below the head of a strictly sorted sequence is below all of it. */
  lemma BelowHead<T(!new)>(cmp: (T, T) -> Ordering, x: T, s: seq<T>)
    requires Transitive(cmp)
    requires s != [] && StrictlySorted(cmp, s) && cmp(x, s[0]) == Less
    ensures forall k :: 0 <= k < |s| ==> cmp(x, s[k]) == Less
  {
    forall k | 0 < k < |s| ensures cmp(x, s[k]) == Less {
      assert cmp(s[0], s[k]) == Less;
    }
  }

  /** The head of a strictly sorted sequence is below `x` and every element of the tail. */
  lemma HeadBelow<T>(cmp: (T, T) -> Ordering, x: T, s: seq<T>, rest: seq<T>)
    requires s != [] && StrictlySorted(cmp, s) && cmp(s[0], x) == Less
    requires multiset(rest) == multiset(s[1..]) + multiset{x}
    ensures forall k :: 0 <= k < |rest| ==> cmp(s[0], rest[k]) == Less
  {
    forall k | 0 <= k < |rest| ensures cmp(s[0], rest[k]) == Less {
      assert rest[k] in multiset(rest);
      if rest[k] != x {
        assert rest[k] in multiset(s[1..]);
        var j :| 0 <= j < |s[1..]| && s[1..][j] == rest[k];
        assert s[j + 1] == rest[k];
      }
    }
  }

  /** A suffix of a strictly sorted sequence is strictly sorted. */
  lemma SortedTail<T>(cmp: (T, T) -> Ordering, s: seq<T>)
    requires s != [] && StrictlySorted(cmp, s)
    ensures StrictlySorted(cmp, s[1..])
  {
    forall i, j | 0 <= i < j < |s[1..]| ensures cmp(s[1..][i], s[1..][j]) == Less {
      assert s[1..][i] == s[i + 1] && s[1..][j] == s[j + 1];
    }
  }

  /** Inserting into a strictly sorted sequence an element distinct from all of it keeps it strictly sorted. */
  lemma {:induction false} InsertSorted<T(!new)>(cmp: (T, T) -> Ordering, x: T, s: seq<T>)
    requires Comparator(cmp)
    requires StrictlySorted(cmp, s)
    requires forall y :: y in s ==> cmp(x, y) != Equal
    ensures StrictlySorted(cmp, Insert(cmp, x, s))
    decreases |s|
  {
    if s == [] {
    } else if cmp(x, s[0]) == Less {
      BelowHead(cmp, x, s);
      ConsSorted(cmp, x, s);
    } else {
      assert s[0] in s;
      assert cmp(s[0], x) == Less by { assert cmp(x, s[0]) == cmp(s[0], x).Reverse(); }
      SortedTail(cmp, s);
      assert forall y :: y in s[1..] ==> y in s;
      InsertSorted(cmp, x, s[1..]);
      InsertMultiset(cmp, x, s[1..]);
      var rest := Insert(cmp, x, s[1..]);
      HeadBelow(cmp, x, s, rest);
      ConsSorted(cmp, s[0], rest);
    }
  }

  /** A suffix of a pairwise distinct sequence is pairwise distinct. */
  lemma DistinctTail<T>(cmp: (T, T) -> Ordering, s: seq<T>)
    requires s != [] && PairwiseDistinct(cmp, s)
    ensures PairwiseDistinct(cmp, s[1..])
  {
    forall i, j | 0 <= i < j < |s[1..]| ensures cmp(s[1..][i], s[1..][j]) != Equal {
      assert s[1..][i] == s[i + 1] && s[1..][j] == s[j + 1];
    }
  }

  /** The head of a pairwise distinct sequence is distinct from every rearrangement of its tail. */
  lemma HeadDistinct<T>(cmp: (T, T) -> Ordering, s: seq<T>, rest: seq<T>)
    requires s != [] && PairwiseDistinct(cmp, s)
    requires multiset(rest) == multiset(s[1..])
    ensures forall y :: y in rest ==> cmp(s[0], y) != Equal
  {
    forall y | y in rest ensures cmp(s[0], y) != Equal {
      assert y in multiset(rest);
      var j :| 0 <= j < |s[1..]| && s[1..][j] == y;
      assert s[j + 1] == y;
    }
  }

  /**
   * `sort_unstable_by` with a comparator under which no two elements are
   * `Equal` gives a strictly sorted permutation of its input.
   */
  lemma {:induction false} SortBySpec<T(!new)>(cmp: (T, T) -> Ordering, s: seq<T>)
    requires Comparator(cmp)
    requires PairwiseDistinct(cmp, s)
    ensures StrictlySorted(cmp, SortBy(cmp, s))
    ensures multiset(SortBy(cmp, s)) == multiset(s)
    decreases |s|
  {
    if s != [] {
      DistinctTail(cmp, s);
      SortBySpec(cmp, s[1..]);
      var rest := SortBy(cmp, s[1..]);
      HeadDistinct(cmp, s, rest);
      InsertSorted(cmp, s[0], rest);
      InsertMultiset(cmp, s[0], rest);
      assert s == [s[0]] + s[1..];
    }
  }

  /**
   * Two strictly sorted sequences with the same elements are equal: the
   * outcome of the sort does not depend on the order of its input.
   */
  lemma {:induction false} StrictlySortedUnique<T(!new)>(cmp: (T, T) -> Ordering, a: seq<T>, b: seq<T>)
    requires Antisymmetric(cmp)
    requires StrictlySorted(cmp, a) && StrictlySorted(cmp, b)
    requires forall x :: x in a <==> x in b
    ensures a == b
    decreases |a|
  {
    assert a == [] <==> b == [] by {
      if a != [] { assert a[0] in b; }
      if b != [] { assert b[0] in a; }
    }
    if a != [] {
      assert a[0] == b[0] by {
        assert b[0] in a && a[0] in b;
      }
      forall x ensures x in a[1..] <==> x in b[1..] {
        if x in a[1..] {
          var i :| 1 <= i < |a| && a[i] == x;
          assert cmp(a[0], x) == Less;
          assert x != a[0] by { assert cmp(a[0], a[0]) == cmp(a[0], a[0]).Reverse(); }
          assert x in b;
        }
        if x in b[1..] {
          var j :| 1 <= j < |b| && b[j] == x;
          assert cmp(b[0], x) == Less;
          assert x != b[0] by { assert cmp(b[0], b[0]) == cmp(b[0], b[0]).Reverse(); }
          assert x in a;
        }
      }
      StrictlySortedUnique(cmp, a[1..], b[1..]);
      assert a == [a[0]] + a[1..];
      assert b == [b[0]] + b[1..];
    }
  }
}
