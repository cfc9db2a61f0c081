/** Sorting a sequence by a caller-supplied order, standing in for
    `Array.prototype.sort` with a comparator and for the store's `orderBy`. */
module Sorting {

  /** Any two elements are comparable one way or the other. */
  ghost predicate Total<T(!new)>(le: (T, T) -> bool) {
    forall a, b :: le(a, b) || le(b, a)
  }

  ghost predicate Transitive<T(!new)>(le: (T, T) -> bool) {
    forall a, b, c :: le(a, b) && le(b, c) ==> le(a, c)
  }

  /** Each element is in order with its successor. */
  predicate Sorted<T>(s: seq<T>, le: (T, T) -> bool) {
    forall i :: 0 < i < |s| ==> le(s[i - 1], s[i])
  }

  /** Inserts `x` after every leading element that is not greater than it. */
  function Insert<T(!new)>(s: seq<T>, x: T, le: (T, T) -> bool): (r: seq<T>)
    requires Total(le) && Sorted(s, le)
    ensures Sorted(r, le)
    ensures multiset(r) == multiset(s) + multiset{x}
    ensures r[0] == x || (s != [] && r[0] == s[0])
  {
    if s == [] then [x]
    else if le(s[0], x) then
      assert s == [s[0]] + s[1..];
      [s[0]] + Insert(s[1..], x, le)
    else [x] + s
  }

  /** Insertion sort: the elements of `s` inserted one after the other into a sorted prefix.
      Elements the order ties keep their relative order. */
  function Sort<T(!new)>(s: seq<T>, le: (T, T) -> bool): (r: seq<T>)
    requires Total(le)
    ensures Sorted(r, le)
    ensures multiset(r) == multiset(s)
  {
    if s == [] then []
    else
      assert s == s[..|s| - 1] + [s[|s| - 1]];
      Insert(Sort(s[..|s| - 1], le), s[|s| - 1], le)
  }

  /** Sorts `s` in one pass of insertions. */
  method SortBy<T(!new)>(s: seq<T>, le: (T, T) -> bool) returns (r: seq<T>)
    requires Total(le)
    ensures r == Sort(s, le)
    ensures Sorted(r, le)
    ensures multiset(r) == multiset(s)
  {
    r := [];
    for i := 0 to |s|
      invariant r == Sort(s[..i], le)
    {
      assert s[..i + 1][..i] == s[..i];
      r := Insert(r, s[i], le);
    }
    assert s[..|s|] == s;
  }

  /** An element that every element of a sorted sequence precedes is inserted at the end. */
  lemma {:induction false} InsertAfterAll<T(!new)>(s: seq<T>, x: T, le: (T, T) -> bool)
    requires Total(le) && Sorted(s, le)
    requires forall i :: 0 <= i < |s| ==> le(s[i], x)
    ensures Insert(s, x, le) == s + [x]
  {
    if s != [] {
      assert le(s[0], x);
      InsertAfterAll(s[1..], x, le);
      assert s == [s[0]] + s[1..];
    }
  }

  /** Sorting after appending an element that no element follows appends it to the sorted
      sequence. */
  lemma SortSnocGreatest<T(!new)>(s: seq<T>, x: T, le: (T, T) -> bool)
    requires Total(le)
    requires forall y :: y in s ==> le(y, x)
    ensures Sort(s + [x], le) == Sort(s, le) + [x]
  {
    assert (s + [x])[..|s|] == s;
    var sorted := Sort(s, le);
    forall i | 0 <= i < |sorted| ensures le(sorted[i], x) {
      assert sorted[i] in multiset(sorted);
    }
    InsertAfterAll(sorted, x, le);
  }

  /** Sorting after appending an element that no element precedes puts it in front. */
  lemma SortSnocLeast<T(!new)>(s: seq<T>, x: T, le: (T, T) -> bool)
    requires Total(le)
    requires forall y :: y in s ==> !le(y, x)
    ensures Sort(s + [x], le) == [x] + Sort(s, le)
  {
    assert (s + [x])[..|s|] == s;
    var sorted := Sort(s, le);
    if sorted != [] {
      assert sorted[0] in multiset(sorted);
    }
  }

  /** With a transitive order, neighbours in order means every pair in order. */
  lemma {:induction false} SortedAllPairs<T(!new)>(s: seq<T>, le: (T, T) -> bool)
    requires Transitive(le) && Sorted(s, le)
    ensures forall i, j :: 0 <= i < j < |s| ==> le(s[i], s[j])
  {
    if |s| > 1 {
      SortedAllPairs(s[1..], le);
      forall i, j | 0 <= i < j < |s| ensures le(s[i], s[j]) {
        if i > 0 {
          assert le(s[1..][i - 1], s[1..][j - 1]);
        } else if j > 1 {
          assert le(s[1..][0], s[1..][j - 1]);
        }
      }
    }
  }
}
