/** A stable sort by a comparison, standing for the built-in array sort. */
module Sorting {
  import opened Common

  ghost predicate TotalPreorder<T(!new)>(le: (T, T) -> bool) {
    && (forall x, y :: le(x, y) || le(y, x))
    && (forall x, y, z :: le(x, y) && le(y, z) ==> le(x, z))
  }

  ghost predicate SortedBy<T>(le: (T, T) -> bool, s: seq<T>) {
    forall i, j :: 0 <= i < j < |s| ==> le(s[i], s[j])
  }

  /** Places `x` before the elements it does not exceed. */
  function Insert<T>(le: (T, T) -> bool, x: T, s: seq<T>): seq<T> {
    if s == [] || le(x, s[0]) then [x] + s else [s[0]] + Insert(le, x, s[1..])
  }

  function SortBy<T>(le: (T, T) -> bool, s: seq<T>): seq<T> {
    if s == [] then [] else Insert(le, s[0], SortBy(le, s[1..]))
  }

  lemma {:induction false} InsertHolds<T>(le: (T, T) -> bool, x: T, s: seq<T>)
    ensures multiset(Insert(le, x, s)) == multiset([x] + s)
  {
    if s != [] && !le(x, s[0]) {
      InsertHolds(le, x, s[1..]);
      assert s == [s[0]] + s[1..];
    }
  }

  lemma {:induction false} InsertSorts<T(!new)>(le: (T, T) -> bool, x: T, s: seq<T>)
    requires TotalPreorder(le) && SortedBy(le, s)
    ensures SortedBy(le, Insert(le, x, s))
    ensures multiset(Insert(le, x, s)) == multiset([x] + s)
  {
    InsertHolds(le, x, s);
    if s != [] && !le(x, s[0]) {
      InsertSorts(le, x, s[1..]);
      var rest := Insert(le, x, s[1..]);
      forall y | y in rest ensures le(s[0], y) {
        assert y in multiset(rest);
        assert y in multiset([x] + s[1..]);
        assert y == x || y in s[1..];
      }
    }
  }

  /** The result is ordered and holds the same elements. */
  lemma {:induction false} SortByIsSorted<T(!new)>(le: (T, T) -> bool, s: seq<T>)
    requires TotalPreorder(le)
    ensures SortedBy(le, SortBy(le, s))
    ensures multiset(SortBy(le, s)) == multiset(s)
    ensures |SortBy(le, s)| == |s|
  {
    if s != [] {
      SortByIsSorted(le, s[1..]);
      InsertSorts(le, s[0], SortBy(le, s[1..]));
      assert s == [s[0]] + s[1..];
    }
    assert |multiset(SortBy(le, s))| == |multiset(s)|;
  }

  lemma {:induction false} CountsOnce<T>(s: seq<T>, x: T)
    requires Distinct(s)
    ensures multiset(s)[x] <= 1
  {
    if s != [] {
      CountsOnce(s[1..], x);
      assert s == [s[0]] + s[1..];
      assert s[0] !in s[1..];
    }
  }

  /** Rearranging elements that occur once keeps them so. */
  lemma PermutationIsDistinct<T>(s: seq<T>, t: seq<T>)
    requires Distinct(s) && multiset(s) == multiset(t)
    ensures Distinct(t)
  {
    forall i, j | 0 <= i < j < |t| ensures t[i] != t[j] {
      CountsOnce(s, t[i]);
      assert t == t[..j] + [t[j]] + t[j + 1..];
      assert t[i] in t[..j];
      assert multiset(t)[t[i]] == multiset(t[..j])[t[i]] + multiset([t[j]])[t[i]] + multiset(t[j + 1..])[t[i]];
    }
  }
}
