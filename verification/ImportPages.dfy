/** The inventory pages of a resumable first import (initial-import.ts). */
module ImportPages {
  import opened CodePoints
  import opened Common
  import opened Sorting

  const PAGE := 2000

  datatype Entry = Entry(path: seq<Unit>, hash: string, size: nat)

  /** Orders entries by the portable form of their paths. */
  function ByKey(key: seq<Unit> -> seq<Unit>): (Entry, Entry) -> bool {
    (x: Entry, y: Entry) => Compare(key(x.path), key(y.path)) <= 0
  }

  lemma KeysAreOrdered(key: seq<Unit> -> seq<Unit>)
    ensures TotalPreorder(ByKey(key))
  {
    forall x: Entry, y: Entry ensures ByKey(key)(x, y) || ByKey(key)(y, x) {
      CompareReverses(key(x.path), key(y.path));
    }
    forall x: Entry, y: Entry, z: Entry | ByKey(key)(x, y) && ByKey(key)(y, z) ensures ByKey(key)(x, z) {
      CompareTransitive(key(x.path), key(y.path), key(z.path));
    }
  }

  /** Page `i` of some entries. */
  function Slice(entries: seq<Entry>, i: nat): seq<Entry>
    requires i * PAGE <= |entries|
  {
    entries[i * PAGE..if (i + 1) * PAGE <= |entries| then (i + 1) * PAGE else |entries|]
  }

  predicate IsPaged(entries: seq<Entry>, pages: seq<seq<Entry>>) {
    && pages != [] && (|pages| - 1) * PAGE <= |entries| <= |pages| * PAGE
    && (|pages| > 1 ==> (|pages| - 1) * PAGE < |entries|)
    && forall i :: 0 <= i < |pages| ==> i * PAGE <= |entries| && pages[i] == Slice(entries, i)
  }

  /** `importInventoryPages`: full pages and one last page, a single empty page for an empty vault. */
  method ImportInventoryPages(files: seq<Entry>, key: seq<Unit> -> seq<Unit>) returns (pages: seq<seq<Entry>>)
    ensures IsPaged(SortBy(ByKey(key), files), pages)
  {
    var entries := SortBy(ByKey(key), files);
    pages := [];
    var offset := 0;
    while offset < |entries|
      invariant offset == |pages| * PAGE && (|pages| > 0 ==> (|pages| - 1) * PAGE < |entries|)
      invariant forall i :: 0 <= i < |pages| ==> i * PAGE <= |entries| && pages[i] == Slice(entries, i)
      decreases |entries| - offset
    {
      var end := if offset + PAGE <= |entries| then offset + PAGE else |entries|;
      pages, offset := pages + [entries[offset..end]], offset + PAGE;
    }
    if pages == [] { pages := [[]]; }
  }

  ghost predicate KeysDistinct(entries: seq<Entry>, key: seq<Unit> -> seq<Unit>) {
    forall i, j :: 0 <= i < j < |entries| ==> key(entries[i].path) != key(entries[j].path)
  }

  /** Sorting by distinct keys puts them in strictly increasing order. */
  lemma SortedStrictly(files: seq<Entry>, key: seq<Unit> -> seq<Unit>, i: nat, j: nat)
    requires KeysDistinct(files, key) && i < j < |SortBy(ByKey(key), files)|
    ensures var s := SortBy(ByKey(key), files); Compare(key(s[i].path), key(s[j].path)) < 0
  {
    var s := SortBy(ByKey(key), files);
    KeysAreOrdered(key);
    SortByIsSorted(ByKey(key), files);
    assert ByKey(key)(s[i], s[j]);
    PermutationIsDistinct(files, s);
    assert s[i] in multiset(files) && s[j] in multiset(files);
    CompareEqual(key(s[i].path), key(s[j].path));
  }

  lemma {:induction false} SlicesAddUp(entries: seq<Entry>, pages: seq<seq<Entry>>)
    requires forall i :: 0 <= i < |pages| ==> i * PAGE <= |entries| && pages[i] == Slice(entries, i)
    ensures Flatten(pages) == entries[..if |pages| * PAGE <= |entries| then |pages| * PAGE else |entries|]
  {
    if pages != [] {
      var n := |pages| - 1;
      SlicesAddUp(entries, pages[..n]);
      assert pages[n] == Slice(entries, n);
      assert Flatten(pages[..n]) == entries[..n * PAGE];
    }
  }

  /**
   * The pages hold every file exactly once, in order, and at most 2000 each; only the last one may hold less.
   */
  lemma PagesPartition(files: seq<Entry>, key: seq<Unit> -> seq<Unit>, pages: seq<seq<Entry>>)
    requires IsPaged(SortBy(ByKey(key), files), pages)
    ensures Flatten(pages) == SortBy(ByKey(key), files)
    ensures multiset(Flatten(pages)) == multiset(files)
    ensures forall i :: 0 <= i < |pages| ==> |pages[i]| <= PAGE && (i < |pages| - 1 ==> |pages[i]| == PAGE)
  {
    var s := SortBy(ByKey(key), files);
    KeysAreOrdered(key);
    SortByIsSorted(ByKey(key), files);
    hide SortBy, ByKey;
    SlicesAddUp(s, pages);
    assert s[..|s|] == s;
  }

  /** With distinct keys, every key of an earlier page is smaller than every key of a later one. */
  lemma PagesAreDisjoint(files: seq<Entry>, key: seq<Unit> -> seq<Unit>, pages: seq<seq<Entry>>, i: nat, j: nat, a: nat,
    b: nat)
    requires KeysDistinct(files, key) && IsPaged(SortBy(ByKey(key), files), pages)
    requires i < j < |pages| && a < |pages[i]| && b < |pages[j]|
    ensures Compare(key(pages[i][a].path), key(pages[j][b].path)) < 0
  {
    hide SortBy, ByKey, KeysDistinct;
    var s := SortBy(ByKey(key), files);
    assert pages[i][a] == s[i * PAGE + a] && pages[j][b] == s[j * PAGE + b];
    SortedStrictly(files, key, i * PAGE + a, j * PAGE + b);
  }
}
