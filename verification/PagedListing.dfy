/** Following the cursors of a paged listing (`pagedListing` in archive.ts). */
module PagedListing {
  import opened Common

  datatype Page<T> = Page(items: seq<T>, cursor: string)

  /** The items of the first page and of the pages that these cursors lead to. */
  function Items<T>(list: Option<string> -> Page<T>, cursors: seq<string>): seq<T> {
    if cursors == [] then list(None).items
    else Items(list, cursors[..|cursors| - 1]) + list(Some(cursors[|cursors| - 1])).items
  }

  function Last(cursors: seq<string>): Option<string> {
    if cursors == [] then None else Some(cursors[|cursors| - 1])
  }

  /** Each cursor is the one its predecessor's page names, and none occurs twice. */
  predicate IsWalk<T>(list: Option<string> -> Page<T>, cursors: seq<string>) {
    && (forall i :: 0 <= i < |cursors| ==> cursors[i] != "" && cursors[i] == list(Last(cursors[..i])).cursor)
    && (forall i, j :: 0 <= i < j < |cursors| ==> cursors[i] != cursors[j])
  }

  /**
   * Every page is read once, in order, until one names no further cursor. A cursor that occurs again stops
   * the listing, so it ends whenever there are finitely many cursors.
   */
  method List<T>(list: Option<string> -> Page<T>, ghost universe: set<string>)
    returns (items: seq<T>, stalled: bool, ghost cursors: seq<string>)
    requires forall c :: list(c).cursor in universe
    ensures IsWalk(list, cursors) && items == Items(list, cursors)
    ensures stalled <==> list(Last(cursors)).cursor in cursors
    ensures !stalled ==> list(Last(cursors)).cursor == ""
  {
    var seen: set<string> := {};
    cursors := [];
    assert IsWalk(list, cursors);
    var page := list(None);
    items := page.items;
    hide IsWalk;
    while page.cursor != ""
      invariant page == list(Last(cursors)) && IsWalk(list, cursors) && items == Items(list, cursors)
      invariant forall c :: c in seen <==> c in cursors
      invariant seen <= universe
      decreases universe - seen
    {
      var cursor := page.cursor;
      if cursor in seen { return items, true, cursors; }
      WalkFurther(list, cursors, cursor);
      seen, cursors := seen + {cursor}, cursors + [cursor];
      page := list(Some(cursor));
      items := items + page.items;
    }
    stalled := false;
  }

  lemma WalkFurther<T>(list: Option<string> -> Page<T>, cursors: seq<string>, cursor: string)
    requires IsWalk(list, cursors) && cursor == list(Last(cursors)).cursor && cursor != "" && cursor !in cursors
    ensures IsWalk(list, cursors + [cursor]) && Last(cursors + [cursor]) == Some(cursor)
    ensures Items(list, cursors + [cursor]) == Items(list, cursors) + list(Some(cursor)).items
  {
    var more := cursors + [cursor];
    assert more[..|cursors|] == cursors;
    assert forall i :: 0 <= i < |cursors| ==> more[..i] == cursors[..i];
  }
}
