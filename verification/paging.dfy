/**
 * Bookkeeping shared by the admin list pages: `fetch` starts from an empty
 * list at skip 0, each `more` reply appends a page and advances `skip` by
 * its length, and `select` toggles the highlighted row.
 */
module Paging {

  /** The list and skip after one `more` reply carrying `page`. */
  function Append<T>(items: seq<T>, skip: int, page: seq<T>): (r: (seq<T>, int))
    ensures |r.0| == |items| + |page| && r.1 - skip == |page|
    ensures r.0[..|items|] == items && r.0[|items|..] == page
  {
    (items + page, skip + |page|)
  }

  /** The list and skip after the replies `pages` arrive, in order. */
  function AppendAll<T>(items: seq<T>, skip: int, pages: seq<seq<T>>): (seq<T>, int)
    decreases |pages|
  {
    if pages == [] then (items, skip)
    else
      var next := Append(items, skip, pages[0]);
      AppendAll(next.0, next.1, pages[1..])
  }

  /** All pages, concatenated in arrival order. */
  function Flatten<T>(pages: seq<seq<T>>): seq<T> {
    if pages == [] then [] else pages[0] + Flatten(pages[1..])
  }

  /**
   * Replies append their pages in arrival order, and `skip` moves by the
   * total length of the pages.
   */
  lemma {:induction false} AppendAllContents<T>(items: seq<T>, skip: int, pages: seq<seq<T>>)
    ensures AppendAll(items, skip, pages).0 == items + Flatten(pages)
    ensures AppendAll(items, skip, pages).1 == skip + |Flatten(pages)|
    decreases |pages|
  {
    if pages != [] {
      AppendAllContents(items + pages[0], skip + |pages[0]|, pages[1..]);
      assert items + pages[0] + Flatten(pages[1..]) == items + Flatten(pages);
    }
  }

  /**
   * After a `fetch` (empty list, skip 0) and any number of completed `more`
   * replies, `skip` equals the length of the list, and the list is the
   * replies' pages in order.
   */
  lemma SkipTracksLength<T>(pages: seq<seq<T>>)
    ensures AppendAll([], 0, pages).1 == |AppendAll([], 0, pages).0|
    ensures AppendAll([], 0, pages).0 == Flatten(pages)
  {
    AppendAllContents([], 0, pages);
    assert [] + Flatten(pages) == Flatten(pages);
  }

  /** `hasMore`: the last page came back full. */
  function HasMore(pageLength: nat, take: nat): (r: bool)
    ensures r ==> pageLength == take
    ensures pageLength == take ==> r
  {
    pageLength == take
  }

  /** `select`: the clicked id becomes current, unless it already is, which clears it to 0. */
  function Toggle(current: int, id: int): (r: int)
    ensures r == id || r == 0
    ensures current != id ==> r == id
    ensures current == id ==> r == 0
  {
    if current != id then id else 0
  }

  /** Clicking the same row twice clears the selection unless the row was already current. */
  lemma ToggleTwice(current: int, id: int)
    ensures Toggle(Toggle(current, id), id) == if current == id then id else 0
  {
  }
}
