/**
 * The data sources behind the ISO, network and template pickers. Each keeps
 * `total` and `more` for the paginator and pushes the rows to show into a
 * subject; the subject is modelled as the list of every value it has held.
 * Server replies are parameters: `None` is a failed request.
 */
module DataSources {
  import opened Wrappers
  import opened Models
  import Text
  import JsArray
  import UntaggedPipe

  /** A row of the ISO or network picker: the server path and its display name. */
  datatype IsoFile = IsoFile(path: string, name: string)

  /* ---------------------------------------------------------------------- */
  /* Display names                                                           */
  /* ---------------------------------------------------------------------- */

  /** Name of an ISO, `path.split('/').pop()`: the text after the last `/`. */
  function IsoName(path: string): (name: string)
    ensures '/' !in name
    ensures |name| <= |path| && path[|path| - |name|..] == name
    ensures |name| < |path| ==> path[|path| - |name| - 1] == '/'
  {
    var parts := Text.Split(path, '/');
    Text.LastPieceIsPop(path, '/');
    Text.LastPieceSuffix(path, '/');
    Text.LastPieceNoSeparator(path, '/');
    parts[|parts| - 1]
  }

  /**
   * Name of a network, `path.split('#').reverse().pop()`: the last piece of
   * the reversed split, which is the text before the first `#`.
   */
  function NetName(path: string): (name: string)
    ensures name <= path
    ensures '#' !in name
    ensures |name| < |path| ==> path[|name|] == '#'
  {
    Text.SplitPieces(path, '#');
    Text.SplitFirst(path, '#');
    var parts := Text.Split(path, '#');
    var reversed := seq(|parts|, k requires 0 <= k < |parts| => parts[|parts| - 1 - k]);
    reversed[|reversed| - 1]
  }

  /** A network's name is what the `untagged` pipe shows for its path. */
  lemma NetNameIsUntagged(path: string)
    ensures NetName(path) == UntaggedPipe.Transform(path)
  {
    UntaggedPipe.BeforeFirstHash(path);
    var n := NetName(path);
    var i := Text.IndexOf(path, '#');
    assert forall k :: 0 <= k < i ==> path[..i][k] == path[k];
    assert forall k :: 0 <= k < |n| ==> n[k] == path[k];
  }

  /** `result.iso.map(s => ({ path: s, name: s.split('/').pop() }))` */
  function IsoEntries(paths: seq<string>): (r: seq<IsoFile>)
    ensures |r| == |paths|
    ensures forall k :: 0 <= k < |r| ==> r[k] == IsoFile(paths[k], IsoName(paths[k]))
  {
    seq(|paths|, k requires 0 <= k < |paths| => IsoFile(paths[k], IsoName(paths[k])))
  }

  /** `result.net.map(s => ({ path: s, name: s.split('#').reverse().pop() }))` */
  function NetEntries(paths: seq<string>): (r: seq<IsoFile>)
    ensures |r| == |paths|
    ensures forall k :: 0 <= k < |r| ==> r[k] == IsoFile(paths[k], NetName(paths[k]))
  {
    seq(|paths|, k requires 0 <= k < |paths| => IsoFile(paths[k], NetName(paths[k])))
  }

  /* ---------------------------------------------------------------------- */
  /* Filtering by the search term                                            */
  /* ---------------------------------------------------------------------- */

  /** `i.name.match(term)`, with the term read as literal text. */
  function NameMatches(f: IsoFile, term: string): (r: bool)
    ensures r <==> exists i :: Text.OccursAt(f.name, term, i)
    ensures term == "" ==> r
  {
    assert Text.OccursAt(f.name, "", 0);
    Text.Contains(f.name, term)
  }

  /** `cache.filter(i => i.name.match(term))` */
  function FilterByTerm(cache: seq<IsoFile>, term: string): (r: seq<IsoFile>)
    ensures |r| <= |cache|
  {
    if cache == [] then []
    else (if NameMatches(cache[0], term) then [cache[0]] else []) + FilterByTerm(cache[1..], term)
  }

  /** The filter works row by row: filtering a concatenation concatenates the filtered parts, so cache order is kept. */
  lemma {:induction false} FilterByTermConcat(a: seq<IsoFile>, b: seq<IsoFile>, term: string)
    ensures FilterByTerm(a + b, term) == FilterByTerm(a, term) + FilterByTerm(b, term)
  {
    if a == [] {
      assert a + b == b;
    } else {
      assert (a + b)[1..] == a[1..] + b;
      FilterByTermConcat(a[1..], b, term);
      var head := if NameMatches(a[0], term) then [a[0]] else [];
      calc {
        FilterByTerm(a + b, term);
        head + FilterByTerm(a[1..] + b, term);
        head + (FilterByTerm(a[1..], term) + FilterByTerm(b, term));
        (head + FilterByTerm(a[1..], term)) + FilterByTerm(b, term);
        FilterByTerm(a, term) + FilterByTerm(b, term);
      }
    }
  }

  /** Each entry is kept by the filter, as often as it occurs, exactly when its name matches. */
  lemma {:induction false} FilterByTermCounts(cache: seq<IsoFile>, term: string)
    ensures forall f :: multiset(FilterByTerm(cache, term))[f] ==
                        if NameMatches(f, term) then multiset(cache)[f] else 0
  {
    if cache != [] {
      FilterByTermCounts(cache[1..], term);
      assert cache == [cache[0]] + cache[1..];
    }
  }

  /** The filtered entries are entries of the cache whose names match. */
  lemma FilterByTermMembers(cache: seq<IsoFile>, term: string)
    ensures forall f :: f in FilterByTerm(cache, term) ==> f in cache && NameMatches(f, term)
    ensures forall f :: f in cache && NameMatches(f, term) ==> f in FilterByTerm(cache, term)
  {
    var r := FilterByTerm(cache, term);
    FilterByTermCounts(cache, term);
    forall f ensures f in r <==> f in cache && NameMatches(f, term) {
      assert f in r <==> multiset(r)[f] > 0;
      assert f in cache <==> multiset(cache)[f] > 0;
    }
  }

  /** The empty term matches every name, so filtering by it keeps the whole list. */
  lemma {:induction false} FilterByEmptyTerm(cache: seq<IsoFile>)
    ensures FilterByTerm(cache, "") == cache
  {
    if cache != [] {
      assert NameMatches(cache[0], "") by {
        assert Text.OccursAt(cache[0].name, "", 0);
      }
      FilterByEmptyTerm(cache[1..]);
      assert [cache[0]] + cache[1..] == cache;
    }
  }

  /** `IsoDataSource.filterCache`: an empty term keeps the cache itself. */
  function IsoFilter(cache: seq<IsoFile>, term: string): (r: seq<IsoFile>)
    ensures term == "" ==> r == cache
    ensures term != "" ==> r == FilterByTerm(cache, term)
  {
    if term != "" then FilterByTerm(cache, term) else cache
  }

  /** The shortcut for the empty term gives what filtering would have given. */
  lemma IsoFilterIsFilter(cache: seq<IsoFile>, term: string)
    ensures IsoFilter(cache, term) == FilterByTerm(cache, term)
  {
    if term == "" {
      FilterByEmptyTerm(cache);
    }
  }

  /* ---------------------------------------------------------------------- */
  /* Sorting by name                                                         */
  /* ---------------------------------------------------------------------- */

  /** Ascending order of names (lexicographic order of code points). */
  predicate NameLe(a: string, b: string) {
    a == [] || (b != [] && (a[0] < b[0] || (a[0] == b[0] && NameLe(a[1..], b[1..]))))
  }

  /** Any two names are ordered one way or the other. */
  lemma {:induction false} NameLeTotal(a: string, b: string)
    ensures NameLe(a, b) || NameLe(b, a)
  {
    if a != [] && b != [] && a[0] == b[0] {
      NameLeTotal(a[1..], b[1..]);
    }
  }

  predicate SortedByName(s: seq<IsoFile>) {
    forall i :: 0 <= i < |s| - 1 ==> NameLe(s[i].name, s[i + 1].name)
  }

  /** Inserts `x` before the first entry whose name it does not exceed. */
  function InsertByName(x: IsoFile, s: seq<IsoFile>): (r: seq<IsoFile>)
    ensures |r| == |s| + 1
    ensures multiset(r) == multiset(s) + multiset{x}
    ensures r[0] == x || (|s| > 0 && r[0] == s[0])
  {
    if s == [] then [x]
    else if NameLe(x.name, s[0].name) then [x] + s
    else
      assert s == [s[0]] + s[1..];
      [s[0]] + InsertByName(x, s[1..])
  }

  /** `.sort((a, b) => a.name.localeCompare(b.name))`, as an insertion sort. */
  function SortByName(s: seq<IsoFile>): (r: seq<IsoFile>)
    ensures |r| == |s|
    ensures multiset(r) == multiset(s)
  {
    if s == [] then []
    else
      assert s == [s[0]] + s[1..];
      InsertByName(s[0], SortByName(s[1..]))
  }

  lemma {:induction false} InsertKeepsSorted(x: IsoFile, s: seq<IsoFile>)
    requires SortedByName(s)
    ensures SortedByName(InsertByName(x, s))
  {
    if s != [] && !NameLe(x.name, s[0].name) {
      var t := InsertByName(x, s[1..]);
      InsertKeepsSorted(x, s[1..]);
      NameLeTotal(x.name, s[0].name);
      var r := [s[0]] + t;
      forall i | 0 <= i < |r| - 1 ensures NameLe(r[i].name, r[i + 1].name) {
        if i > 0 {
          assert r[i] == t[i - 1] && r[i + 1] == t[i];
        }
      }
    }
  }

  /** The sort orders its output by name. */
  lemma {:induction false} SortByNameSorted(s: seq<IsoFile>)
    ensures SortedByName(SortByName(s))
  {
    if s != [] {
      SortByNameSorted(s[1..]);
      InsertKeepsSorted(s[0], SortByName(s[1..]));
    }
  }

  /* ---------------------------------------------------------------------- */
  /* Pages                                                                   */
  /* ---------------------------------------------------------------------- */

  /**
   * What `IsoDataSource.emitResults` pushes: the filtered entries sorted by
   * name, sliced `(skip, skip + take)`.
   */
  function IsoPage(cache: seq<IsoFile>, search: Search): (r: seq<IsoFile>)
    ensures |r| <= search.take && |r| <= |cache|
  {
    JsArray.Slice(SortByName(IsoFilter(cache, search.term)), search.skip, search.skip + search.take)
  }

  /**
   * An ISO page is exactly the sorted matches from position `skip` up to
   * `skip + take` (or their end), and empty when `skip` is past them or
   * `take` is 0.
   */
  lemma IsoPageWindow(cache: seq<IsoFile>, search: Search)
    ensures var sorted := SortByName(IsoFilter(cache, search.term));
            var page := IsoPage(cache, search);
            |page| <= search.take &&
            (search.skip < |sorted| && search.take > 0 ==>
               page == sorted[search.skip..if search.skip + search.take < |sorted|
                                           then search.skip + search.take else |sorted|]) &&
            (search.skip >= |sorted| || search.take == 0 ==> page == [])
  {
  }

  /** An ISO page is sorted by name and holds only cache entries matching the term. */
  lemma IsoPageContents(cache: seq<IsoFile>, search: Search)
    ensures SortedByName(IsoPage(cache, search))
    ensures forall f :: f in IsoPage(cache, search) ==> f in cache && NameMatches(f, search.term)
  {
    var filtered := IsoFilter(cache, search.term);
    var sorted := SortByName(filtered);
    var page := IsoPage(cache, search);
    SortByNameSorted(filtered);
    forall i | 0 <= i < |page| - 1 ensures NameLe(page[i].name, page[i + 1].name) {
      assert page[i] == sorted[search.skip + i] && page[i + 1] == sorted[search.skip + i + 1];
    }
    IsoFilterIsFilter(cache, search.term);
    FilterByTermMembers(cache, search.term);
    JsArray.SliceWithin(sorted, search.skip, search.skip + search.take);
    forall f | f in page ensures f in cache && NameMatches(f, search.term) {
      assert f in sorted;
      assert multiset(sorted)[f] > 0;
      assert f in filtered;
    }
  }

  /**
   * What `VmNetDataSource.emitResults` pushes: the matching entries in cache
   * order, sliced `(skip, take)` -- the end of the slice is `take`, not
   * `skip + take`.
   */
  function NetPage(cache: seq<IsoFile>, search: Search): (r: seq<IsoFile>)
    ensures |r| <= search.take && |r| <= |cache|
    ensures forall f :: f in r ==> f in cache && NameMatches(f, search.term)
  {
    var matching := FilterByTerm(cache, search.term);
    FilterByTermMembers(cache, search.term);
    JsArray.SliceWithin(matching, search.skip, search.take);
    JsArray.Slice(matching, search.skip, search.take)
  }

  /**
   * A network page is the stretch of matching entries from `skip` up to
   * (not including) `take`, in cache order, never re-sorted; so any `skip`
   * at or past `take` gives an empty page.
   */
  lemma NetPageWindow(cache: seq<IsoFile>, search: Search)
    ensures var matching := FilterByTerm(cache, search.term);
            var page := NetPage(cache, search);
            (search.skip >= search.take ==> page == []) &&
            (search.skip < search.take && search.skip < |matching| ==>
               page == matching[search.skip..if search.take < |matching| then search.take else |matching|])
  {
  }

  /** Whether `load` answers from an existing cache: the search has a term or a skip. */
  function ReusesCache<T>(cache: Option<T>, search: Search): (r: bool)
    ensures cache.None? ==> !r
    ensures search.term == "" && search.skip == 0 ==> !r
    ensures cache.Some? && search.term != "" ==> r
    ensures cache.Some? && search.skip != 0 ==> r
  {
    cache.Some? && (search.term != "" || search.skip != 0)
  }

  /* ---------------------------------------------------------------------- */
  /* The data sources                                                        */
  /* ---------------------------------------------------------------------- */

  class VmNetDataSource {
    const topoId: string
    var cache: Option<seq<IsoFile>>
    var total: int
    var more: bool
    /** Every value the subject has held, oldest first; it starts out holding []. */
    var emitted: seq<seq<IsoFile>>

    constructor (topoId: string)
      ensures this.topoId == topoId
      ensures cache == None && total == 0 && !more && emitted == [[]]
    {
      this.topoId := topoId;
      cache := None;
      total := 0;
      more := false;
      emitted := [[]];
    }

    /**
     * Answers from the cache when it exists and the search has a term or a
     * skip; otherwise fetches the workspace's networks (`reply`). A failed
     * fetch hands the handler an empty array, whose missing `net` list makes
     * the handler throw before it assigns anything.
     */
    method Load(search: Search, reply: Option<VmOptions>) returns (fetched: bool)
      modifies this
      ensures fetched == !ReusesCache(old(cache), search)
      ensures more == old(more)
      ensures !fetched ==> cache == old(cache) && total == old(total)
      ensures fetched && reply.Some? ==>
                cache == Some(NetEntries(reply.value.net)) && total == |reply.value.net|
      ensures fetched && reply.None? ==>
                cache == old(cache) && total == old(total) && emitted == old(emitted)
      ensures !fetched || reply.Some? ==> emitted == old(emitted) + [NetPage(cache.value, search)]
    {
      if ReusesCache(cache, search) {
        fetched := false;
        EmitResults(search);
        return;
      }
      fetched := true;
      if reply.Some? {
        cache := Some(NetEntries(reply.value.net));
        total := |cache.value|;
        EmitResults(search);
      }
    }

    method EmitResults(search: Search)
      requires cache.Some?
      modifies this`emitted
      ensures emitted == old(emitted) + [NetPage(cache.value, search)]
    {
      emitted := emitted + [JsArray.Slice(FilterByTerm(cache.value, search.term), search.skip, search.take)];
    }
  }

  class IsoDataSource {
    const topoId: string
    var cache: Option<seq<IsoFile>>
    var total: int
    var more: bool
    /** Every value the subject has held, oldest first; it starts out holding []. */
    var emitted: seq<seq<IsoFile>>

    constructor (topoId: string)
      ensures this.topoId == topoId
      ensures cache == None && total == 0 && !more && emitted == [[]]
    {
      this.topoId := topoId;
      cache := None;
      total := 0;
      more := false;
      emitted := [[]];
    }

    /**
     * As `VmNetDataSource.Load`, over the workspace's ISO images. When it
     * emits, `total` ends as the number of cached entries matching the term.
     */
    method Load(search: Search, reply: Option<VmOptions>) returns (fetched: bool)
      modifies this
      ensures fetched == !ReusesCache(old(cache), search)
      ensures more == old(more)
      ensures fetched && reply.None? ==>
                cache == old(cache) && total == old(total) && emitted == old(emitted)
      ensures !fetched || reply.Some? ==>
                var loaded := if fetched then IsoEntries(reply.value.iso) else old(cache).value;
                cache == Some(if search.term == "" then SortByName(loaded) else loaded) &&
                total == |FilterByTerm(loaded, search.term)| &&
                emitted == old(emitted) + [IsoPage(loaded, search)]
    {
      if ReusesCache(cache, search) {
        fetched := false;
        EmitResults(search);
        return;
      }
      fetched := true;
      if reply.Some? {
        cache := Some(IsoEntries(reply.value.iso));
        total := |cache.value|;
        EmitResults(search);
      }
    }

    /**
     * Filters, sorts and slices the cache. With an empty term the filter
     * hands back the cache itself, which the sort then reorders in place.
     */
    method EmitResults(search: Search)
      requires cache.Some?
      modifies this`total, this`emitted, this`cache
      ensures total == |FilterByTerm(old(cache).value, search.term)|
      ensures emitted == old(emitted) + [IsoPage(old(cache).value, search)]
      ensures cache == if search.term == "" then Some(SortByName(old(cache).value)) else old(cache)
    {
      ghost var loaded := cache.value;
      var filtered := FilterCache(search);
      assert total == |FilterByTerm(loaded, search.term)| by {
        IsoFilterIsFilter(loaded, search.term);
      }
      var sorted := SortByName(filtered);
      var page := JsArray.Slice(sorted, search.skip, search.skip + search.take);
      assert page == IsoPage(loaded, search);
      if search.term == "" {
        cache := Some(sorted);
      }
      emitted := emitted + [page];
    }

    /** The cache entries matching the term; `total` becomes their number. */
    method FilterCache(search: Search) returns (r: seq<IsoFile>)
      requires cache.Some?
      modifies this`total
      ensures r == IsoFilter(cache.value, search.term)
      ensures total == |r|
    {
      r := if search.term != "" then FilterByTerm(cache.value, search.term) else cache.value;
      total := |r|;
    }
  }

  class TemplateDataSource {
    var total: int
    var more: bool
    /** Every value the subject has held, oldest first; it starts out holding []. */
    var emitted: seq<seq<TemplateSummary>>

    constructor ()
      ensures total == 0 && !more && emitted == [[]]
    {
      total := 0;
      more := false;
      emitted := [[]];
    }

    /**
     * Lists templates; a failed request counts as an empty result. `more`
     * holds exactly when the page came back full.
     */
    method Load(search: Search, reply: Option<seq<TemplateSummary>>)
      modifies this
      ensures total == |reply.GetOr([])|
      ensures more <==> |reply.GetOr([])| == search.take
      ensures reply.None? ==> total == 0 && (more <==> search.take == 0)
      ensures emitted == old(emitted) + [reply.GetOr([])]
    {
      var result := if reply.Some? then reply.value else [];
      total := |result|;
      more := |result| == search.take;
      emitted := emitted + [result];
    }
  }
}
