/** The admin page that lists workspaces, 26 at a time. */
module Workspaces {
  import opened Models
  import Text
  import JsArray
  import Paging

  /** Page size of the workspace list. */
  const Take: nat := 26

  /** The search this page sends; its filter list is named `filters`. */
  datatype TopoSearch = TopoSearch(term: string, skip: nat, take: nat, filters: seq<string>)

  /** `topo.templateLimit += count`: only the template limit moves. */
  function WithLimitChanged(topo: Workspace, count: int): (r: Workspace)
    ensures r.templateLimit == topo.templateLimit + count
    ensures r.(templateLimit := topo.templateLimit) == topo
  {
    topo.(templateLimit := topo.templateLimit + count)
  }

  /** The workers' names, in list order. */
  function WorkerNames(topo: Workspace): (names: seq<string>)
    ensures |names| == |topo.workers|
    ensures forall k :: 0 <= k < |names| ==> names[k] == topo.workers[k].personName
  {
    seq(|topo.workers|, k requires 0 <= k < |topo.workers| => topo.workers[k].personName)
  }

  /** Whether no worker's name holds a comma. */
  predicate CommaFreeNames(topo: Workspace) {
    forall k :: 0 <= k < |topo.workers| ==> ',' !in topo.workers[k].personName
  }

  /**
   * `topo.workers.map(p => p.personName).join()`: names separated by
   * commas. Without workers the text is empty; with workers whose names
   * hold no comma, splitting the text at commas gives the names back in
   * list order.
   */
  function Workers(topo: Workspace): (r: string)
    ensures topo.workers == [] ==> r == ""
    ensures |r| >= |topo.workers| - 1
    ensures |topo.workers| > 0 && CommaFreeNames(topo) ==> Text.Split(r, ',') == WorkerNames(topo)
  {
    var names := WorkerNames(topo);
    assert |names| > 0 && CommaFreeNames(topo) ==> Text.Split(Text.JoinAll(names, ','), ',') == names by {
      if |names| > 0 && CommaFreeNames(topo) {
        Text.SplitJoin(names, ',');
      }
    }
    Text.JoinAll(names, ',')
  }

  class WorkspacesComponent {
    var current: int
    var topos: seq<Workspace>
    var search: TopoSearch
    var hasMore: bool
    /** Every workspace pushed to `changedTopo`, oldest first (saved after a debounce). */
    var changed: seq<Workspace>

    constructor ()
      ensures search == TopoSearch("", 0, Take, [])
      ensures current == 0 && topos == [] && !hasMore && changed == []
    {
      current := 0;
      topos := [];
      search := TopoSearch("", 0, Take, []);
      hasMore := false;
      changed := [];
    }

    /** The toolbar's search term changed: take it and fetch from the start. */
    method TermChanged(term: string) returns (request: TopoSearch)
      modifies this
      ensures search == old(search).(term := term, skip := 0)
      ensures topos == [] && request == search
      ensures hasMore == old(hasMore) && current == old(current) && changed == old(changed)
    {
      search := search.(term := term);
      request := Fetch();
    }

    /** Starts over: `skip` back to 0, the list emptied, and the first page requested. */
    method Fetch() returns (request: TopoSearch)
      modifies this
      ensures search == old(search).(skip := 0)
      ensures topos == [] && request == search
      ensures hasMore == old(hasMore) && current == old(current) && changed == old(changed)
    {
      search := search.(skip := 0);
      topos := [];
      request := More();
    }

    /** Requests the next page with the current search; the reply comes to `MoreReplied`. */
    method More() returns (request: TopoSearch)
      ensures request == search
    {
      request := search;
    }

    /**
     * A page of results arrived: appended in order, `skip` advanced by its
     * length, `hasMore` exactly when the page is full.
     */
    method MoreReplied(results: seq<Workspace>)
      modifies this
      ensures (topos, search.skip) == Paging.Append(old(topos), old(search.skip), results)
      ensures search == old(search).(skip := search.skip)
      ensures hasMore == Paging.HasMore(|results|, search.take)
      ensures current == old(current) && changed == old(changed)
      ensures old(search.skip) == old(|topos|) ==> search.skip == |topos|
    {
      topos := topos + results;
      search := search.(skip := search.skip + |results|);
      hasMore := |results| == search.take;
    }

    /** The filter changed: `filters` becomes `[value]` and the list is fetched again. */
    method FilterChanged(value: string) returns (request: TopoSearch)
      modifies this
      ensures search == old(search).(filters := [value], skip := 0)
      ensures topos == [] && request == search
      ensures hasMore == old(hasMore) && current == old(current) && changed == old(changed)
    {
      search := search.(filters := [value]);
      request := Fetch();
    }

    method Select(topo: Workspace)
      modifies this`current
      ensures current == Paging.Toggle(old(current), topo.id)
    {
      current := if current != topo.id then topo.id else 0;
    }

    /** Asks the server to delete the workspace; the acknowledgement comes to `DeleteAcknowledged`. */
    method Delete(topo: Workspace) returns (request: int)
      ensures request == topo.id
    {
      request := topo.id;
    }

    /**
     * The server deleted `topo`: the list drops it with
     * `splice(indexOf(topo), 1)`, the others keeping their order.
     */
    method DeleteAcknowledged(topo: Workspace)
      modifies this`topos
      ensures topos == JsArray.SpliceOne(old(topos), JsArray.IndexOf(old(topos), topo))
      ensures topo in old(topos) ==>
                var i := JsArray.IndexOf(old(topos), topo);
                old(topos)[i] == topo && topos == old(topos)[..i] + old(topos)[i + 1..]
      ensures topo !in old(topos) && old(topos) != [] ==> topos == old(topos)[..|old(topos)| - 1]
    {
      JsArray.SpliceIndexOf(topos, topo);
      topos := JsArray.SpliceOne(topos, JsArray.IndexOf(topos, topo));
    }

    /**
     * Raises the template limit of the workspace at row `i` by `count`,
     * changing nothing else, and pushes the changed workspace to be saved.
     */
    method ChangeLimit(i: nat, count: int)
      requires i < |topos|
      modifies this`topos, this`changed
      ensures topos == old(topos)[i := WithLimitChanged(old(topos)[i], count)]
      ensures changed == old(changed) + [topos[i]]
    {
      var topo := topos[i].(templateLimit := topos[i].templateLimit + count);
      topos := topos[i := topo];
      changed := changed + [topo];
    }
  }
}
