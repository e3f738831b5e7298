/** The admin page that lists user profiles, 25 at a time. */
module People {
  import opened Models
  import JsArray
  import Paging

  /** Page size of the people list. */
  const Take: nat := 25

  class PeopleComponent {
    var search: Search
    var hasMore: bool
    var current: int
    var people: seq<UserProfile>

    constructor ()
      ensures search == Search("", 0, Take, [])
      ensures !hasMore && current == 0 && people == []
    {
      search := Search("", 0, Take, []);
      hasMore := false;
      current := 0;
      people := [];
    }

    /** The toolbar's search term changed: take it and fetch from the start. */
    method TermChanged(term: string) returns (request: Search)
      modifies this
      ensures search == old(search).(term := term, skip := 0)
      ensures people == [] && request == search
      ensures hasMore == old(hasMore) && current == old(current)
    {
      search := search.(term := term);
      request := Fetch();
    }

    /** Starts over: `skip` back to 0, the list emptied, and the first page requested. */
    method Fetch() returns (request: Search)
      modifies this
      ensures search == old(search).(skip := 0)
      ensures people == [] && request == search
      ensures hasMore == old(hasMore) && current == old(current)
    {
      search := search.(skip := 0);
      people := [];
      request := More();
    }

    /** Requests the next page with the current search; the reply comes to `MoreReplied`. */
    method More() returns (request: Search)
      ensures request == search
    {
      request := search;
    }

    /**
     * A page arrived: it is appended in order, `skip` advances by its length,
     * and `hasMore` holds exactly when the page is full.
     */
    method MoreReplied(data: seq<UserProfile>)
      modifies this
      ensures (people, search.skip) == Paging.Append(old(people), old(search.skip), data)
      ensures search == old(search).(skip := search.skip)
      ensures hasMore == Paging.HasMore(|data|, search.take)
      ensures current == old(current)
      ensures old(search.skip) == old(|people|) ==> search.skip == |people|
    {
      people := people + data;
      search := search.(skip := search.skip + |data|);
      hasMore := |data| == search.take;
    }

    /** The role filter changed: it becomes the only filter and the list is fetched again. */
    method FilterChanged(value: string) returns (request: Search)
      modifies this
      ensures search == old(search).(filter := [value], skip := 0)
      ensures people == [] && request == search
      ensures hasMore == old(hasMore) && current == old(current)
    {
      search := search.(filter := [value]);
      request := Fetch();
    }

    method Select(p: UserProfile)
      modifies this`current
      ensures current == Paging.Toggle(old(current), p.id)
    {
      current := if current != p.id then p.id else 0;
    }

    /**
     * Drops a deleted profile with `splice(indexOf(p), 1)`: its first
     * occurrence goes; when it is not in the list the last profile goes.
     */
    method OnDeleted(p: UserProfile)
      modifies this`people
      ensures people == JsArray.SpliceOne(old(people), JsArray.IndexOf(old(people), p))
      ensures p in old(people) ==> multiset(people) == multiset(old(people)) - multiset{p}
      ensures p !in old(people) && old(people) != [] ==> people == old(people)[..|old(people)| - 1]
    {
      JsArray.SpliceIndexOf(people, p);
      people := JsArray.SpliceOne(people, JsArray.IndexOf(people, p));
    }
  }
}
