/** `GroupsState`: the client's group list with its loading and error flags,
    the list ordered by last update, and lookup by id. An HTTP exchange is
    one step here: the response, success or failure, is a parameter. */
module GroupsState {
  import opened Wrappers
  import opened Sequences
  import opened ClientModels

  const LoadFailed: string := "Failed to load groups"
  const CreateFailed: string := "Failed to create group"

  function UpdatedAt(g: ClientGroup): int {
    g.updatedAt
  }

  function HasId(id: string): ClientGroup -> bool {
    (g: ClientGroup) => g.id == id
  }

  class GroupsState {
    var groups: seq<ClientGroup>
    var loading: bool
    var error: Option<string>

    constructor()
      ensures groups == [] && !loading && error.None?
    {
      groups := [];
      loading := false;
      error := None;
    }

    /** `sortedGroups`: a sorted copy, most recently updated first; groups
        updated at the same time keep their order. The stored list itself is
        not reordered (a function cannot change it). */
    function SortedGroups(): (r: seq<ClientGroup>)
      reads this
      ensures SortedDesc(r, UpdatedAt)
      ensures multiset(r) == multiset(groups)
      ensures forall t :: Filter(r, KeyIs(UpdatedAt, t)) == Filter(groups, KeyIs(UpdatedAt, t))
    {
      SortDescSorted(groups, UpdatedAt);
      SortDescPermutes(groups, UpdatedAt);
      forall t
        ensures Filter(SortDesc(groups, UpdatedAt), KeyIs(UpdatedAt, t)) == Filter(groups, KeyIs(UpdatedAt, t))
      {
        SortDescStable(groups, UpdatedAt, t);
      }
      SortDesc(groups, UpdatedAt)
    }

    /** `getGroupById`: the first group with this id, or none. */
    function GroupById(id: string): (r: Option<ClientGroup>)
      reads this
      ensures r.None? <==> forall i | 0 <= i < |groups| :: groups[i].id != id
      ensures r.Some? ==> exists i | 0 <= i < |groups| ::
                            groups[i] == r.value && r.value.id == id && forall j | 0 <= j < i :: groups[j].id != id
    {
      match FindIndex(groups, HasId(id))
      case None => None
      case Some(i) => Some(groups[i])
    }

    /** `loadGroups`: on success the list is replaced by the fetched one,
        which is returned; on failure the list stays, the error is set and
        nothing is returned. */
    method LoadGroups(response: Result<seq<ClientGroup>>) returns (r: seq<ClientGroup>)
      modifies this
      ensures !loading
      ensures response.Ok? ==> groups == response.value && r == response.value && error.None?
      ensures response.Err? ==> groups == old(groups) && r == [] && error == Some(LoadFailed)
    {
      loading := true;
      error := None;
      if response.Ok? {
        groups := response.value;
        loading := false;
        r := response.value;
      } else {
        error := Some(LoadFailed);
        loading := false;
        r := [];
      }
    }

    /** `createGroup`: on success the new group is appended; on failure the
        list stays, the error is set and the failure is passed on. */
    method CreateGroup(response: Result<ClientGroup>) returns (r: Result<ClientGroup>)
      modifies this
      ensures !loading && r == response
      ensures response.Ok? ==> groups == old(groups) + [response.value] && error.None?
      ensures response.Err? ==> groups == old(groups) && error == Some(CreateFailed)
    {
      loading := true;
      error := None;
      if response.Ok? {
        groups := groups + [response.value];
        loading := false;
      } else {
        error := Some(CreateFailed);
        loading := false;
      }
      r := response;
    }
  }

  /** A group created with an id no listed group has is then found by that id. */
  method CreateThenFind(s: GroupsState, g: ClientGroup) returns (found: Option<ClientGroup>)
    requires forall i | 0 <= i < |s.groups| :: s.groups[i].id != g.id
    modifies s
    ensures found == Some(g)
  {
    var _ := s.CreateGroup(Ok(g));
    assert s.groups[|s.groups| - 1] == g;
    found := s.GroupById(g.id);
  }

  /** Sorting a list already ordered by last update changes nothing, so the
      view of a freshly sorted list is that list. */
  lemma SortedViewOfSortedList(s: GroupsState)
    requires SortedDesc(s.groups, UpdatedAt)
    ensures s.SortedGroups() == s.groups
  {
    SortDescOfSorted(s.groups, UpdatedAt);
  }
}
