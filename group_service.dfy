/** `GroupService`: creating and updating groups over a group table, adding and
    removing members, archiving, and the membership, admin, count and search
    queries. Each operation checks everything first and either fails with no
    change or succeeds. Throughout, the creator of every stored group is one
    of its members. */
module GroupService {
  import opened Wrappers
  import opened Strings
  import opened Entities
  import Numbers

  const UserNotFound: string := "User not found"
  const GroupNotFound: string := "Group not found"
  const NameTaken: string := "Group with this name already exists for this user"
  const CannotRemoveCreator: string := "Cannot remove group creator"
  const ValidationFailed: string := "Validation failed"

  /** The message for a requested member id that names no user. */
  function MemberNotFound(id: int): (message: string)
    ensures message == "Member not found: " + Numbers.ShowInt(id)
    ensures Numbers.ShowInt(id) <= message[|"Member not found: "|..]
  {
    "Member not found: " + Numbers.ShowInt(id)
  }

  /** Why a group operation fails: a fixed message, or some id of `ids` that
      names no user. The member ids come as a set, so which of several unknown
      ids is reported depends on the set's iteration order and is left open. */
  datatype GroupError = Message(text: string) | UnknownMember(ids: set<int>)

  /** `message` is a message the failure `e` may be reported with. */
  predicate Reports(e: GroupError, message: string) {
    match e
    case Message(text) => message == text
    case UnknownMember(ids) => exists id | id in ids :: message == MemberNotFound(id)
  }

  /** The requested ids that name no user. */
  function MissingIds(users: map<int, User>, ids: set<int>): (missing: set<int>)
    ensures forall id :: id in missing <==> id in ids && id !in users
  {
    set id | id in ids && id !in users
  }

  /** The message of a failure, choosing one unknown id when there are several. */
  method Describe(e: GroupError) returns (message: string)
    requires e.UnknownMember? ==> exists id :: id in e.ids
    ensures Reports(e, message)
  {
    match e
    case Message(text) =>
      message := text;
    case UnknownMember(ids) =>
      var id :| id in ids;
      message := MemberNotFound(id);
  }

  /** Bean validation of a group on save: the name is present, not blank and
      1 to 100 characters long; the description, when present, is at most 500. */
  predicate ValidGroupFields(name: Option<string>, description: Option<string>) {
    && name.Some? && !IsBlank(name.value) && 1 <= |name.value| <= 100
    && (description.None? || |description.value| <= 500)
  }

  /** The fields of a group request; any of them may be null. */
  datatype GroupRequest = GroupRequest(
    name: Option<string>,
    description: Option<string>,
    createdById: int,
    memberIds: Option<set<int>>)

  /** `convertToDto`'s result: the group's fields, with the creator and the
      members as ids. */
  datatype GroupDto = GroupDto(
    id: int,
    name: string,
    description: Option<string>,
    createdById: int,
    memberIds: set<int>,
    iconUrl: Option<string>,
    iconName: Option<string>,
    coverImageUrl: Option<string>,
    defaultCurrency: Option<string>,
    groupType: GroupType,
    privacyLevel: PrivacyLevel,
    isActive: Option<bool>,
    isArchived: Option<bool>,
    simplifyDebts: bool,
    autoSettle: bool,
    allowMemberAddExpense: bool,
    allowMemberEditExpense: bool,
    requireApprovalForExpense: bool,
    notificationEnabled: bool)

  /** The DTO carries the group's name, description and all fourteen settings. */
  predicate CopiesDetails(dto: GroupDto, g: Group)
    reads g
  {
    && dto.name == g.name && dto.description == g.description
    && dto.iconUrl == g.iconUrl && dto.iconName == g.iconName && dto.coverImageUrl == g.coverImageUrl
    && dto.defaultCurrency == g.defaultCurrency && dto.groupType == g.groupType
    && dto.privacyLevel == g.privacyLevel && dto.isActive == g.isActive && dto.isArchived == g.isArchived
    && dto.simplifyDebts == g.simplifyDebts && dto.autoSettle == g.autoSettle
    && dto.allowMemberAddExpense == g.allowMemberAddExpense
    && dto.allowMemberEditExpense == g.allowMemberEditExpense
    && dto.requireApprovalForExpense == g.requireApprovalForExpense
    && dto.notificationEnabled == g.notificationEnabled
  }

  /** `convertToDto`. */
  function ToDto(g: Group): (dto: GroupDto)
    requires g.createdBy != null
    reads g
    ensures dto.id == g.id && dto.createdById == g.createdBy.id
    ensures forall m | m in g.members :: m.id in dto.memberIds
    ensures forall id | id in dto.memberIds :: exists m | m in g.members :: m.id == id
    ensures g.createdBy in g.members ==> dto.createdById in dto.memberIds
    ensures CopiesDetails(dto, g)
  {
    GroupDto(g.id, g.name, g.description, g.createdBy.id, set m | m in g.members :: m.id,
             g.iconUrl, g.iconName, g.coverImageUrl, g.defaultCurrency, g.groupType, g.privacyLevel,
             g.isActive, g.isArchived, g.simplifyDebts, g.autoSettle, g.allowMemberAddExpense,
             g.allowMemberEditExpense, g.requireApprovalForExpense, g.notificationEnabled)
  }

  /** The search filter: the lower-cased name, or the lower-cased description
      when there is one, contains the lower-cased query. */
  predicate Matches(g: Group, query: string)
    reads g
  {
    || Contains(ToLower(g.name), ToLower(query))
    || (g.description.Some? && Contains(ToLower(g.description.value), ToLower(query)))
  }

  /** Every string contains the empty query. */
  lemma ContainsEmpty(s: string)
    ensures Contains(s, "")
  {
    assert OccursAt(s, "", 0);
  }

  /** A query occurring in the name with the same letter case also occurs
      case-insensitively, so the group matches. */
  lemma MatchesExactName(g: Group, query: string, i: int)
    requires OccursAt(g.name, query, i)
    ensures Matches(g, query)
  {
    ToLowerPreservesOccurrence(g.name, query, i);
  }

  /** Lower-casing the query first changes nothing. */
  lemma MatchesIgnoresQueryCase(g: Group, query: string)
    ensures Matches(g, query) <==> Matches(g, ToLower(query))
  {
    ToLowerIdempotent(query);
  }

  /** The users the listed ids name (ids without a user name nobody). */
  function ListedUsers(users: map<int, User>, ids: set<int>): (listed: set<User>)
    ensures listed <= users.Values
  {
    set id | id in ids && id in users :: users[id]
  }

  /** The loop over the requested members: each is added to `g` on both
      sides of the link. */
  method AddMembers(g: Group, members: set<User>)
    modifies g, members
    ensures g.members == old(g.members) + members
    ensures g.DetailsUnchanged()
    ensures forall u | u in members :: u.groups == old(u.groups) + {g}
  {
    var rest := members;
    while rest != {}
      invariant rest <= members
      invariant g.members == old(g.members) + (members - rest)
      invariant g.DetailsUnchanged()
      invariant forall u | u in members - rest :: u.groups == old(u.groups) + {g}
      invariant forall u | u in rest :: u.groups == old(u.groups)
      decreases |rest|
    {
      var member :| member in rest;
      g.AddMember(member);
      rest := rest - {member};
    }
  }

  /** The assignments of `updateGroup`: a non-null name or description
      replaces the stored one; a non-null member set replaces every member
      except the creator, and only the group's side of a dropped link is cut.
      Saving stamps `updatedAt` when the name or description changed; a change
      of the member collection alone leaves it. */
  method ApplyGroupUpdate(g: Group, name: Option<string>, description: Option<string>,
                          listed: Option<set<User>>, now: int)
    modifies g, listed.GetOr({})
    ensures g.name == name.GetOr(old(g.name))
    ensures g.description == (if description.Some? then description else old(g.description))
    ensures listed.Some? ==>
              g.members == (set m | m in old(g.members) && m == g.createdBy) + listed.value
    ensures listed.None? ==> g.members == old(g.members)
    ensures forall u | u in listed.GetOr({}) :: u.groups == old(u.groups) + {g}
    ensures g.SettingsUnchanged() && g.isArchived == old(g.isArchived)
    ensures g.updatedAt == (if g.name == old(g.name) && g.description == old(g.description)
                            then old(g.updatedAt) else now)
  {
    var newName := name.GetOr(g.name);
    var newDescription := if description.Some? then description else g.description;
    if newName != g.name || newDescription != g.description {
      g.name, g.description, g.updatedAt := newName, newDescription, now;
    }
    if listed.Some? {
      g.members := set m | m in g.members && m == g.createdBy;
      AddMembers(g, listed.value);
    }
  }

  /** A new group with default settings, linked on both sides to its creator
      and to every listed user. */
  method BuildGroup(id: int, creator: User, name: string, description: Option<string>,
                    listed: set<User>, now: int) returns (g: Group)
    modifies {creator} + listed
    ensures fresh(g) && g.id == id && g.name == name && g.description == description
    ensures g.createdBy == creator && g.HasDefaultSettings()
    ensures g.members == {creator} + listed
    ensures forall u | u in {creator} + listed :: u.groups == old(u.groups) + {g}
  {
    g := new Group(id, name, description, creator, now);
    g.AddMember(creator);
    AddMembers(g, listed);
  }

  class GroupService {
    var users: map<int, User>
    var groups: map<int, Group>
    var nextGroupId: int

    /** Ids match their keys and lie below the next id to issue; every stored
        group has a creator, the creator is a member, and the group passed
        validation. */
    ghost predicate Valid()
      reads this, groups.Values
    {
      && (forall id | id in users :: users[id].id == id)
      && (forall id | id in groups :: groups[id].id == id && id < nextGroupId)
      && (forall g | g in groups.Values ::
            g.createdBy != null && g.createdBy in g.members && ValidGroupFields(Some(g.name), g.description))
    }

    constructor(users: map<int, User>)
      requires forall id | id in users :: users[id].id == id
      ensures Valid()
      ensures this.users == users && groups == map[] && nextGroupId == 1
    {
      this.users := users;
      groups := map[];
      nextGroupId := 1;
    }

    /** `existsByNameAndCreatedBy`: the creator already has a group of this name. */
    predicate NameInUse(name: Option<string>, creator: User)
      reads this, groups.Values
    {
      name.Some? && exists g | g in groups.Values :: g.name == name.value && g.createdBy == creator
    }

    /** Why `createGroup` fails, if it does, in the order the checks happen:
        unknown creator, name already used by that creator, unknown member id,
        then validation of the group on save. */
    function CreateGroupError(req: GroupRequest): (err: Option<GroupError>)
      reads this, groups.Values
      ensures err.Some? && err.value.UnknownMember? ==> exists id :: id in err.value.ids
    {
      if req.createdById !in users then Some(Message(UserNotFound))
      else if NameInUse(req.name, users[req.createdById]) then Some(Message(NameTaken))
      else if req.memberIds.Some? && exists id | id in req.memberIds.value :: id !in users then
        Some(UnknownMember(MissingIds(users, req.memberIds.value)))
      else if !ValidGroupFields(req.name, req.description) then Some(Message(ValidationFailed))
      else None
    }

    /** `createGroup`: a new group with default settings whose members are the
        creator and every listed user, stored under the next id. */
    method CreateGroup(req: GroupRequest, now: int) returns (r: Result<GroupDto>)
      requires Valid()
      modifies this, users.Values
      ensures Valid()
      ensures users == old(users)
      ensures r.Err? <==> old(CreateGroupError(req)).Some?
      ensures r.Err? ==> Reports(old(CreateGroupError(req)).value, r.error)
      ensures r.Err? ==> groups == old(groups) && nextGroupId == old(nextGroupId) && unchanged(users.Values)
      ensures r.Ok? ==> nextGroupId == old(nextGroupId) + 1 && old(nextGroupId) in groups
      ensures r.Ok? ==> fresh(groups[old(nextGroupId)])
      ensures r.Ok? ==> groups == old(groups)[old(nextGroupId) := groups[old(nextGroupId)]]
      ensures r.Ok? ==> var g := groups[old(nextGroupId)];
                Some(g.name) == req.name && g.description == req.description
                && g.createdBy == users[req.createdById] && g.HasDefaultSettings()
      ensures r.Ok? ==> var g := groups[old(nextGroupId)];
                g.members == {users[req.createdById]} + ListedUsers(users, req.memberIds.GetOr({}))
      ensures r.Ok? ==> var g := groups[old(nextGroupId)];
                forall u | u in users.Values :: u.groups == old(u.groups) + (if u in g.members then {g} else {})
      ensures r.Ok? ==> r.value == ToDto(groups[old(nextGroupId)])
    {
      var err := CreateGroupError(req);
      if err.Some? {
        var message := Describe(err.value);
        return Err(message);
      }
      var g := InsertGroup(users[req.createdById], req.name.value, req.description,
                           ListedUsers(users, req.memberIds.GetOr({})), now);
      r := Ok(ToDto(g));
    }

    /** The saving half of `createGroup`, once every check has passed: the
        group is built, linked to its creator and listed members on both
        sides, and stored under the next id. */
    method InsertGroup(creator: User, name: string, description: Option<string>,
                       listed: set<User>, now: int) returns (g: Group)
      requires Valid() && creator in users.Values && listed <= users.Values
      requires ValidGroupFields(Some(name), description)
      modifies this, users.Values
      ensures Valid() && users == old(users) && nextGroupId == old(nextGroupId) + 1
      ensures fresh(g) && groups == old(groups)[old(nextGroupId) := g]
      ensures g.name == name && g.description == description
      ensures g.createdBy == creator && g.HasDefaultSettings()
      ensures g.members == {creator} + listed
      ensures forall u | u in users.Values :: u.groups == old(u.groups) + (if u in g.members then {g} else {})
    {
      g := BuildGroup(nextGroupId, creator, name, description, listed, now);
      groups := groups[nextGroupId := g];
      nextGroupId := nextGroupId + 1;
    }

    /** Why `updateGroup` fails, if it does: unknown group, unknown member id,
        then validation of the updated group on save. */
    function UpdateGroupError(id: int, req: GroupRequest): (err: Option<GroupError>)
      reads this, groups.Values
      ensures err.Some? && err.value.UnknownMember? ==> exists id :: id in err.value.ids
    {
      if id !in groups then Some(Message(GroupNotFound))
      else if req.memberIds.Some? && exists mid | mid in req.memberIds.value :: mid !in users then
        Some(UnknownMember(MissingIds(users, req.memberIds.value)))
      else
        var g := groups[id];
        var name := req.name.GetOr(g.name);
        var description := if req.description.Some? then req.description else g.description;
        if !ValidGroupFields(Some(name), description) then Some(Message(ValidationFailed)) else None
    }

    /** `updateGroup`: a non-null name or description replaces the stored one;
        a non-null member list replaces every member except the creator. The
        users dropped from the group keep the group in their own `groups`, as
        only the owning side of the link is cleared. */
    method UpdateGroup(id: int, req: GroupRequest, now: int) returns (r: Result<GroupDto>)
      requires Valid()
      modifies (if id in groups then {groups[id]} else {}), users.Values
      ensures Valid()
      ensures r.Err? <==> old(UpdateGroupError(id, req)).Some?
      ensures r.Err? ==> Reports(old(UpdateGroupError(id, req)).value, r.error)
      ensures r.Err? && id in groups ==> unchanged(groups[id])
      ensures r.Err? ==> unchanged(users.Values)
      ensures r.Ok? ==> groups[id].name == req.name.GetOr(old(groups[id].name))
      ensures r.Ok? ==> groups[id].description ==
                          (if req.description.Some? then req.description else old(groups[id].description))
      ensures r.Ok? && req.memberIds.Some? ==>
                groups[id].members == {groups[id].createdBy as User} + ListedUsers(users, req.memberIds.value)
      ensures r.Ok? && req.memberIds.None? ==> groups[id].members == old(groups[id].members)
      ensures r.Ok? ==> var g := groups[id];
                && g.SettingsUnchanged() && g.isArchived == old(g.isArchived)
                && g.updatedAt == (if g.name == old(g.name) && g.description == old(g.description)
                                   then old(g.updatedAt) else now)
      ensures r.Ok? ==> forall u | u in users.Values ::
                u.groups == old(u.groups) + (if u in ListedUsers(users, req.memberIds.GetOr({})) then {groups[id]} else {})
      ensures r.Ok? ==> r.value == ToDto(groups[id])
    {
      var err := UpdateGroupError(id, req);
      if err.Some? {
        var message := Describe(err.value);
        return Err(message);
      }
      var g := groups[id];
      assert g in groups.Values;
      var listed := if req.memberIds.Some? then Some(ListedUsers(users, req.memberIds.value)) else None;
      ApplyGroupUpdate(g, req.name, req.description, listed, now);
      r := Ok(ToDto(g));
    }

    /** `addMemberToGroup`: links a known user to a known group. */
    method AddMemberToGroup(groupId: int, userId: int) returns (r: Result<GroupDto>)
      requires Valid()
      modifies (if groupId in groups then {groups[groupId]} else {}),
               (if userId in users then {users[userId]} else {})
      ensures Valid()
      ensures groupId !in groups ==> r == Err(GroupNotFound)
      ensures groupId in groups && userId !in users ==> r == Err(UserNotFound)
      ensures r.Err? ==> unchanged(if groupId in groups then {groups[groupId]} else {})
      ensures r.Ok? <==> groupId in groups && userId in users
      ensures r.Ok? ==>
                var g, u := groups[groupId], users[userId];
                && g.members == old(g.members) + {u} && u.groups == old(u.groups) + {g}
                && g.DetailsUnchanged() && r.value == ToDto(g)
    {
      if groupId !in groups {
        return Err(GroupNotFound);
      }
      if userId !in users {
        return Err(UserNotFound);
      }
      var g := groups[groupId];
      g.AddMember(users[userId]);
      r := Ok(ToDto(g));
    }

    /** `removeMemberFromGroup`: unlinks a known user from a known group, unless
        the user is the group's creator. */
    method RemoveMemberFromGroup(groupId: int, userId: int) returns (r: Result<GroupDto>)
      requires Valid()
      modifies (if groupId in groups then {groups[groupId]} else {}),
               (if userId in users then {users[userId]} else {})
      ensures Valid()
      ensures groupId !in groups ==> r == Err(GroupNotFound)
      ensures groupId in groups && userId !in users ==> r == Err(UserNotFound)
      ensures groupId in groups && userId in users && users[userId] == groups[groupId].createdBy ==>
                r == Err(CannotRemoveCreator)
      ensures r.Err? ==> unchanged(if groupId in groups then {groups[groupId]} else {})
      ensures r.Ok? <==> groupId in groups && userId in users && users[userId] != groups[groupId].createdBy
      ensures r.Ok? ==>
                var g, u := groups[groupId], users[userId];
                && g.members == old(g.members) - {u} && u.groups == old(u.groups) - {g}
                && g.DetailsUnchanged() && r.value == ToDto(g)
    {
      if groupId !in groups {
        return Err(GroupNotFound);
      }
      if userId !in users {
        return Err(UserNotFound);
      }
      var g := groups[groupId];
      var u := users[userId];
      if u == g.createdBy {
        return Err(CannotRemoveCreator);
      }
      g.RemoveMember(u);
      r := Ok(ToDto(g));
    }

    /** `archiveGroup` and `unarchiveGroup`: set the archived flag of a known group. */
    method SetArchived(groupId: int, archived: bool, now: int) returns (r: Outcome)
      requires Valid()
      modifies if groupId in groups then {groups[groupId]} else {}
      ensures Valid()
      ensures r.Done? <==> groupId in groups
      ensures r.Failed? ==> r.error == GroupNotFound
      ensures r.Done? ==>
                var g := groups[groupId];
                && g.isArchived == Some(archived)
                && g.name == old(g.name) && g.description == old(g.description)
                && g.members == old(g.members) && g.SettingsUnchanged()
                && g.updatedAt == (if old(g.isArchived) == Some(archived) then old(g.updatedAt) else now)
    {
      if groupId !in groups {
        return Failed(GroupNotFound);
      }
      var g := groups[groupId];
      if g.isArchived != Some(archived) {
        g.isArchived := Some(archived);
        g.updatedAt := now;
      }
      r := Done;
    }

    /** `isUserMemberOfGroup`: false for an unknown group. */
    predicate IsUserMemberOfGroup(userId: int, groupId: int)
      reads this, groups.Values
      ensures groupId !in groups ==> !IsUserMemberOfGroup(userId, groupId)
      ensures IsUserMemberOfGroup(userId, groupId) ==> GroupMemberCount(groupId) >= 1
      ensures groupId in groups && (exists u | u in groups[groupId].members :: u.id == userId) ==>
                IsUserMemberOfGroup(userId, groupId)
    {
      groupId in groups && exists m | m in groups[groupId].members :: m.id == userId
    }

    /** `isUserAdminOfGroup`: false for an unknown group. */
    predicate IsUserAdminOfGroup(userId: int, groupId: int)
      reads this
      ensures groupId !in groups ==> !IsUserAdminOfGroup(userId, groupId)
    {
      groupId in groups && groups[groupId].createdBy != null && groups[groupId].createdBy.id == userId
    }

    /** `getGroupMemberCount`: 0 for an unknown group. */
    function GroupMemberCount(groupId: int): (n: nat)
      reads this, groups.Values
      ensures groupId in groups ==> n == groups[groupId].MemberCount()
      ensures groupId !in groups ==> n == 0
    {
      if groupId in groups then |groups[groupId].members| else 0
    }

    /** `isGroupActive`: false for an unknown group. */
    predicate IsGroupActive(groupId: int)
      reads this, groups.Values
      ensures IsGroupActive(groupId) ==> groupId in groups && groups[groupId].isArchived != Some(true)
      ensures groupId in groups && groups[groupId].HasDefaultSettings() ==> IsGroupActive(groupId)
    {
      groupId in groups && groups[groupId].IsActiveGroup()
    }

    /** `isGroupArchived`: false for an unknown group or an unset flag. */
    predicate IsGroupArchived(groupId: int)
      reads this, groups.Values
      ensures IsGroupArchived(groupId) ==> groupId in groups && !groups[groupId].IsActiveGroup()
      ensures groupId in groups && groups[groupId].HasDefaultSettings() ==> !IsGroupArchived(groupId)
    {
      groupId in groups && groups[groupId].isArchived == Some(true)
    }

    /** `searchGroupsByUser`: the groups the user belongs to (by id) that match
        the query, as DTOs. */
    function SearchGroupsByUser(userId: int, query: string): (r: set<GroupDto>)
      requires forall g | g in groups.Values :: g.createdBy != null
      reads this, groups.Values
      ensures forall dto | dto in r :: exists g | g in groups.Values ::
                dto == ToDto(g) && (exists m | m in g.members :: m.id == userId) && Matches(g, query)
      ensures forall g | g in groups.Values && (exists m | m in g.members :: m.id == userId) && Matches(g, query) ::
                ToDto(g) in r
    {
      set g | g in groups.Values && (exists m | m in g.members :: m.id == userId) && Matches(g, query) :: ToDto(g)
    }

    /** The search is case-insensitive, and the empty query lists every group
        of the user. */
    lemma SearchFacts(userId: int, query: string)
      requires forall g | g in groups.Values :: g.createdBy != null
      ensures SearchGroupsByUser(userId, query) == SearchGroupsByUser(userId, ToLower(query))
      ensures SearchGroupsByUser(userId, "") ==
                set g | g in groups.Values && (exists m | m in g.members :: m.id == userId) :: ToDto(g)
    {
      forall g | g in groups.Values
        ensures Matches(g, query) <==> Matches(g, ToLower(query))
        ensures Matches(g, "")
      {
        MatchesIgnoresQueryCase(g, query);
        ContainsEmpty(ToLower(g.name));
      }
    }

    /** A group of the user whose name contains the query verbatim is found. */
    lemma SearchFindsName(userId: int, query: string, g: Group, i: int)
      requires forall h | h in groups.Values :: h.createdBy != null
      requires g in groups.Values && (exists m | m in g.members :: m.id == userId)
      requires OccursAt(g.name, query, i)
      ensures ToDto(g) in SearchGroupsByUser(userId, query)
    {
      MatchesExactName(g, query, i);
    }

    /** In a valid table every known group has its creator as a member: the
        admin is a member, and the member count is at least one. */
    lemma CreatorIsMember(userId: int, groupId: int)
      requires Valid()
      ensures IsUserAdminOfGroup(userId, groupId) ==> IsUserMemberOfGroup(userId, groupId)
      ensures groupId in groups ==> GroupMemberCount(groupId) >= 1
      ensures groupId in groups ==> IsUserMemberOfGroup(groups[groupId].createdBy.id, groupId)
    {
      if groupId in groups {
        var g := groups[groupId];
        assert g in groups.Values;
        assert g.createdBy in g.members;
      }
    }

    /** Every query answers no (or 0) for an unknown group. */
    lemma UnknownGroupQueries(userId: int, groupId: int)
      requires groupId !in groups
      ensures !IsUserMemberOfGroup(userId, groupId) && !IsUserAdminOfGroup(userId, groupId)
      ensures GroupMemberCount(groupId) == 0
      ensures !IsGroupActive(groupId) && !IsGroupArchived(groupId)
    {
    }
  }

  /** Archiving is idempotent: a second call succeeds and leaves the group
      archived; an archived group is not active. */
  method ArchiveTwice(s: GroupService, groupId: int, now: int) returns (first: Outcome, second: Outcome)
    requires s.Valid()
    modifies if groupId in s.groups then {s.groups[groupId]} else {}
    ensures s.Valid()
    ensures first == second
    ensures first.Done? ==> s.IsGroupArchived(groupId) && !s.IsGroupActive(groupId)
  {
    first := s.SetArchived(groupId, true, now);
    second := s.SetArchived(groupId, true, now);
  }
}
