/** The persistent `User` and `Group` entities. A group's members and a user's
    groups are the two sides of one many-to-many link, so both classes live in
    one module. Ids are assigned by the repository when the entity is first
    saved and never change, so they are constants here. */
module Entities {
  import opened Wrappers

  datatype GroupType = GENERAL | TRIP | HOME | COUPLE | PROJECT | EVENT | OTHER

  datatype PrivacyLevel = PRIVATE | INVITE_ONLY | PUBLIC

  /** A nullable string as Java string concatenation renders it. */
  function Render(s: Option<string>): (r: string)
    ensures s.None? ==> r == "null"
    ensures s.Some? ==> r == s.value
  {
    match s
    case None => "null"
    case Some(v) => v
  }

  const DefaultIconName: string := "fas fa-users"
  const DefaultCurrency: string := "USD"

  class User {
    const id: int
    var username: string
    var email: string
    /** The encoded password; the raw password is never stored. */
    var password: string
    var firstName: Option<string>
    var lastName: Option<string>
    var avatarUrl: Option<string>
    var phone: Option<string>
    var defaultCurrency: Option<string>
    var timezone: Option<string>
    var language: Option<string>
    var emailNotifications: Option<bool>
    var pushNotifications: Option<bool>
    var expenseNotifications: Option<bool>
    var settlementNotifications: Option<bool>
    var isVerified: Option<bool>
    var twoFactorEnabled: Option<bool>
    var lastLogin: Option<int>
    var createdAt: Option<int>
    /** The groups this user belongs to (the inverse side of `Group.members`). */
    var groups: set<Group>

    /** A user as the service builds it: the account fields set as given. The
        entity's own starting profile values (field initializers, creation
        hooks) are not known here, so every profile field starts unset. */
    constructor(id: int, username: string, email: string, password: string,
                firstName: Option<string>, lastName: Option<string>)
      ensures this.id == id && this.username == username && this.email == email
      ensures this.password == password
      ensures this.firstName == firstName && this.lastName == lastName
      ensures avatarUrl.None? && phone.None? && defaultCurrency.None?
      ensures timezone.None? && language.None?
      ensures emailNotifications.None? && pushNotifications.None?
      ensures expenseNotifications.None? && settlementNotifications.None?
      ensures isVerified.None? && twoFactorEnabled.None?
      ensures lastLogin.None? && createdAt.None?
      ensures groups == {}
    {
      this.id := id;
      this.username := username;
      this.email := email;
      this.password := password;
      this.firstName := firstName;
      this.lastName := lastName;
      avatarUrl := None;
      phone := None;
      defaultCurrency := None;
      timezone := None;
      language := None;
      emailNotifications := None;
      pushNotifications := None;
      expenseNotifications := None;
      settlementNotifications := None;
      isVerified := None;
      twoFactorEnabled := None;
      lastLogin := None;
      createdAt := None;
      groups := {};
    }

    /** The profile fields no account operation edits keep their values:
        avatar, phone, currency, time zone, language, the notification and
        security flags, and the login and creation times. */
    twostate predicate ProfileUnchanged()
      reads this
    {
      && avatarUrl == old(avatarUrl) && phone == old(phone)
      && defaultCurrency == old(defaultCurrency) && timezone == old(timezone) && language == old(language)
      && emailNotifications == old(emailNotifications) && pushNotifications == old(pushNotifications)
      && expenseNotifications == old(expenseNotifications)
      && settlementNotifications == old(settlementNotifications)
      && isVerified == old(isVerified) && twoFactorEnabled == old(twoFactorEnabled)
      && lastLogin == old(lastLogin) && createdAt == old(createdAt)
    }

    /** First and last name joined by a space; a missing part shows as "null". */
    function FullName(): (r: string)
      reads this
      ensures |r| >= 1 && ' ' in r
      ensures |r| == |Render(firstName)| + 1 + |Render(lastName)|
      ensures r[..|Render(firstName)|] == Render(firstName) && r[|Render(firstName)|] == ' '
      ensures r[|Render(firstName)| + 1..] == Render(lastName)
    {
      var r := Render(firstName) + " " + Render(lastName);
      assert r[|Render(firstName)|] == ' ';
      r
    }
  }

  class Group {
    const id: int
    var name: string
    var description: Option<string>
    var iconUrl: Option<string>
    var iconName: Option<string>
    var coverImageUrl: Option<string>
    var defaultCurrency: Option<string>
    var groupType: GroupType
    var privacyLevel: PrivacyLevel
    var isActive: Option<bool>
    var isArchived: Option<bool>
    var simplifyDebts: bool
    var autoSettle: bool
    var allowMemberAddExpense: bool
    var allowMemberEditExpense: bool
    var requireApprovalForExpense: bool
    var notificationEnabled: bool
    /** The creator; null only for a group built by the no-argument constructor. */
    const createdBy: User?
    var members: set<User>
    var createdAt: int
    var updatedAt: int

    /** `new Group(name, description, createdBy)` with every field default. */
    constructor(id: int, name: string, description: Option<string>, createdBy: User, now: int)
      ensures this.id == id && this.name == name && this.description == description
      ensures this.createdBy == createdBy
      ensures HasDefaultSettings()
      ensures members == {}
      ensures createdAt == now && updatedAt == now
    {
      this.id := id;
      this.name := name;
      this.description := description;
      this.createdBy := createdBy;
      iconUrl := None;
      iconName := Some(DefaultIconName);
      coverImageUrl := None;
      defaultCurrency := Some(DefaultCurrency);
      groupType := GENERAL;
      privacyLevel := PRIVATE;
      isActive := Some(true);
      isArchived := Some(false);
      simplifyDebts := true;
      autoSettle := false;
      allowMemberAddExpense := true;
      allowMemberEditExpense := false;
      requireApprovalForExpense := false;
      notificationEnabled := true;
      members := {};
      createdAt := now;
      updatedAt := now;
    }

    /** The field defaults a freshly constructed group has. */
    predicate HasDefaultSettings()
      reads this
    {
      && iconUrl.None? && iconName == Some(DefaultIconName) && coverImageUrl.None?
      && defaultCurrency == Some(DefaultCurrency)
      && groupType == GENERAL && privacyLevel == PRIVATE
      && isActive == Some(true) && isArchived == Some(false)
      && simplifyDebts && !autoSettle
      && allowMemberAddExpense && !allowMemberEditExpense
      && !requireApprovalForExpense && notificationEnabled
    }

    /** The settings no core operation edits keep their values: icons, cover,
        currency, type, privacy, the active flag, the debt and permission
        flags, and the creation time. */
    twostate predicate SettingsUnchanged()
      reads this
    {
      && iconUrl == old(iconUrl) && iconName == old(iconName)
      && coverImageUrl == old(coverImageUrl) && defaultCurrency == old(defaultCurrency)
      && groupType == old(groupType) && privacyLevel == old(privacyLevel)
      && isActive == old(isActive)
      && simplifyDebts == old(simplifyDebts) && autoSettle == old(autoSettle)
      && allowMemberAddExpense == old(allowMemberAddExpense)
      && allowMemberEditExpense == old(allowMemberEditExpense)
      && requireApprovalForExpense == old(requireApprovalForExpense)
      && notificationEnabled == old(notificationEnabled)
      && createdAt == old(createdAt)
    }

    /** Every field other than `members` keeps its value. */
    twostate predicate DetailsUnchanged()
      reads this
    {
      && name == old(name) && description == old(description)
      && isArchived == old(isArchived) && updatedAt == old(updatedAt)
      && SettingsUnchanged()
    }

    /** Links `user` to this group on both sides; the links are sets, so
        linking twice is the same as linking once. */
    method AddMember(user: User)
      modifies this, user
      ensures members == old(members) + {user}
      ensures user.groups == old(user.groups) + {this}
      ensures DetailsUnchanged()
      ensures user.username == old(user.username) && user.email == old(user.email)
      ensures user.firstName == old(user.firstName) && user.lastName == old(user.lastName)
      ensures user.password == old(user.password)
    {
      members := members + {user};
      user.groups := user.groups + {this};
    }

    /** Removes the link between `user` and this group on both sides. */
    method RemoveMember(user: User)
      modifies this, user
      ensures members == old(members) - {user}
      ensures user.groups == old(user.groups) - {this}
      ensures DetailsUnchanged()
      ensures user.username == old(user.username) && user.email == old(user.email)
      ensures user.firstName == old(user.firstName) && user.lastName == old(user.lastName)
      ensures user.password == old(user.password)
    {
      members := members - {user};
      user.groups := user.groups - {this};
    }

    /** The creator is non-null and has the user's id. */
    predicate IsAdmin(user: User)
      ensures createdBy == user ==> IsAdmin(user)
      ensures createdBy == null ==> !IsAdmin(user)
    {
      createdBy != null && createdBy.id == user.id
    }

    /** Some member has the user's id (ids, not object identity, are compared). */
    predicate IsMember(user: User)
      reads this
      ensures user in members ==> IsMember(user)
      ensures members == {} ==> !IsMember(user)
    {
      exists m | m in members :: m.id == user.id
    }

    function MemberCount(): (n: nat)
      reads this
      ensures n == 0 <==> members == {}
      ensures forall u | u in members :: n >= 1
    {
      |members|
    }

    /** The icon URL when set, otherwise the icon name. */
    function DisplayIcon(): (icon: Option<string>)
      reads this
      ensures icon.None? <==> iconUrl.None? && iconName.None?
      ensures iconUrl.Some? ==> icon == iconUrl
      ensures iconUrl.None? ==> icon == iconName
    {
      if iconUrl.Some? then iconUrl else iconName
    }

    /** Members may add expenses when the group allows it; the creator, once a
        member, always may. */
    predicate CanUserAddExpense(user: User)
      reads this
      ensures CanUserAddExpense(user) ==> IsMember(user)
      ensures IsMember(user) && createdBy == user ==> CanUserAddExpense(user)
      ensures IsMember(user) && !IsAdmin(user) ==> (CanUserAddExpense(user) <==> allowMemberAddExpense)
    {
      IsMember(user) && (allowMemberAddExpense || IsAdmin(user))
    }

    /** Members may edit expenses when the group allows it; the creator, once a
        member, always may. */
    predicate CanUserEditExpense(user: User)
      reads this
      ensures CanUserEditExpense(user) ==> IsMember(user)
      ensures IsMember(user) && createdBy == user ==> CanUserEditExpense(user)
      ensures IsMember(user) && !IsAdmin(user) ==> (CanUserEditExpense(user) <==> allowMemberEditExpense)
    {
      IsMember(user) && (allowMemberEditExpense || IsAdmin(user))
    }

    /** Active means flagged active and not flagged archived; an unset flag is
        inactive for `isActive` and not archived for `isArchived`. */
    predicate IsActiveGroup()
      reads this
      ensures IsActiveGroup() ==> isArchived != Some(true)
      ensures isActive == Some(true) && isArchived.None? ==> IsActiveGroup()
      ensures HasDefaultSettings() ==> IsActiveGroup()
    {
      isActive == Some(true) && isArchived != Some(true)
    }
  }

  /** Adding the same member twice leaves both sides of the link as after one addition. */
  method AddMemberTwice(g: Group, u: User)
    modifies g, u
    ensures g.members == old(g.members) + {u}
    ensures u.groups == old(u.groups) + {g}
  {
    g.AddMember(u);
    var afterOnce := g.members;
    g.AddMember(u);
    assert g.members == afterOnce;
  }

  /** Removing a member undoes adding one that was not there before. */
  method AddThenRemoveMember(g: Group, u: User)
    requires u !in g.members && g !in u.groups
    modifies g, u
    ensures g.members == old(g.members)
    ensures u.groups == old(u.groups)
  {
    g.AddMember(u);
    g.RemoveMember(u);
  }

  /** A member object is a member by id; a user whose id no member has is not. */
  lemma IsMemberById(g: Group, u: User)
    ensures u in g.members ==> g.IsMember(u)
    ensures (forall m | m in g.members :: m.id != u.id) ==> !g.IsMember(u)
  {
  }

  /** Membership and the permission flags decide who may add or edit expenses:
      the creator, once a member, may always do both, whatever the flags say; a
      non-member may do neither. */
  lemma PermissionsOfCreator(g: Group, u: User)
    requires g.createdBy == u && u in g.members
    ensures g.IsAdmin(u) && g.CanUserAddExpense(u) && g.CanUserEditExpense(u)
  {
  }

  lemma PermissionsNeedMembership(g: Group, u: User)
    ensures g.CanUserAddExpense(u) ==> g.IsMember(u)
    ensures g.CanUserEditExpense(u) ==> g.IsMember(u)
    ensures g.IsMember(u) && g.allowMemberAddExpense ==> g.CanUserAddExpense(u)
    ensures g.IsMember(u) && !g.IsAdmin(u) ==> (g.CanUserEditExpense(u) <==> g.allowMemberEditExpense)
  {
  }

  /** With the default settings a member who is not the creator may add but not edit expenses. */
  lemma DefaultPermissions(g: Group, u: User)
    requires g.HasDefaultSettings() && g.IsMember(u) && !g.IsAdmin(u)
    ensures g.CanUserAddExpense(u) && !g.CanUserEditExpense(u)
  {
  }

  /** A group with default settings is active and shows the default icon name. */
  lemma DefaultGroupIsActive(g: Group)
    requires g.HasDefaultSettings()
    ensures g.IsActiveGroup()
    ensures g.DisplayIcon() == Some(DefaultIconName)
  {
  }

  /** `isActive()` is false whenever the group is archived or not flagged active. */
  lemma ActiveNeedsBothFlags(g: Group)
    ensures g.isArchived == Some(true) ==> !g.IsActiveGroup()
    ensures g.isActive != Some(true) ==> !g.IsActiveGroup()
    ensures g.isActive == Some(true) && g.isArchived.None? ==> g.IsActiveGroup()
  {
  }

  /** The display icon is the URL when one is set and the icon name otherwise. */
  lemma DisplayIconPrefersUrl(g: Group)
    ensures g.iconUrl.Some? ==> g.DisplayIcon() == g.iconUrl
    ensures g.iconUrl.None? ==> g.DisplayIcon() == g.iconName
  {
  }
}
