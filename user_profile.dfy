/** `UserProfileDto`: a copy of a user's profile fields, with the name helpers
    the client shows. Any field of a DTO may be null. */
module UserProfile {
  import opened Wrappers
  import opened Entities

  datatype UserProfileDto = UserProfileDto(
    id: int,
    username: Option<string>,
    email: Option<string>,
    firstName: Option<string>,
    lastName: Option<string>,
    avatarUrl: Option<string>,
    phone: Option<string>,
    defaultCurrency: Option<string>,
    timezone: Option<string>,
    language: Option<string>,
    emailNotifications: Option<bool>,
    pushNotifications: Option<bool>,
    expenseNotifications: Option<bool>,
    settlementNotifications: Option<bool>,
    isVerified: Option<bool>,
    twoFactorEnabled: Option<bool>,
    lastLogin: Option<int>,
    createdAt: Option<int>)

  /** The copy constructor `new UserProfileDto(user)`. */
  function FromUser(u: User): (d: UserProfileDto)
    reads u
    ensures d.id == u.id && d.username == Some(u.username) && d.email == Some(u.email)
    ensures d.firstName == u.firstName && d.lastName == u.lastName
    ensures d.avatarUrl == u.avatarUrl && d.phone == u.phone
    ensures d.defaultCurrency == u.defaultCurrency && d.timezone == u.timezone && d.language == u.language
    ensures d.emailNotifications == u.emailNotifications && d.pushNotifications == u.pushNotifications
    ensures d.expenseNotifications == u.expenseNotifications
    ensures d.settlementNotifications == u.settlementNotifications
    ensures d.isVerified == u.isVerified && d.twoFactorEnabled == u.twoFactorEnabled
    ensures d.lastLogin == u.lastLogin && d.createdAt == u.createdAt
  {
    UserProfileDto(u.id, Some(u.username), Some(u.email), u.firstName, u.lastName, u.avatarUrl, u.phone,
                   u.defaultCurrency, u.timezone, u.language, u.emailNotifications, u.pushNotifications,
                   u.expenseNotifications, u.settlementNotifications, u.isVerified, u.twoFactorEnabled,
                   u.lastLogin, u.createdAt)
  }

  /** `getFullName`: first and last name around one space, a null part
      rendered as "null". */
  function FullName(d: UserProfileDto): (r: string)
    ensures |r| == |Render(d.firstName)| + 1 + |Render(d.lastName)|
    ensures r[|Render(d.firstName)|] == ' '
    ensures r[..|Render(d.firstName)|] == Render(d.firstName)
    ensures r[|Render(d.firstName)| + 1..] == Render(d.lastName)
  {
    Render(d.firstName) + " " + Render(d.lastName)
  }

  /** `getDisplayName`: the username when there is one, else the full name. */
  function DisplayName(d: UserProfileDto): (r: string)
    ensures d.username.Some? ==> r == d.username.value
    ensures d.username.None? ==> r == FullName(d) && ' ' in r
  {
    if d.username.Some? then d.username.value
    else
      var full := FullName(d);
      assert full[|Render(d.firstName)|] == ' ';
      full
  }

  /** `getInitials`: the first character of each name part that is not null;
      `substring(0, 1)` of an empty part throws. */
  function Initials(d: UserProfileDto): (r: Result<string>)
    ensures r.Ok? <==> d.firstName != Some("") && d.lastName != Some("")
    ensures r.Ok? ==> |r.value| == (if d.firstName.Some? then 1 else 0) + (if d.lastName.Some? then 1 else 0)
    ensures r.Ok? && d.firstName.Some? ==> r.value[0] == d.firstName.value[0]
    ensures r.Ok? && d.lastName.Some? ==> r.value[|r.value| - 1] == d.lastName.value[0]
  {
    if d.firstName == Some("") || d.lastName == Some("") then Err("StringIndexOutOfBoundsException")
    else
      var first := if d.firstName.Some? then [d.firstName.value[0]] else "";
      var last := if d.lastName.Some? then [d.lastName.value[0]] else "";
      Ok(first + last)
  }

  /** The DTO shows the same full name as the user it copies, and its display
      name is the username. */
  lemma ProfileAgreesWithUser(u: User)
    ensures FullName(FromUser(u)) == u.FullName()
    ensures DisplayName(FromUser(u)) == u.username
  {
  }
}
