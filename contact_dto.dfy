/** `ContactDto`: what the client receives for a contact. A registered contact
    carries the linked user's profile; any other carries the stored name,
    email and phone. */
module ContactDtos {
  import opened Wrappers
  import opened Strings
  import opened Entities
  import opened Contacts
  import UserProfile

  datatype ContactDto = ContactDto(
    id: int,
    userId: int,
    contactUser: Option<UserProfile.UserProfileDto>,
    contactName: Option<string>,
    contactEmail: Option<string>,
    contactPhone: Option<string>,
    status: ContactStatus,
    relationshipType: RelationshipType,
    isBlocked: Option<bool>,
    addedAt: int,
    isRegisteredUser: bool)

  /** `new ContactDto(contact)`. */
  function FromContact(c: Contact): (d: ContactDto)
    reads c, c.contactUser
    ensures d.id == c.id && d.userId == c.user.id
    ensures d.isRegisteredUser <==> c.contactUser != null
    ensures d.isRegisteredUser <==> d.contactUser.Some?
    ensures c.contactUser != null ==> d.contactUser == Some(UserProfile.FromUser(c.contactUser))
    ensures d.isRegisteredUser ==> d.contactName.None? && d.contactEmail.None? && d.contactPhone.None?
    ensures !d.isRegisteredUser ==>
              d.contactName == c.contactName && d.contactEmail == c.contactEmail && d.contactPhone == c.contactPhone
    ensures d.status == c.status && d.relationshipType == c.relationshipType
    ensures d.isBlocked == c.isBlocked && d.addedAt == c.addedAt
  {
    if c.contactUser != null then
      ContactDto(c.id, c.user.id, Some(UserProfile.FromUser(c.contactUser)), None, None, None,
                 c.status, c.relationshipType, c.isBlocked, c.addedAt, true)
    else
      ContactDto(c.id, c.user.id, None, c.contactName, c.contactEmail, c.contactPhone,
                 c.status, c.relationshipType, c.isBlocked, c.addedAt, false)
  }

  /** The profile's full name, else the stored name. */
  function DisplayName(d: ContactDto): (r: Option<string>)
    ensures d.contactUser.Some? ==> r == Some(UserProfile.FullName(d.contactUser.value))
    ensures d.contactUser.None? ==> r == d.contactName
  {
    if d.contactUser.Some? then Some(UserProfile.FullName(d.contactUser.value)) else d.contactName
  }

  /** The profile's email, else the stored email. */
  function DisplayEmail(d: ContactDto): (r: Option<string>)
    ensures d.contactUser.Some? ==> r == d.contactUser.value.email
    ensures d.contactUser.None? ==> r == d.contactEmail
  {
    if d.contactUser.Some? then d.contactUser.value.email else d.contactEmail
  }

  /** The profile's avatar; null for a contact that is not registered. */
  function AvatarUrl(d: ContactDto): (r: Option<string>)
    ensures d.contactUser.None? ==> r.None?
    ensures d.contactUser.Some? ==> r == d.contactUser.value.avatarUrl
  {
    if d.contactUser.Some? then d.contactUser.value.avatarUrl else None
  }

  /** `substring(0, 1)`: the first character; an empty string throws. */
  function FirstLetter(s: string): (r: Result<string>)
    ensures r.Ok? <==> |s| > 0
    ensures r.Ok? ==> r.value == s[..1]
  {
    if |s| == 0 then Err("StringIndexOutOfBoundsException") else Ok(s[..1])
  }

  /** The initials of a stored name: the first letter of the first
      space-separated part, then the first letter of the last part when there
      are at least two parts. */
  function NameInitials(name: string): (r: Result<string>)
    requires |name| > 0
    ensures r.Ok? ==> |r.value| <= 2
    ensures var parts := JavaSplit(name, ' ');
            |parts| >= 2 && r.Ok? ==> r.value == name[..1] + parts[|parts| - 1][..1]
    ensures |JavaSplit(name, ' ')| == 1 && r.Ok? ==> r.value == name[..1]
  {
    var parts := JavaSplit(name, ' ');
    JavaSplitShape(name, ' ');
    var first := if |parts| > 0 then FirstLetter(parts[0]) else Ok("");
    var last := if |parts| > 1 then FirstLetter(parts[|parts| - 1]) else Ok("");
    if first.Err? then first
    else if last.Err? then last
    else Ok(first.value + last.value)
  }

  /** `getInitials`: the profile's initials, else those of a non-empty stored
      name, else "". */
  function Initials(d: ContactDto): (r: Result<string>)
    ensures d.contactUser.Some? ==> r == UserProfile.Initials(d.contactUser.value)
    ensures d.contactUser.None? && (d.contactName.None? || d.contactName == Some("")) ==> r == Ok("")
    ensures d.contactUser.None? && d.contactName.Some? && |d.contactName.value| > 0 && d.contactName.value[0] != ' ' ==>
              r.Ok? && 1 <= |r.value| <= 2 && r.value[..1] == d.contactName.value[..1]
    ensures d.contactUser.None? && d.contactName.Some? && |d.contactName.value| > 0 ==>
              var name := d.contactName.value;
              var parts := JavaSplit(name, ' ');
              && (|parts| >= 2 && r.Ok? ==> r.value == name[..1] + parts[|parts| - 1][..1])
              && (|parts| == 1 && r.Ok? ==> r.value == name[..1])
  {
    if d.contactUser.Some? then UserProfile.Initials(d.contactUser.value)
    else if d.contactName.Some? && |d.contactName.value| > 0 then
      NameInitialsFailure(d.contactName.value);
      NameInitials(d.contactName.value)
    else Ok("")
  }

  /** `isBlocked()`: an unset flag counts as not blocked. */
  predicate IsBlocked(d: ContactDto)
    ensures d.isBlocked.None? ==> !IsBlocked(d)
    ensures IsBlocked(d) ==> d.isBlocked.value
  {
    d.isBlocked == Some(true)
  }

  predicate IsPending(d: ContactDto)
    ensures IsPending(d) ==> !IsAccepted(d)
  {
    d.status == PENDING
  }

  predicate IsAccepted(d: ContactDto)
    ensures IsAccepted(d) ==> d.status != PENDING && d.status != BLOCKED && d.status != DECLINED
  {
    d.status == ACCEPTED
  }

  /** The initials of a stored name fail exactly when the name starts with a
      space and is not all spaces: the first part is then the empty string.
      A name of spaces only has no parts and no initials. */
  lemma NameInitialsFailure(name: string)
    requires |name| > 0
    ensures NameInitials(name).Err? <==> name[0] == ' ' && exists i | 0 <= i < |name| :: name[i] != ' '
    ensures (forall i | 0 <= i < |name| :: name[i] == ' ') ==> NameInitials(name) == Ok("")
    ensures name[0] != ' ' ==>
              NameInitials(name).Ok? && |NameInitials(name).value| >= 1 && NameInitials(name).value[..1] == name[..1]
  {
    var parts := JavaSplit(name, ' ');
    JavaSplitShape(name, ' ');
    assert parts == DropTrailingEmpty(SplitOn(name, ' '));
    if |parts| == 0 {
      assert NameInitials(name) == Ok("");
    } else {
      assert exists i | 0 <= i < |name| :: name[i] != ' ';
      assert parts[|parts| - 1] != "";
      assert |parts| > 1 ==> FirstLetter(parts[|parts| - 1]).Ok?;
      if name[0] == ' ' {
        assert FirstLetter(parts[0]).Err?;
      } else {
        assert parts[0] == SplitOn(name, ' ')[0];
        assert SplitOn(name, ' ')[0][0] == name[0];
        assert parts[0][..1] == [name[0]] == name[..1];
        assert FirstLetter(parts[0]) == Ok(name[..1]);
        assert NameInitials(name).value[..1] == name[..1];
      }
    }
  }

  /** The DTO and the entity agree on the display name and email, the blocked
      flag and the registration flag. */
  lemma DtoAgreesWithContact(c: Contact)
    ensures DisplayName(FromContact(c)) == c.DisplayName()
    ensures DisplayEmail(FromContact(c)) == c.DisplayEmail()
    ensures IsBlocked(FromContact(c)) == c.IsBlockedContact()
    ensures FromContact(c).isRegisteredUser == c.IsRegisteredUser()
    ensures IsPending(FromContact(c)) == c.IsPending() && IsAccepted(FromContact(c)) == c.IsAccepted()
  {
    if c.contactUser != null {
      UserProfile.ProfileAgreesWithUser(c.contactUser);
    }
  }

  /** A registered contact's initials are the linked user's; they fail only
      for an empty first or last name. */
  lemma RegisteredInitials(c: Contact)
    requires c.contactUser != null
    ensures Initials(FromContact(c)) == UserProfile.Initials(UserProfile.FromUser(c.contactUser))
    ensures Initials(FromContact(c)).Err? <==> c.contactUser.firstName == Some("") || c.contactUser.lastName == Some("")
  {
  }
}
