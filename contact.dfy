/** The persistent `Contact` entity: a user's link either to another
    registered user or to a name and email that belong to nobody registered,
    with a status, a relationship type and a blocked flag. */
module Contacts {
  import opened Wrappers
  import opened Entities

  datatype ContactStatus = PENDING | ACCEPTED | DECLINED | BLOCKED

  datatype RelationshipType = FRIEND | FAMILY | COLLEAGUE | ROOMMATE | OTHER

  class Contact {
    const id: int
    /** The owner of the contact entry. */
    const user: User
    /** The linked registered user, or null for a contact known only by email. */
    const contactUser: User?
    const contactName: Option<string>
    const contactEmail: Option<string>
    const contactPhone: Option<string>
    var status: ContactStatus
    var relationshipType: RelationshipType
    var isBlocked: Option<bool>
    const addedAt: int
    /** Set on creation and again whenever a save changes a field. */
    var updatedAt: int

    /** The field defaults: pending, a friend, not blocked. */
    predicate HasDefaults()
      reads this
    {
      status == PENDING && relationshipType == FRIEND && isBlocked == Some(false)
    }

    /** `new Contact(user, contactUser)`: a link to a registered user. */
    constructor Linked(id: int, user: User, contactUser: User, now: int)
      ensures this.id == id && this.user == user && this.contactUser == contactUser
      ensures contactName.None? && contactEmail.None? && contactPhone.None?
      ensures HasDefaults()
      ensures addedAt == now && updatedAt == now
    {
      this.id := id;
      this.user := user;
      this.contactUser := contactUser;
      contactName := None;
      contactEmail := None;
      contactPhone := None;
      status := PENDING;
      relationshipType := FRIEND;
      isBlocked := Some(false);
      addedAt := now;
      updatedAt := now;
    }

    /** `new Contact(user, contactName, contactEmail)`: a contact known only by
        name and email. */
    constructor Unlinked(id: int, user: User, contactName: Option<string>, contactEmail: Option<string>, now: int)
      ensures this.id == id && this.user == user && contactUser == null
      ensures this.contactName == contactName && this.contactEmail == contactEmail && contactPhone.None?
      ensures HasDefaults()
      ensures addedAt == now && updatedAt == now
    {
      this.id := id;
      this.user := user;
      contactUser := null;
      this.contactName := contactName;
      this.contactEmail := contactEmail;
      contactPhone := None;
      status := PENDING;
      relationshipType := FRIEND;
      isBlocked := Some(false);
      addedAt := now;
      updatedAt := now;
    }

    /** `isRegisteredUser`: the contact is linked to a registered user. */
    predicate IsRegisteredUser()
      reads contactUser
      ensures contactUser != null ==> IsRegisteredUser() && DisplayEmail() == Some(contactUser.email)
      ensures !IsRegisteredUser() ==> DisplayName() == contactName && DisplayEmail() == contactEmail
    {
      contactUser != null
    }

    /** The linked user's full name, else the stored name. */
    function DisplayName(): (r: Option<string>)
      reads contactUser
      ensures contactUser != null ==> r.Some? && ' ' in r.value
      ensures contactUser == null ==> r == contactName
    {
      if contactUser != null then Some(contactUser.FullName()) else contactName
    }

    /** The linked user's email, else the stored email. */
    function DisplayEmail(): (r: Option<string>)
      reads contactUser
      ensures contactUser != null ==> r == Some(contactUser.email)
      ensures contactUser == null ==> r == contactEmail
    {
      if contactUser != null then Some(contactUser.email) else contactEmail
    }

    predicate IsPending()
      reads this
      ensures IsPending() ==> !IsAccepted()
    {
      status == PENDING
    }

    predicate IsAccepted()
      reads this
      ensures IsAccepted() ==> status != PENDING && status != BLOCKED && status != DECLINED
    {
      status == ACCEPTED
    }

    /** `isBlocked()`: an unset flag counts as not blocked. */
    predicate IsBlockedContact()
      reads this
      ensures isBlocked.None? ==> !IsBlockedContact()
      ensures IsBlockedContact() ==> isBlocked.value
    {
      isBlocked == Some(true)
    }
  }

  /** A new contact, of either kind, is pending, not accepted and not blocked,
      and exactly the linked kind is a registered user. */
  method NewContactIsPending(id: int, owner: User, other: User, name: Option<string>, email: Option<string>, now: int)
      returns (linked: Contact, unlinked: Contact)
    ensures linked.IsPending() && !linked.IsAccepted() && !linked.IsBlockedContact()
    ensures unlinked.IsPending() && !unlinked.IsAccepted() && !unlinked.IsBlockedContact()
    ensures linked.IsRegisteredUser() && !unlinked.IsRegisteredUser()
    ensures linked.DisplayEmail() == Some(other.email) && unlinked.DisplayEmail() == email
    ensures unlinked.DisplayName() == name
  {
    linked := new Contact.Linked(id, owner, other, now);
    unlinked := new Contact.Unlinked(id, owner, name, email, now);
  }

  /** The status tests are exclusive, and only an unset or false flag is not blocked. */
  lemma StatusTests(c: Contact)
    ensures !(c.IsPending() && c.IsAccepted())
    ensures c.IsBlockedContact() <==> c.isBlocked.Some? && c.isBlocked.value
  {
  }
}
