/** `ContactService`: adding contacts by user id or by email, the invitation
    state machine (accept, decline), blocking, unblocking, removing and
    re-labelling contacts, over a contact table keyed by id. Each operation
    checks everything first and either fails with no change or succeeds.

    The repository looks contacts up by (owner id, linked user id) and by
    (owner id, stored email); such a lookup fails when more than one row
    matches. `Consistent` says no owner links to one user twice and nobody
    links to themselves, so that such lookups never fail. */
module ContactService {
  import opened Wrappers
  import opened Entities
  import opened Contacts
  import opened ContactDtos

  const UserNotFound: string := "User not found"
  const ContactUserNotFound: string := "Contact user not found"
  const ContactExists: string := "Contact already exists"
  const EmailExists: string := "Contact with this email already exists"
  const SelfContact: string := "Cannot add yourself as a contact"
  const ContactNotFound: string := "Contact not found"
  const InvalidInvitation: string := "Invalid invitation"
  const Unauthorized: string := "Unauthorized"
  const NullValue: string := "NullPointerException"
  const NonUnique: string := "Query did not return a unique result"

  /** The contact is owned by `userId` and linked to the user `contactUserId`. */
  predicate Links(c: Contact, userId: int, contactUserId: int) {
    c.user.id == userId && c.contactUser != null && c.contactUser.id == contactUserId
  }

  /** `findByUserAndContactUser`: the ids of the contacts linking the two users. */
  function PairIds(contacts: map<int, Contact>, userId: int, contactUserId: int): set<int> {
    set id | id in contacts && Links(contacts[id], userId, contactUserId)
  }

  /** `findByUserAndContactEmail`: the ids of the owner's contacts stored with this email. */
  function EmailIds(contacts: map<int, Contact>, userId: int, email: string): set<int> {
    set id | id in contacts && contacts[id].user.id == userId && contacts[id].contactEmail == Some(email)
  }

  /** No owner links to the same user twice, and nobody links to themselves. */
  predicate Consistent(contacts: map<int, Contact>) {
    && (forall a, b | a in contacts && b in contacts && contacts[a].contactUser != null
          && Links(contacts[b], contacts[a].user.id, contacts[a].contactUser.id) :: a == b)
    && (forall id | id in contacts && contacts[id].contactUser != null ::
          contacts[id].contactUser.id != contacts[id].user.id)
  }

  /** Without duplicate links, a pair lookup finds at most one contact. */
  lemma ConsistentLookup(contacts: map<int, Contact>, userId: int, contactUserId: int, id: int)
    requires Consistent(contacts) && id in PairIds(contacts, userId, contactUserId)
    ensures PairIds(contacts, userId, contactUserId) == {id}
  {
    forall other | other in PairIds(contacts, userId, contactUserId)
      ensures other == id
    {
      assert Links(contacts[other], contacts[id].user.id, contacts[id].contactUser.id);
    }
  }

  /** Storing a new contact adds its id to the lookups it matches and to no other. */
  lemma InsertLookups(contacts: map<int, Contact>, id: int, c: Contact, userId: int, contactUserId: int, email: string)
    requires id !in contacts
    ensures PairIds(contacts[id := c], userId, contactUserId)
            == PairIds(contacts, userId, contactUserId) + (if Links(c, userId, contactUserId) then {id} else {})
    ensures EmailIds(contacts[id := c], userId, email)
            == EmailIds(contacts, userId, email)
               + (if c.user.id == userId && c.contactEmail == Some(email) then {id} else {})
  {
  }

  /** Storing a contact that links no pair already linked, and not its own
      owner, keeps the table consistent. */
  lemma InsertConsistent(contacts: map<int, Contact>, id: int, c: Contact)
    requires Consistent(contacts) && id !in contacts
    requires c.contactUser != null ==>
               PairIds(contacts, c.user.id, c.contactUser.id) == {} && c.contactUser.id != c.user.id
    ensures Consistent(contacts[id := c])
  {
    var t := contacts[id := c];
    if c.contactUser != null {
      assert forall x | x in contacts :: !Links(contacts[x], c.user.id, c.contactUser.id) by {
        forall x | x in contacts
          ensures !Links(contacts[x], c.user.id, c.contactUser.id)
        {
          assert x !in PairIds(contacts, c.user.id, c.contactUser.id);
        }
      }
    }
    forall a, b | a in t && b in t && t[a].contactUser != null && Links(t[b], t[a].user.id, t[a].contactUser.id)
      ensures a == b
    {
      if a != id && b != id {
        assert Links(contacts[b], contacts[a].user.id, contacts[a].contactUser.id);
      }
    }
  }

  /** Deleting contacts keeps the table consistent. */
  lemma RemoveConsistent(contacts: map<int, Contact>, gone: set<int>)
    requires Consistent(contacts)
    ensures Consistent(contacts - gone)
  {
  }

  class ContactService {
    var users: map<int, User>
    var contacts: map<int, Contact>
    var nextContactId: int

    /** Ids match their keys and lie below the next id to issue; no two users
        share an email (registration and profile updates refuse duplicates). */
    ghost predicate Valid()
      reads this, users.Values
    {
      && (forall id | id in users :: users[id].id == id)
      && (forall a, b | a in users && b in users && users[a].email == users[b].email :: a == b)
      && (forall id | id in contacts :: contacts[id].id == id && id < nextContactId)
    }

    constructor(users: map<int, User>)
      requires forall id | id in users :: users[id].id == id
      requires forall a, b | a in users && b in users && users[a].email == users[b].email :: a == b
      ensures Valid() && Consistent(contacts)
      ensures this.users == users && contacts == map[] && nextContactId == 1
    {
      this.users := users;
      contacts := map[];
      nextContactId := 1;
    }

    /** `contactRepository.save` of a new contact: it gets the next id. The
        table stays consistent when the contact links no pair already linked
        and does not link its owner to themselves. */
    method Store(c: Contact)
      requires Valid() && c.id == nextContactId
      modifies this
      ensures Valid()
      ensures users == old(users) && nextContactId == old(nextContactId) + 1
      ensures contacts == old(contacts)[old(nextContactId) := c]
      ensures old(Consistent(contacts))
              && (c.contactUser != null ==>
                    PairIds(old(contacts), c.user.id, c.contactUser.id) == {} && c.contactUser.id != c.user.id)
              ==> Consistent(contacts)
    {
      if Consistent(contacts) && (c.contactUser != null ==>
           PairIds(contacts, c.user.id, c.contactUser.id) == {} && c.contactUser.id != c.user.id) {
        InsertConsistent(contacts, nextContactId, c);
      }
      contacts := contacts[nextContactId := c];
      nextContactId := nextContactId + 1;
    }

    /** Why `addContactByUserId` fails, if it does: unknown owner, unknown
        contact user, an existing link (a duplicated one breaks the lookup
        itself), then a self-link. */
    function AddByUserIdError(userId: int, contactUserId: int): Option<string>
      reads this
    {
      if userId !in users then Some(UserNotFound)
      else if contactUserId !in users then Some(ContactUserNotFound)
      else if |PairIds(contacts, userId, contactUserId)| > 1 then Some(NonUnique)
      else if |PairIds(contacts, userId, contactUserId)| == 1 then Some(ContactExists)
      else if userId == contactUserId then Some(SelfContact)
      else None
    }

    /** `addContactByUserId`: stores a new pending link with the given relationship. */
    method AddContactByUserId(userId: int, contactUserId: int, relationship: RelationshipType, now: int)
        returns (r: Result<ContactDto>)
      requires Valid()
      modifies this
      ensures Valid()
      ensures users == old(users)
      ensures r.Err? <==> old(AddByUserIdError(userId, contactUserId)).Some?
      ensures r.Err? ==> r.error == old(AddByUserIdError(userId, contactUserId)).value
      ensures r.Err? ==> contacts == old(contacts) && nextContactId == old(nextContactId)
      ensures r.Ok? ==> old(nextContactId) in contacts && nextContactId == old(nextContactId) + 1
      ensures r.Ok? ==>
                var c := contacts[old(nextContactId)];
                && fresh(c) && contacts == old(contacts)[old(nextContactId) := c]
                && c.user == users[userId] && c.contactUser == users[contactUserId]
                && c.status == PENDING && c.relationshipType == relationship && c.isBlocked == Some(false)
                && c.contactEmail.None? && r.value == FromContact(c)
      ensures old(Consistent(contacts)) ==> Consistent(contacts)
    {
      var err := AddByUserIdError(userId, contactUserId);
      if err.Some? {
        return Err(err.value);
      }
      var c := new Contact.Linked(nextContactId, users[userId], users[contactUserId], now);
      c.relationshipType := relationship;
      Store(c);
      r := Ok(FromContact(c));
    }

    /** The registered user with this email exists. */
    predicate EmailRegistered(email: string)
      reads this, users.Values
    {
      exists id | id in users :: users[id].email == email
    }

    /** Why `addContactByEmail` fails, if it does: unknown owner, then an
        existing contact stored with this email (a duplicated one breaks the
        lookup itself). */
    function AddByEmailError(userId: int, email: string): Option<string>
      reads this
    {
      if userId !in users then Some(UserNotFound)
      else if |EmailIds(contacts, userId, email)| > 1 then Some(NonUnique)
      else if |EmailIds(contacts, userId, email)| == 1 then Some(EmailExists)
      else None
    }

    /** The contact `addContactByEmail` creates: a pending link to the
        registered user with this email, or else a contact holding the name
        and the email. */
    method NewEmailContact(userId: int, email: string, name: Option<string>,
                           relationship: RelationshipType, now: int) returns (c: Contact)
      requires Valid() && userId in users
      ensures fresh(c) && c.id == nextContactId && c.user == users[userId]
      ensures c.status == PENDING && c.relationshipType == relationship && c.isBlocked == Some(false)
      ensures EmailRegistered(email) ==>
                exists id | id in users && users[id].email == email :: c.contactUser == users[id]
      ensures EmailRegistered(email) ==> c.contactEmail.None?
      ensures !EmailRegistered(email) ==>
                c.contactUser == null && c.contactName == name && c.contactEmail == Some(email)
    {
      if EmailRegistered(email) {
        var owner :| owner in users && users[owner].email == email;
        c := new Contact.Linked(nextContactId, users[userId], users[owner], now);
      } else {
        c := new Contact.Unlinked(nextContactId, users[userId], name, Some(email), now);
      }
      c.relationshipType := relationship;
    }

    /** `addContactByEmail` as written. The only duplicate check is on stored
        emails, and a link to a registered user stores no email, so neither an
        existing link to that user nor the owner's own email is refused. */
    method AddContactByEmail(userId: int, email: string, name: Option<string>,
                             relationship: RelationshipType, now: int)
        returns (r: Result<ContactDto>)
      requires Valid()
      modifies this
      ensures Valid()
      ensures users == old(users)
      ensures r.Err? <==> old(AddByEmailError(userId, email)).Some?
      ensures r.Err? ==> r.error == old(AddByEmailError(userId, email)).value
      ensures r.Err? ==> contacts == old(contacts) && nextContactId == old(nextContactId)
      ensures r.Ok? ==> old(nextContactId) in contacts && nextContactId == old(nextContactId) + 1
      ensures r.Ok? ==>
                var c := contacts[old(nextContactId)];
                && fresh(c) && contacts == old(contacts)[old(nextContactId) := c]
                && c.user == users[userId]
                && c.status == PENDING && c.relationshipType == relationship && c.isBlocked == Some(false)
                && r.value == FromContact(c)
      ensures r.Ok? && EmailRegistered(email) ==>
                var c := contacts[old(nextContactId)];
                c.contactEmail.None? && exists id | id in users && users[id].email == email :: c.contactUser == users[id]
      ensures r.Ok? && !EmailRegistered(email) ==>
                var c := contacts[old(nextContactId)];
                c.contactUser == null && c.contactName == name && c.contactEmail == Some(email)
    {
      var err := AddByEmailError(userId, email);
      if err.Some? {
        return Err(err.value);
      }
      var c := NewEmailContact(userId, email, name, relationship, now);
      Store(c);
      r := Ok(FromContact(c));
    }

    /** The corrected check: once the email is found to belong to a registered
        user, the same refusals as `addContactByUserId` apply. */
    predicate EmailLinkRefused(userId: int, email: string)
      reads this, users.Values
    {
      exists id | id in users && users[id].email == email ::
        id == userId || PairIds(contacts, userId, id) != {}
    }

    /** `addContactByEmail` with the refusals of `addContactByUserId` added on
        the registered-user path: it never links an owner to the same user
        twice, nor to themselves, so the table stays consistent. */
    method AddContactByEmailChecked(userId: int, email: string, name: Option<string>,
                                    relationship: RelationshipType, now: int)
        returns (r: Result<ContactDto>)
      requires Valid()
      modifies this
      ensures Valid()
      ensures users == old(users)
      ensures r.Err? <==> old(AddByEmailError(userId, email)).Some? || old(EmailLinkRefused(userId, email))
      ensures r.Err? ==> contacts == old(contacts) && nextContactId == old(nextContactId)
      ensures r.Ok? ==> old(nextContactId) in contacts && nextContactId == old(nextContactId) + 1
      ensures r.Ok? ==>
                var c := contacts[old(nextContactId)];
                && fresh(c) && contacts == old(contacts)[old(nextContactId) := c]
                && c.user == users[userId]
                && c.status == PENDING && c.relationshipType == relationship && c.isBlocked == Some(false)
                && r.value == FromContact(c)
      ensures r.Ok? && EmailRegistered(email) ==>
                var c := contacts[old(nextContactId)];
                exists id | id in users && users[id].email == email :: c.contactUser == users[id]
      ensures r.Ok? && !EmailRegistered(email) ==>
                var c := contacts[old(nextContactId)];
                c.contactUser == null && c.contactName == name && c.contactEmail == Some(email)
      ensures old(Consistent(contacts)) ==> Consistent(contacts)
    {
      var err := AddByEmailError(userId, email);
      if err.Some? {
        return Err(err.value);
      }
      if EmailRegistered(email) {
        var owner :| owner in users && users[owner].email == email;
        if owner == userId {
          return Err(SelfContact);
        }
        if PairIds(contacts, userId, owner) != {} {
          return Err(ContactExists);
        }
        assert !EmailLinkRefused(userId, email);
      }
      var c := NewEmailContact(userId, email, name, relationship, now);
      Store(c);
      r := Ok(FromContact(c));
    }

    /** Why accepting or declining fails, if it does: unknown user or
        contact, a contact with no linked user (dereferenced), then a contact
        that is not a pending invitation to this user. */
    function InvitationError(userId: int, contactId: int): Option<string>
      reads this, contacts.Values
    {
      if userId !in users then Some(UserNotFound)
      else if contactId !in contacts then Some(ContactNotFound)
      else
        var c := contacts[contactId];
        if c.contactUser == null then Some(NullValue)
        else if c.contactUser.id != userId || c.status != PENDING then Some(InvalidInvitation)
        else None
    }

    /** `acceptInvitation` fails like `InvitationError`, or when the lookup of
        the reverse link finds it twice. */
    function AcceptError(userId: int, contactId: int): Option<string>
      reads this, contacts.Values
    {
      var err := InvitationError(userId, contactId);
      if err.Some? then err
      else
        var c := contacts[contactId];
        if |PairIds(contacts, c.contactUser.id, c.user.id)| > 1 then Some(NonUnique) else None
    }

    /** The invitation's reverse link, from the invited user back to the owner. */
    function ReverseIds(contactId: int): set<int>
      reads this
    {
      if contactId in contacts && contacts[contactId].contactUser != null then
        PairIds(contacts, contacts[contactId].contactUser.id, contacts[contactId].user.id)
      else {}
    }

    /** `acceptInvitation`: the invitation becomes ACCEPTED, and the reverse
        link is created as ACCEPTED with the same relationship unless one
        exists. Accepting again fails. */
    method AcceptInvitation(userId: int, contactId: int, now: int) returns (r: Result<ContactDto>)
      requires Valid()
      modifies this, if contactId in contacts then {contacts[contactId]} else {}
      ensures Valid()
      ensures users == old(users)
      ensures r.Err? <==> old(AcceptError(userId, contactId)).Some?
      ensures r.Err? ==> r.error == old(AcceptError(userId, contactId)).value
      ensures r.Err? ==> contacts == old(contacts) && nextContactId == old(nextContactId)
      ensures r.Err? && contactId in contacts ==> unchanged(contacts[contactId])
      ensures r.Ok? ==> contactId in old(contacts) && contactId in contacts
      ensures r.Ok? ==>
                && contacts[contactId] == old(contacts[contactId])
                && contacts[contactId].status == ACCEPTED
                && contacts[contactId].relationshipType == old(contacts[contactId].relationshipType)
                && contacts[contactId].isBlocked == old(contacts[contactId].isBlocked)
                && contacts[contactId].updatedAt == now
                && r.value == FromContact(contacts[contactId])
      ensures r.Ok? ==> ReverseIds(contactId) != {} && InvitationError(userId, contactId) == Some(InvalidInvitation)
      ensures r.Ok? && old(ReverseIds(contactId)) == {} ==>
                && old(nextContactId) in contacts && nextContactId == old(nextContactId) + 1
                && var back := contacts[old(nextContactId)];
                && fresh(back) && contacts == old(contacts)[old(nextContactId) := back]
                && back.user == contacts[contactId].contactUser && back.contactUser == contacts[contactId].user
                && back.status == ACCEPTED && back.relationshipType == contacts[contactId].relationshipType
      ensures r.Ok? && old(ReverseIds(contactId)) != {} ==>
                contacts == old(contacts) && nextContactId == old(nextContactId)
      ensures old(Consistent(contacts)) ==> Consistent(contacts)
    {
      var err := AcceptError(userId, contactId);
      if err.Some? {
        return Err(err.value);
      }
      var c := contacts[contactId];
      c.status := ACCEPTED;
      c.updatedAt := now;
      if PairIds(contacts, c.contactUser.id, c.user.id) == {} {
        var back := StoreReverse(contactId, now);
      }
      r := Ok(FromContact(c));
    }

    /** The reverse of the link `c`, from its contact user back to its owner,
        stored under the next id as ACCEPTED with the same relationship. */
    method StoreReverse(contactId: int, now: int) returns (back: Contact)
      requires Valid() && contactId in contacts
      requires var c := contacts[contactId];
               c.contactUser != null && PairIds(contacts, c.contactUser.id, c.user.id) == {}
      modifies this
      ensures Valid() && users == old(users) && nextContactId == old(nextContactId) + 1
      ensures fresh(back) && contacts == old(contacts)[old(nextContactId) := back]
      ensures var c := contacts[contactId];
              && back.user == c.contactUser && back.contactUser == c.user
              && back.status == ACCEPTED && back.relationshipType == c.relationshipType
              && PairIds(contacts, c.contactUser.id, c.user.id) == {old(nextContactId)}
      ensures old(Consistent(contacts)) ==> Consistent(contacts)
    {
      var c := contacts[contactId];
      var cu := c.contactUser;
      back := new Contact.Linked(nextContactId, cu, c.user, now);
      back.status := ACCEPTED;
      back.relationshipType := c.relationshipType;
      if Consistent(contacts) {
        assert contactId in PairIds(contacts, c.user.id, cu.id);
      }
      InsertLookups(contacts, nextContactId, back, cu.id, c.user.id, "");
      Store(back);
    }

    /** `declineInvitation`: the pending invitation becomes DECLINED, after
        which neither accepting nor declining it succeeds. */
    method DeclineInvitation(userId: int, contactId: int, now: int) returns (r: Outcome)
      requires Valid()
      modifies if contactId in contacts then {contacts[contactId]} else {}
      ensures Valid()
      ensures r.Failed? <==> old(InvitationError(userId, contactId)).Some?
      ensures r.Failed? ==> r.error == old(InvitationError(userId, contactId)).value
      ensures r.Failed? && contactId in contacts ==> unchanged(contacts[contactId])
      ensures r.Done? ==>
                var c := contacts[contactId];
                && c.status == DECLINED && c.relationshipType == old(c.relationshipType)
                && c.isBlocked == old(c.isBlocked) && c.updatedAt == now
                && InvitationError(userId, contactId) == Some(InvalidInvitation)
    {
      var err := InvitationError(userId, contactId);
      if err.Some? {
        return Failed(err.value);
      }
      contacts[contactId].status, contacts[contactId].updatedAt := DECLINED, now;
      r := Done;
    }

    /** Why an owner-only operation fails, if it does: unknown user or
        contact, or a caller who does not own the contact. */
    function OwnerError(userId: int, contactId: int): Option<string>
      reads this
    {
      if userId !in users then Some(UserNotFound)
      else if contactId !in contacts then Some(ContactNotFound)
      else if contacts[contactId].user.id != userId then Some(Unauthorized)
      else None
    }

    /** `blockContact` and `unblockContact`: blocking sets the flag and the
        BLOCKED status; unblocking clears the flag and sets ACCEPTED, whatever
        the status was before. */
    method SetBlocked(userId: int, contactId: int, blocked: bool, now: int) returns (r: Result<ContactDto>)
      requires Valid()
      modifies if contactId in contacts then {contacts[contactId]} else {}
      ensures Valid()
      ensures r.Err? <==> OwnerError(userId, contactId).Some?
      ensures r.Err? ==> r.error == OwnerError(userId, contactId).value
      ensures r.Err? && contactId in contacts ==> unchanged(contacts[contactId])
      ensures r.Ok? ==>
                var c := contacts[contactId];
                && c.isBlocked == Some(blocked) && c.status == (if blocked then BLOCKED else ACCEPTED)
                && c.relationshipType == old(c.relationshipType)
                && c.IsBlockedContact() == blocked
                && c.updatedAt == (if c.isBlocked == old(c.isBlocked) && c.status == old(c.status)
                                   then old(c.updatedAt) else now)
                && r.value == FromContact(c)
    {
      var err := OwnerError(userId, contactId);
      if err.Some? {
        return Err(err.value);
      }
      var c := contacts[contactId];
      var status := if blocked then BLOCKED else ACCEPTED;
      if c.isBlocked != Some(blocked) || c.status != status {
        c.isBlocked, c.status, c.updatedAt := Some(blocked), status, now;
      }
      r := Ok(FromContact(c));
    }

    /** `updateContactRelationship`: changes the relationship type and nothing
        else; saving stamps `updatedAt` when the type actually changed. */
    method UpdateContactRelationship(userId: int, contactId: int, relationship: RelationshipType, now: int)
        returns (r: Result<ContactDto>)
      requires Valid()
      modifies if contactId in contacts then {contacts[contactId]} else {}
      ensures Valid()
      ensures r.Err? <==> OwnerError(userId, contactId).Some?
      ensures r.Err? ==> r.error == OwnerError(userId, contactId).value
      ensures r.Err? && contactId in contacts ==> unchanged(contacts[contactId])
      ensures r.Ok? ==>
                var c := contacts[contactId];
                && c.relationshipType == relationship
                && c.status == old(c.status) && c.isBlocked == old(c.isBlocked)
                && c.updatedAt == (if relationship == old(c.relationshipType) then old(c.updatedAt) else now)
                && r.value == FromContact(c)
    {
      var err := OwnerError(userId, contactId);
      if err.Some? {
        return Err(err.value);
      }
      var c := contacts[contactId];
      if c.relationshipType != relationship {
        c.relationshipType, c.updatedAt := relationship, now;
      }
      r := Ok(FromContact(c));
    }

    /** Why `removeContact` fails, if it does: `OwnerError`, or a reverse-link
        lookup that finds two links. */
    function RemoveError(userId: int, contactId: int): Option<string>
      reads this
    {
      var err := OwnerError(userId, contactId);
      if err.Some? then err
      else
        var c := contacts[contactId];
        if c.contactUser != null && |PairIds(contacts, c.contactUser.id, c.user.id)| > 1 then Some(NonUnique)
        else None
    }

    /** `removeContact`: deletes the contact and, for a registered contact,
        the reverse link if there is one. */
    method RemoveContact(userId: int, contactId: int) returns (r: Outcome)
      requires Valid()
      modifies this
      ensures Valid()
      ensures users == old(users) && nextContactId == old(nextContactId)
      ensures r.Failed? <==> old(RemoveError(userId, contactId)).Some?
      ensures r.Failed? ==> r.error == old(RemoveError(userId, contactId)).value
      ensures r.Failed? ==> contacts == old(contacts)
      ensures r.Done? ==>
                var c := old(contacts[contactId]);
                contacts == old(contacts) - {contactId}
                            - (if c.contactUser != null then old(PairIds(contacts, c.contactUser.id, c.user.id)) else {})
      ensures r.Done? && old(Consistent(contacts)) ==>
                var c := old(contacts[contactId]);
                c.contactUser != null ==>
                  PairIds(contacts, c.user.id, c.contactUser.id) == {}
                  && PairIds(contacts, c.contactUser.id, c.user.id) == {}
      ensures old(Consistent(contacts)) ==> Consistent(contacts)
    {
      var err := RemoveError(userId, contactId);
      if err.Some? {
        return Failed(err.value);
      }
      var c := contacts[contactId];
      var reverse: set<int> := {};
      if c.contactUser != null {
        reverse := PairIds(contacts, c.contactUser.id, c.user.id);
        if Consistent(contacts) {
          ConsistentLookup(contacts, c.user.id, c.contactUser.id, contactId);
        }
      }
      if Consistent(contacts) {
        RemoveConsistent(contacts, {contactId} + reverse);
      }
      contacts := contacts - {contactId} - reverse;
      r := Done;
    }
  }

  /** Adding a registered user first by id and then by their email leaves two
      links between the same pair of users, which the email path does not
      refuse; every later lookup of that pair then fails. */
  method DuplicateLinkThroughEmail(s: ContactService, userId: int, otherId: int, now: int)
      returns (first: Result<ContactDto>, second: Result<ContactDto>)
    requires s.Valid() && Consistent(s.contacts)
    requires userId in s.users && otherId in s.users && userId != otherId
    requires PairIds(s.contacts, userId, otherId) == {}
    requires EmailIds(s.contacts, userId, s.users[otherId].email) == {}
    modifies s
    ensures first.Ok? && second.Ok?
    ensures |PairIds(s.contacts, userId, otherId)| == 2 && !Consistent(s.contacts)
  {
    var email := s.users[otherId].email;
    first := s.AddContactByUserId(userId, otherId, FRIEND, now);
    var firstId := s.nextContactId - 1;
    InsertLookups(old(s.contacts), firstId, s.contacts[firstId], userId, otherId, email);
    assert PairIds(s.contacts, userId, otherId) == {firstId};
    assert s.EmailRegistered(email);
    var before := s.contacts;
    second := s.AddContactByEmail(userId, email, None, FRIEND, now);
    var secondId := s.nextContactId - 1;
    var k :| k in s.users && s.users[k].email == email && s.contacts[secondId].contactUser == s.users[k];
    assert k == otherId;
    InsertLookups(before, secondId, s.contacts[secondId], userId, otherId, email);
    assert PairIds(s.contacts, userId, otherId) == {firstId, secondId};
    assert Links(s.contacts[secondId], s.contacts[firstId].user.id, s.contacts[firstId].contactUser.id);
  }

  /** Adding one's own email links the owner to themselves, which adding by
      id refuses; the corrected method refuses it. */
  method SelfLinkThroughEmail(s: ContactService, userId: int, now: int)
      returns (asWritten: Result<ContactDto>, corrected: Result<ContactDto>)
    requires s.Valid()
    requires userId in s.users && EmailIds(s.contacts, userId, s.users[userId].email) == {}
    modifies s
    ensures asWritten.Ok? && corrected.Err?
    ensures !Consistent(s.contacts)
  {
    var email := s.users[userId].email;
    assert s.EmailRegistered(email);
    asWritten := s.AddContactByEmail(userId, email, None, FRIEND, now);
    var id := s.nextContactId - 1;
    var k :| k in s.users && s.users[k].email == email && s.contacts[id].contactUser == s.users[k];
    assert k == userId;
    assert s.EmailLinkRefused(userId, email);
    corrected := s.AddContactByEmailChecked(userId, email, None, FRIEND, now);
    assert s.contacts[id].contactUser.id == s.contacts[id].user.id;
  }
}
