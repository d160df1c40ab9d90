/** `UserService`: registering a user and updating a user's names and email,
    over a user table keyed by id. Usernames and emails stay unique: creation
    refuses a taken username, then a taken email, and an update refuses an
    email another user already has. The password encoder is a parameter. */
module UserService {
  import opened Wrappers
  import opened Entities

  const UsernameExists: string := "Username already exists"
  const EmailExists: string := "Email already exists"
  const UserNotFound: string := "User not found"

  /** The fields `updateUser` reads from its request; a null field is left alone. */
  datatype UserUpdate = UserUpdate(firstName: Option<string>, lastName: Option<string>, email: Option<string>)

  class UserService {
    var users: map<int, User>
    var nextUserId: int

    /** Ids match their keys and lie below the next id; no two users share a
        username or an email. */
    ghost predicate Valid()
      reads this, users.Values
    {
      && (forall id | id in users :: users[id].id == id && id < nextUserId)
      && (forall a, b | a in users && b in users && users[a].username == users[b].username :: a == b)
      && (forall a, b | a in users && b in users && users[a].email == users[b].email :: a == b)
    }

    constructor()
      ensures Valid() && users == map[] && nextUserId == 1
    {
      users := map[];
      nextUserId := 1;
    }

    /** `existsByUsername`. */
    predicate UsernameTaken(username: string)
      reads this, users.Values
    {
      exists id | id in users :: users[id].username == username
    }

    /** `existsByEmail`. */
    predicate EmailTaken(email: string)
      reads this, users.Values
    {
      exists id | id in users :: users[id].email == email
    }

    /** Why `createUser` fails, if it does: the username is checked first. */
    function CreateError(username: string, email: string): (err: Option<string>)
      reads this, users.Values
      ensures err.None? <==> !UsernameTaken(username) && !EmailTaken(email)
      ensures UsernameTaken(username) ==> err == Some(UsernameExists)
      ensures !UsernameTaken(username) && EmailTaken(email) ==> err == Some(EmailExists)
    {
      if UsernameTaken(username) then Some(UsernameExists)
      else if EmailTaken(email) then Some(EmailExists)
      else None
    }

    /** `createUser`: stores a new user with the encoded password and the
        given names, and no profile settings. */
    method CreateUser(username: string, email: string, rawPassword: string,
                      firstName: Option<string>, lastName: Option<string>,
                      encode: string -> string)
        returns (r: Result<User>)
      requires Valid()
      modifies this
      ensures Valid()
      ensures r.Err? <==> old(CreateError(username, email)).Some?
      ensures r.Err? ==> r.error == old(CreateError(username, email)).value
      ensures r.Err? ==> users == old(users) && nextUserId == old(nextUserId)
      ensures r.Ok? ==>
                && fresh(r.value) && r.value.id == old(nextUserId)
                && users == old(users)[old(nextUserId) := r.value] && nextUserId == old(nextUserId) + 1
                && r.value.username == username && r.value.email == email
                && r.value.password == encode(rawPassword)
                && r.value.firstName == firstName && r.value.lastName == lastName
                && r.value.groups == {}
    {
      var err := CreateError(username, email);
      if err.Some? {
        return Err(err.value);
      }
      var u := new User(nextUserId, username, email, encode(rawPassword), firstName, lastName);
      users := users[nextUserId := u];
      nextUserId := nextUserId + 1;
      r := Ok(u);
    }

    /** Why `updateUser` fails, if it does: an unknown id, or a new email that
        differs from the user's own and is already taken. */
    function UpdateError(id: int, update: UserUpdate): Option<string>
      reads this, users.Values
    {
      if id !in users then Some(UserNotFound)
      else if update.email.Some? && update.email.value != users[id].email && EmailTaken(update.email.value)
      then Some(EmailExists)
      else None
    }

    /** `updateUser`: the names change only where the request gives one, the
        email only where it gives a different one; the username, password and
        every other field stay. */
    method UpdateUser(id: int, update: UserUpdate) returns (r: Result<User>)
      requires Valid()
      modifies if id in users then {users[id]} else {}
      ensures Valid()
      ensures r.Err? <==> old(UpdateError(id, update)).Some?
      ensures r.Err? ==> r.error == old(UpdateError(id, update)).value
      ensures r.Err? && id in users ==> unchanged(users[id])
      ensures r.Ok? ==> id in users && r.value == users[id]
      ensures r.Ok? ==>
                var u := users[id];
                && u.firstName == (if update.firstName.Some? then update.firstName else old(u.firstName))
                && u.lastName == (if update.lastName.Some? then update.lastName else old(u.lastName))
                && u.email == (if update.email.Some? then update.email.value else old(u.email))
      ensures r.Ok? ==>
                var u := users[id];
                && u.username == old(u.username) && u.password == old(u.password)
                && u.groups == old(u.groups) && u.ProfileUnchanged()
    {
      var err := UpdateError(id, update);
      if err.Some? {
        return Err(err.value);
      }
      var u := users[id];
      if update.email.Some? && update.email.value != u.email {
        assert forall k | k in users :: users[k].email != update.email.value;
      }
      ApplyUpdate(u, update);
      r := Ok(u);
    }
  }

  /** The assignments of `updateUser`, once the request has been checked. */
  method ApplyUpdate(u: User, update: UserUpdate)
    modifies u
    ensures u.firstName == (if update.firstName.Some? then update.firstName else old(u.firstName))
    ensures u.lastName == (if update.lastName.Some? then update.lastName else old(u.lastName))
    ensures u.email == (if update.email.Some? then update.email.value else old(u.email))
    ensures u.username == old(u.username) && u.password == old(u.password)
    ensures u.groups == old(u.groups) && u.ProfileUnchanged()
  {
    if update.firstName.Some? {
      u.firstName := update.firstName;
    }
    if update.lastName.Some? {
      u.lastName := update.lastName;
    }
    if update.email.Some? && update.email.value != u.email {
      u.email := update.email.value;
    }
  }

  /** Applying the same update twice succeeds with the same user and leaves
      the fields one application gives: `updateUser` is idempotent. */
  method UpdateTwice(s: UserService, id: int, update: UserUpdate) returns (first: Result<User>, second: Result<User>)
    requires s.Valid()
    modifies if id in s.users then {s.users[id]} else {}
    ensures first.Ok? ==> second.Ok? && second.value == first.value && id in s.users
    ensures first.Ok? ==>
              var u := s.users[id];
              && u.firstName == (if update.firstName.Some? then update.firstName else old(u.firstName))
              && u.lastName == (if update.lastName.Some? then update.lastName else old(u.lastName))
              && u.email == (if update.email.Some? then update.email.value else old(u.email))
              && u.username == old(u.username) && u.password == old(u.password)
    ensures first.Err? ==> second == first
  {
    first := s.UpdateUser(id, update);
    if first.Ok? {
      second := s.UpdateUser(id, update);
    } else {
      second := s.UpdateUser(id, update);
    }
  }
}
