/** `MockApiService`: the in-memory backend the client runs against. It
    holds tables of users, groups and expenses and a map from user id to the
    last token issued, restores them from a stored snapshot, and seeds demo
    data when no user was restored. Fresh ids, tokens and the clock are
    parameters. */
module MockApi {
  import opened Wrappers
  import opened Sequences
  import opened ClientModels

  const InvalidCredentials: string := "Invalid email or password"
  const EmailInUse: string := "Email already in use"
  const PayerNotFound: string := "Payer not found"
  const GroupNotFound: string := "Group not found"

  datatype AuthResponse = AuthResponse(user: ClientUser, token: string)

  datatype RegisterRequest = RegisterRequest(
    username: string, email: string, password: string, firstName: string, lastName: string)

  datatype CreateGroupRequest = CreateGroupRequest(
    name: string, description: Option<string>, kind: GroupKind, isPrivate: bool, memberIds: Option<seq<string>>)

  datatype ShareRequest = ShareRequest(userId: string, amount: int)

  datatype CreateExpenseRequest = CreateExpenseRequest(
    description: string, amount: int, currency: string, paidById: string,
    groupId: Option<string>, category: ExpenseCategory, shares: seq<ShareRequest>)

  /** The parsed snapshot in storage; a missing table reads as empty. */
  datatype StoredData = StoredData(
    users: Option<seq<ClientUser>>, groups: Option<seq<ClientGroup>>,
    expenses: Option<seq<ClientExpense>>, tokens: Option<map<string, string>>)

  /** The demo tables: three users, two groups, three expenses. */
  datatype Tables = Tables(users: seq<ClientUser>, groups: seq<ClientGroup>, expenses: seq<ClientExpense>)

  function HasEmail(email: string): ClientUser -> bool {
    (u: ClientUser) => u.email == email
  }

  function HasUserId(id: string): ClientUser -> bool {
    (u: ClientUser) => u.id == id
  }

  function HasGroupId(id: string): ClientGroup -> bool {
    (g: ClientGroup) => g.id == id
  }

  predicate EmailsUnique(users: seq<ClientUser>) {
    forall i, j | 0 <= i < j < |users| :: users[i].email != users[j].email
  }

  /** The shares of a new expense: each requested user looked up, the
      requested amount kept and nothing paid; the first unknown user fails. */
  function NewShares(users: seq<ClientUser>, reqs: seq<ShareRequest>): (r: Result<seq<ShareView>>)
    ensures r.Ok? <==> forall i | 0 <= i < |reqs| :: Find(users, HasUserId(reqs[i].userId)).Some?
    ensures r.Ok? ==> |r.value| == |reqs|
    ensures r.Ok? ==> forall i | 0 <= i < |reqs| ::
                        && r.value[i].user == Find(users, HasUserId(reqs[i].userId)).value
                        && r.value[i].user.id == reqs[i].userId
                        && r.value[i].amount == reqs[i].amount && !r.value[i].isPaid
    ensures r.Err? ==> exists i | 0 <= i < |reqs| ::
                         && Find(users, HasUserId(reqs[i].userId)).None?
                         && r.error == "User with ID " + reqs[i].userId + " not found"
  {
    if |reqs| == 0 then Ok([])
    else match Find(users, HasUserId(reqs[0].userId))
      case None => Err("User with ID " + reqs[0].userId + " not found")
      case Some(u) =>
        var rest := NewShares(users, reqs[1..]);
        if rest.Err? then
          assert forall i | 1 <= i < |reqs| :: reqs[1..][i - 1] == reqs[i];
          rest
        else
          assert forall i | 1 <= i < |reqs| :: reqs[1..][i - 1] == reqs[i];
          Ok([ShareView(u, reqs[0].amount, false)] + rest.value)
  }

  /** The demo data, all dated `now`, with amounts in cents. */
  function SeedTables(ids: seq<string>, now: int): (t: Tables)
    requires |ids| == 8
    ensures |t.users| == 3 && |t.groups| == 2 && |t.expenses| == 3
    ensures EmailsUnique(t.users)
  {
    var john := ClientUser(ids[0], "johndoe", "john@example.com", "John", "Doe", Some("https://i.pravatar.cc/150?u=john"));
    var jane := ClientUser(ids[1], "janedoe", "jane@example.com", "Jane", "Doe", Some("https://i.pravatar.cc/150?u=jane"));
    var bob := ClientUser(ids[2], "bobsmith", "bob@example.com", "Bob", "Smith", Some("https://i.pravatar.cc/150?u=bob"));
    var apartment := ClientGroup(ids[3], "Apartment Expenses", Some("Shared expenses for our apartment"), now, now,
                                 [GroupMember(john, Admin, now), GroupMember(jane, Member, now)], Apartment, false);
    var trip := ClientGroup(ids[4], "Weekend Trip", Some("Expenses for our weekend trip"), now, now,
                            [GroupMember(john, Admin, now), GroupMember(jane, Member, now), GroupMember(bob, Member, now)],
                            Trip, false);
    var groceries := ClientExpense(ids[5], "Groceries", 8750, "USD", john, now, now, Some(apartment), Food,
                                   [ShareView(john, 4375, true), ShareView(jane, 4375, false)]);
    var rent := ClientExpense(ids[6], "Rent - August", 150000, "USD", jane, now, now, Some(apartment), Rent,
                              [ShareView(john, 75000, false), ShareView(jane, 75000, true)]);
    var hotel := ClientExpense(ids[7], "Hotel Booking", 42000, "USD", bob, now, now, Some(trip), Travel,
                               [ShareView(john, 14000, false), ShareView(jane, 14000, false), ShareView(bob, 14000, true)]);
    Tables([john, jane, bob], [apartment, trip], [groceries, rent, hotel])
  }

  function ShareSum(shares: seq<ShareView>): int {
    if |shares| == 0 then 0 else shares[0].amount + ShareSum(shares[1..])
  }

  /** In the demo data every expense is split exactly: its shares add up to its amount. */
  lemma SeedExpensesBalance(ids: seq<string>, now: int)
    requires |ids| == 8
    ensures forall e | e in SeedTables(ids, now).expenses :: ShareSum(e.shares) == e.amount
  {
    var t := SeedTables(ids, now);
    forall k | 0 <= k < 3
      ensures ShareSum(t.expenses[k].shares) == t.expenses[k].amount
    {
      var s := t.expenses[k].shares;
      assert s[1..][1..] == s[2..];
      if k == 2 {
        assert s[2..][1..] == [];
        assert ShareSum(s[2..]) == s[2].amount;
      } else {
        assert s[2..] == [];
      }
      assert ShareSum(s[1..]) == s[1].amount + ShareSum(s[2..]);
    }
  }

  class MockApiService {
    var users: seq<ClientUser>
    var groups: seq<ClientGroup>
    var expenses: seq<ClientExpense>
    /** User id to the last token issued to that user. */
    var tokens: map<string, string>

    /** Restores the stored snapshot, if any, and seeds the demo tables when
        no user was restored (the token map is kept as restored). */
    constructor(stored: Option<StoredData>, seedIds: seq<string>, now: int)
      requires |seedIds| == 8
      ensures stored.Some? ==> tokens == stored.value.tokens.GetOr(map[])
      ensures stored.None? ==> tokens == map[]
      ensures stored.Some? && stored.value.users.GetOr([]) != [] ==>
                && users == stored.value.users.value
                && groups == stored.value.groups.GetOr([])
                && expenses == stored.value.expenses.GetOr([])
      ensures stored.None? || stored.value.users.GetOr([]) == [] ==>
                Tables(users, groups, expenses) == SeedTables(seedIds, now)
    {
      var loadedUsers := if stored.Some? then stored.value.users.GetOr([]) else [];
      tokens := if stored.Some? then stored.value.tokens.GetOr(map[]) else map[];
      if |loadedUsers| == 0 {
        var seed := SeedTables(seedIds, now);
        users := seed.users;
        groups := seed.groups;
        expenses := seed.expenses;
      } else {
        users := loadedUsers;
        groups := stored.value.groups.GetOr([]);
        expenses := stored.value.expenses.GetOr([]);
      }
    }

    /** `login`: the first user with this email gets the token; an unknown
        email fails. The password is not checked. */
    method Login(email: string, token: string) returns (r: Result<AuthResponse>)
      modifies this
      ensures users == old(users) && groups == old(groups) && expenses == old(expenses)
      ensures r.Err? <==> Find(users, HasEmail(email)).None?
      ensures r.Err? ==> r.error == InvalidCredentials && tokens == old(tokens)
      ensures r.Ok? ==>
                && r.value == AuthResponse(Find(users, HasEmail(email)).value, token)
                && r.value.user.email == email && r.value.user in users
                && tokens == old(tokens)[r.value.user.id := token]
    {
      var user := Find(users, HasEmail(email));
      if user.None? {
        return Err(InvalidCredentials);
      }
      tokens := tokens[user.value.id := token];
      r := Ok(AuthResponse(user.value, token));
    }

    /** `register`: a taken email fails; otherwise exactly one user is
        appended and gets the token. */
    method Register(req: RegisterRequest, newId: string, token: string) returns (r: Result<AuthResponse>)
      modifies this
      ensures groups == old(groups) && expenses == old(expenses)
      ensures r.Err? <==> Find(old(users), HasEmail(req.email)).Some?
      ensures r.Err? ==> r.error == EmailInUse && users == old(users) && tokens == old(tokens)
      ensures r.Ok? ==>
                && r.value.user == ClientUser(newId, req.username, req.email, req.firstName, req.lastName, None)
                && r.value.token == token
                && users == old(users) + [r.value.user]
                && tokens == old(tokens)[newId := token]
      ensures EmailsUnique(old(users)) ==> EmailsUnique(users)
    {
      var existing := Find(users, HasEmail(req.email));
      if existing.Some? {
        return Err(EmailInUse);
      }
      var user := ClientUser(newId, req.username, req.email, req.firstName, req.lastName, None);
      users := users + [user];
      tokens := tokens[newId := token];
      r := Ok(AuthResponse(user, token));
    }

    /** `getGroups`: a copy of the group table. */
    function GetGroups(): (r: seq<ClientGroup>)
      reads this
      ensures r == groups
    {
      groups
    }

    /** `createGroup`: appends a group with no members; a missing description becomes "". */
    method CreateGroup(req: CreateGroupRequest, newId: string, now: int) returns (g: ClientGroup)
      modifies this
      ensures users == old(users) && expenses == old(expenses) && tokens == old(tokens)
      ensures groups == old(groups) + [g]
      ensures g.id == newId && g.name == req.name && g.members == []
      ensures g.description == Some(req.description.GetOr(""))
      ensures g.kind == req.kind && g.isPrivate == req.isPrivate && g.createdAt == now && g.updatedAt == now
    {
      g := ClientGroup(newId, req.name, Some(req.description.GetOr("")), now, now, [], req.kind, req.isPrivate);
      groups := groups + [g];
    }

    /** `getGroupExpenses`: the stored expenses of this group, in order. */
    function GetGroupExpenses(groupId: string): (r: seq<ClientExpense>)
      reads this
      ensures forall i | 0 <= i < |r| :: r[i] in expenses && InGroup(r[i], groupId)
      ensures forall i | 0 <= i < |expenses| :: InGroup(expenses[i], groupId) ==> expenses[i] in r
      ensures r == Filter(expenses, InGroupTest(groupId))
    {
      FilterMembers(expenses, InGroupTest(groupId));
      Filter(expenses, InGroupTest(groupId))
    }

    /** Why `createExpense` fails, if it does: an unknown payer, a given
        (non-empty) but unknown group id, then the first unknown share user. */
    function CreateExpenseError(req: CreateExpenseRequest): Option<string>
      reads this
    {
      if Find(users, HasUserId(req.paidById)).None? then Some(PayerNotFound)
      else if req.groupId.Some? && req.groupId.value != "" && Find(groups, HasGroupId(req.groupId.value)).None?
      then Some(GroupNotFound)
      else if NewShares(users, req.shares).Err? then Some(NewShares(users, req.shares).error)
      else None
    }

    /** `createExpense`: appends exactly one expense, paid by the payer, in
        the group when one is given, with the requested shares all unpaid;
        a failure appends nothing. */
    method CreateExpense(req: CreateExpenseRequest, newId: string, now: int) returns (r: Result<ClientExpense>)
      modifies this
      ensures users == old(users) && groups == old(groups) && tokens == old(tokens)
      ensures r.Err? <==> old(CreateExpenseError(req)).Some?
      ensures r.Err? ==> r.error == old(CreateExpenseError(req)).value && expenses == old(expenses)
      ensures r.Ok? ==> expenses == old(expenses) + [r.value]
      ensures r.Ok? ==>
                var e := r.value;
                && e.id == newId && e.description == req.description && e.amount == req.amount
                && e.currency == req.currency && e.category == req.category
                && e.paidBy.id == req.paidById && e.paidBy in users
                && (req.groupId.Some? && req.groupId.value != "" ==> e.group.Some? && e.group.value.id == req.groupId.value)
                && (req.groupId.None? || req.groupId.value == "" ==> e.group.None?)
                && e.shares == NewShares(users, req.shares).value
    {
      var payer := Find(users, HasUserId(req.paidById));
      if payer.None? {
        return Err(PayerNotFound);
      }
      var group: Option<ClientGroup> := None;
      if req.groupId.Some? && req.groupId.value != "" {
        group := Find(groups, HasGroupId(req.groupId.value));
        if group.None? {
          return Err(GroupNotFound);
        }
      }
      var shares := NewShares(users, req.shares);
      if shares.Err? {
        return Err(shares.error);
      }
      var e := ClientExpense(newId, req.description, req.amount, req.currency, payer.value, now, now,
                             group, req.category, shares.value);
      expenses := expenses + [e];
      r := Ok(e);
    }
  }

  /** A user who has just registered logs in with the same email and gets
      the new token, as long as emails were unique before. */
  method RegisterThenLogin(s: MockApiService, req: RegisterRequest, newId: string, first: string, second: string)
      returns (registered: Result<AuthResponse>, loggedIn: Result<AuthResponse>)
    requires EmailsUnique(s.users)
    requires Find(s.users, HasEmail(req.email)).None?
    modifies s
    ensures registered.Ok? && loggedIn.Ok? && loggedIn.value.user == registered.value.user
    ensures newId in s.tokens && s.tokens[newId] == second
  {
    registered := s.Register(req, newId, first);
    var last := |s.users| - 1;
    assert s.users[last].email == req.email;
    loggedIn := s.Login(req.email, second);
    var k :| 0 <= k < |s.users| && s.users[k] == loggedIn.value.user;
    assert k == last;
  }

  /** An expense created in a group is then listed among that group's expenses. */
  method CreateThenList(s: MockApiService, req: CreateExpenseRequest, newId: string, now: int)
      returns (created: Result<ClientExpense>, listed: seq<ClientExpense>)
    requires req.groupId.Some? && req.groupId.value != ""
    modifies s
    ensures created.Ok? ==> created.value in listed
    ensures created.Err? ==> listed == s.GetGroupExpenses(req.groupId.value)
  {
    created := s.CreateExpense(req, newId, now);
    listed := s.GetGroupExpenses(req.groupId.value);
    if created.Ok? {
      assert s.expenses[|s.expenses| - 1] == created.value;
    }
  }
}
