/** `ExpenseService`: creating an expense together with its shares under the
    three split types, rebuilding the shares when an expense is updated, and a
    user's total owed. The user, group and expense repositories are maps keyed
    by id. Each operation either succeeds or leaves every table unchanged. */
module ExpenseService {
  import opened Wrappers
  import opened Numbers
  import opened Money
  import opened Entities
  import opened ExpenseModel

  const UserNotFound: string := "User not found"
  const GroupNotFound: string := "Group not found"
  const ExpenseNotFound: string := "Expense not found"
  const ValidationFailed: string := "Validation failed"
  const NullValue: string := "NullPointerException"
  const DivisionByZero: string := "Division by zero"
  const PercentageSharesMissing: string := "Percentage shares must be specified"
  const CustomSharesMissing: string := "Custom shares must be specified"

  /** One requested share: the user and, depending on the split type, an
      amount in cents or a percentage in hundredths of a percent. */
  datatype ShareRequest = ShareRequest(userId: int, amount: Option<int>, percentage: Option<int>)

  /** The expense a client asks for; any field may be null. */
  datatype ExpenseRequest = ExpenseRequest(
    description: Option<string>,
    amount: Option<int>,
    paidById: int,
    groupId: int,
    splitType: Option<SplitType>,
    shares: Option<seq<ShareRequest>>)

  /** A share about to be created: its user, its amount (null when a CUSTOM
      request leaves it out) and its percentage. */
  datatype ShareLine = ShareLine(user: User, amount: Option<int>, percentage: Option<int>)

  /** The share lines of a PERCENTAGE or CUSTOM split, one per request in
      order. A request for an unknown user, or a PERCENTAGE request without a
      percentage, fails at the first such request. */
  function LinesFrom(split: SplitType, total: int, reqs: seq<ShareRequest>, users: map<int, User>)
    : (r: Result<seq<ShareLine>>)
    requires split != EQUAL
    ensures r.Ok? <==> forall i | 0 <= i < |reqs| ::
              reqs[i].userId in users && (split == PERCENTAGE ==> reqs[i].percentage.Some?)
    ensures r.Ok? ==> |r.value| == |reqs|
    ensures r.Ok? ==> forall i | 0 <= i < |reqs| :: r.value[i].user == users[reqs[i].userId]
    ensures r.Ok? && split == CUSTOM ==> forall i | 0 <= i < |reqs| ::
              r.value[i].amount == reqs[i].amount && r.value[i].percentage.None?
    ensures r.Ok? && split == PERCENTAGE ==> forall i | 0 <= i < |reqs| ::
              r.value[i].percentage == reqs[i].percentage
              && r.value[i].amount == Some(PercentageShare(total, reqs[i].percentage.value))
  {
    if |reqs| == 0 then Ok([])
    else
      var req := reqs[0];
      if req.userId !in users then Err(UserNotFound + ": " + ShowInt(req.userId))
      else if split == PERCENTAGE && req.percentage.None? then Err(NullValue)
      else
        var line :=
          if split == PERCENTAGE
          then ShareLine(users[req.userId], Some(PercentageShare(total, req.percentage.value)), req.percentage)
          else ShareLine(users[req.userId], req.amount, None);
        match LinesFrom(split, total, reqs[1..], users)
        case Err(e) => Err(e)
        case Ok(rest) =>
          assert forall i | 1 <= i < |reqs| :: reqs[i] == reqs[1..][i - 1];
          Ok([line] + rest)
  }

  /** The share lines of a PERCENTAGE or CUSTOM split; a null or empty request
      list fails before anything else. */
  function RequestedLines(split: SplitType, total: int, reqs: Option<seq<ShareRequest>>, users: map<int, User>)
    : (r: Result<seq<ShareLine>>)
    requires split != EQUAL
    ensures reqs.None? || |reqs.value| == 0 ==> r.Err?
    ensures reqs.Some? && |reqs.value| > 0 ==> r == LinesFrom(split, total, reqs.value, users)
  {
    if reqs.None? || |reqs.value| == 0 then
      Err(if split == PERCENTAGE then PercentageSharesMissing else CustomSharesMissing)
    else LinesFrom(split, total, reqs.value, users)
  }

  /** Why building the shares fails, if it does: the EQUAL split divides by the
      member count, and every share must pass validation (amount present and
      strictly positive). */
  function SharesError(split: SplitType, total: int, members: set<User>,
                       reqs: Option<seq<ShareRequest>>, users: map<int, User>): Option<string>
  {
    if split == EQUAL then
      if |members| == 0 then Some(DivisionByZero)
      else if EqualShare(total, |members|) <= 0 then Some(ValidationFailed)
      else None
    else
      match RequestedLines(split, total, reqs, users)
      case Err(e) => Some(e)
      case Ok(lines) =>
        if forall i | 0 <= i < |lines| :: ValidShareAmount(lines[i].amount) then None
        else Some(ValidationFailed)
  }

  /** The amounts of a list of share lines (a null amount counts as 0). */
  function LineAmounts(lines: seq<ShareLine>): (r: seq<int>)
    ensures |r| == |lines|
    ensures forall i | 0 <= i < |lines| :: r[i] == lines[i].amount.GetOr(0)
  {
    seq(|lines|, i requires 0 <= i < |lines| => lines[i].amount.GetOr(0))
  }

  /** The requested percentages (a null percentage counts as 0). */
  function RequestedPercentages(reqs: seq<ShareRequest>): (r: seq<int>)
    ensures |r| == |reqs|
    ensures forall i | 0 <= i < |reqs| :: r[i] == reqs[i].percentage.GetOr(0)
  {
    seq(|reqs|, i requires 0 <= i < |reqs| => reqs[i].percentage.GetOr(0))
  }

  /** The PERCENTAGE shares add up to `amount * (sum of percentages)` to within
      half a cent per share; the percentages themselves are never checked to
      add up to 100%. */
  lemma PercentageLinesTotal(total: int, reqs: seq<ShareRequest>, users: map<int, User>)
    requires LinesFrom(PERCENTAGE, total, reqs, users).Ok?
    ensures var lines := LinesFrom(PERCENTAGE, total, reqs, users).value;
            -5000 * |reqs| <= WholePercent * Sum(LineAmounts(lines)) - total * Sum(RequestedPercentages(reqs))
                           <= 5000 * |reqs|
  {
    var lines := LinesFrom(PERCENTAGE, total, reqs, users).value;
    var pcts := RequestedPercentages(reqs);
    assert LineAmounts(lines) == PercentageShares(total, pcts);
    PercentageSplitTotalBound(total, pcts);
  }

  /** CUSTOM amounts are taken as given: shares of 0.01 against an expense of
      100.00 are accepted. */
  lemma CustomSumNotChecked(u: User)
    ensures var users := map[u.id := u];
            var r := RequestedLines(CUSTOM, 10000, Some([ShareRequest(u.id, Some(1), None)]), users);
            r.Ok? && LineAmounts(r.value) == [1]
            && SharesError(CUSTOM, 10000, {}, Some([ShareRequest(u.id, Some(1), None)]), users).None?
  {
  }

  /** A PERCENTAGE or CUSTOM split with no requested shares fails, whatever else holds. */
  lemma NoRequestedShares(split: SplitType, total: int, members: set<User>, users: map<int, User>)
    requires split != EQUAL
    ensures SharesError(split, total, members, None, users).Some?
    ensures SharesError(split, total, members, Some([]), users).Some?
  {
  }

  /** An EQUAL split over a group with no members divides by zero; one cent
      split over three members rounds to a zero share, which validation rejects. */
  lemma EqualSplitFailures(total: int, users: map<int, User>, a: User, b: User, c: User)
    requires a != b && b != c && a != c
    ensures SharesError(EQUAL, total, {}, None, users) == Some(DivisionByZero)
    ensures SharesError(EQUAL, 1, {a, b, c}, None, users) == Some(ValidationFailed)
  {
    assert |{a, b, c}| == 3;
  }

  function Elements(ss: seq<ExpenseShare>): set<ExpenseShare> {
    set s | s in ss
  }

  predicate Distinct(ss: seq<ExpenseShare>) {
    forall i, j | 0 <= i < j < |ss| :: ss[i] != ss[j]
  }

  /** `ss` with a share that is not yet in it appended. */
  function AppendShare(ss: seq<ExpenseShare>, s: ExpenseShare): (r: seq<ExpenseShare>)
    requires Distinct(ss) && s !in ss
    ensures r == ss + [s] && Distinct(r)
    ensures Elements(r) == Elements(ss) + {s}
    ensures UsersOf(r) == UsersOf(ss) + {s.user}
  {
    assert Elements(ss + [s]) == Elements(ss) + {s};
    assert (ss + [s])[..|ss|] == ss;
    ss + [s]
  }

  /** The users of a list of shares. */
  function UsersOf(ss: seq<ExpenseShare>): set<User> {
    if ss == [] then {} else UsersOf(ss[..|ss| - 1]) + {ss[|ss| - 1].user}
  }

  lemma {:induction false} UsersOfShared(ss: seq<ExpenseShare>)
    ensures UsersOf(ss) == SharedUsers(Elements(ss))
  {
    if ss != [] {
      var init := ss[..|ss| - 1];
      UsersOfShared(init);
      assert Elements(ss) == Elements(init) + {ss[|ss| - 1]} by {
        assert ss == init + [ss[|ss| - 1]];
      }
    }
  }

  /** A new share of `e` for `user`, attached to `e`. */
  method AttachNewShare(e: Expense, user: User, amount: int, percentage: Option<int>)
      returns (share: ExpenseShare)
    modifies e
    ensures fresh(share)
    ensures share.expense == e && share.user == user
    ensures share.amount == amount && share.percentage == percentage
    ensures e.shares == old(e.shares) + {share}
    ensures e.description == old(e.description) && e.amount == old(e.amount)
    ensures e.splitType == old(e.splitType) && e.updatedAt == old(e.updatedAt)
  {
    share := new ExpenseShare(e, user, amount, percentage);
    e.AddShare(share);
  }

  /** `createEqualShares`: one share per member, each of `total / |members|`
      rounded half-up to the cent, added to `e`. */
  method CreateEqualShares(e: Expense, members: set<User>, total: int)
      returns (ghost created: seq<ExpenseShare>)
    requires |members| > 0
    modifies e
    ensures e.shares == old(e.shares) + Elements(created)
    ensures Distinct(created) && |created| == |members|
    ensures forall i | 0 <= i < |created| :: fresh(created[i])
    ensures forall i | 0 <= i < |created| :: created[i].expense == e
    ensures forall i | 0 <= i < |created| ::
              created[i].amount == EqualShare(total, |members|) && created[i].percentage.None?
    ensures SharedUsers(Elements(created)) == members
    ensures e.description == old(e.description) && e.amount == old(e.amount)
    ensures e.splitType == old(e.splitType) && e.updatedAt == old(e.updatedAt)
  {
    var shareAmount := EqualShare(total, |members|);
    var rest := members;
    created := [];
    while rest != {}
      invariant rest <= members
      invariant |created| + |rest| == |members|
      invariant e.shares == old(e.shares) + Elements(created)
      invariant Distinct(created)
      invariant forall i | 0 <= i < |created| ::
                  fresh(created[i]) && created[i].expense == e
                  && created[i].amount == shareAmount && created[i].percentage.None?
      invariant UsersOf(created) == members - rest
      invariant e.description == old(e.description) && e.amount == old(e.amount)
      invariant e.splitType == old(e.splitType) && e.updatedAt == old(e.updatedAt)
      decreases |rest|
    {
      var member :| member in rest;
      var share := AttachNewShare(e, member, shareAmount, None);
      created := AppendShare(created, share);
      assert members - (rest - {member}) == (members - rest) + {member};
      assert |rest - {member}| == |rest| - 1;
      rest := rest - {member};
    }
    UsersOfShared(created);
  }

  /** The loop of `createPercentageShares` and `createCustomShares`: one share
      per computed line, added to `e` in order. */
  method CreateLineShares(e: Expense, lines: seq<ShareLine>)
      returns (ghost created: seq<ExpenseShare>)
    requires forall i | 0 <= i < |lines| :: lines[i].amount.Some?
    modifies e
    ensures e.shares == old(e.shares) + Elements(created)
    ensures Distinct(created) && |created| == |lines|
    ensures forall i | 0 <= i < |created| :: fresh(created[i])
    ensures forall i | 0 <= i < |created| :: created[i].expense == e
    ensures forall i | 0 <= i < |created| ::
              created[i].user == lines[i].user && Some(created[i].amount) == lines[i].amount
              && created[i].percentage == lines[i].percentage
    ensures e.description == old(e.description) && e.amount == old(e.amount)
    ensures e.splitType == old(e.splitType) && e.updatedAt == old(e.updatedAt)
  {
    created := [];
    var i := 0;
    while i < |lines|
      invariant 0 <= i <= |lines| && |created| == i
      invariant e.shares == old(e.shares) + Elements(created)
      invariant Distinct(created)
      invariant forall k | 0 <= k < |created| :: fresh(created[k])
      invariant forall k | 0 <= k < |created| :: created[k].expense == e
      invariant forall k | 0 <= k < |created| ::
                  created[k].user == lines[k].user && Some(created[k].amount) == lines[k].amount
                  && created[k].percentage == lines[k].percentage
      invariant e.description == old(e.description) && e.amount == old(e.amount)
      invariant e.splitType == old(e.splitType) && e.updatedAt == old(e.updatedAt)
    {
      var line := lines[i];
      var share := AttachNewShare(e, line.user, line.amount.value, line.percentage);
      created := created + [share];
      i := i + 1;
    }
  }

  /** `createExpenseShares`: the shares of the split type, added to `e`, once
      the checks of `SharesError` have passed. */
  method BuildShares(e: Expense, split: SplitType, total: int, members: set<User>,
                     reqs: Option<seq<ShareRequest>>, users: map<int, User>)
      returns (ghost created: seq<ExpenseShare>)
    requires SharesError(split, total, members, reqs, users).None?
    modifies e
    ensures e.shares == old(e.shares) + Elements(created) && Distinct(created)
    ensures forall i | 0 <= i < |created| :: fresh(created[i]) && created[i].expense == e
    ensures forall i | 0 <= i < |created| :: created[i].amount > 0
    ensures split == EQUAL ==>
              && SharedUsers(Elements(created)) == members && |Elements(created)| == |members|
              && forall s | s in Elements(created) ::
                   s.amount == EqualShare(total, |members|) && s.percentage.None?
    ensures split != EQUAL ==>
              var lines := RequestedLines(split, total, reqs, users).value;
              && |created| == |lines|
              && forall i | 0 <= i < |lines| ::
                   created[i].user == lines[i].user && Some(created[i].amount) == lines[i].amount
                   && created[i].percentage == lines[i].percentage
    ensures e.description == old(e.description) && e.amount == old(e.amount)
    ensures e.splitType == old(e.splitType) && e.updatedAt == old(e.updatedAt)
  {
    if split == EQUAL {
      created := CreateEqualShares(e, members, total);
      DistinctElementsCount(created);
    } else {
      var lines := RequestedLines(split, total, reqs, users).value;
      created := CreateLineShares(e, lines);
    }
  }

  /** The field writes of `updateExpense` before the shares are rebuilt: the
      non-null description, amount and split type replace the old ones, the
      share set is cleared, and `updatedAt` moves to `now` when one of the
      three fields changed. */
  method ReplaceFields(e: Expense, req: ExpenseRequest, now: int)
    modifies e
    ensures e.description == req.description.GetOr(old(e.description))
    ensures e.amount == req.amount.GetOr(old(e.amount))
    ensures e.splitType == req.splitType.GetOr(old(e.splitType))
    ensures e.shares == {}
    ensures e.updatedAt == (if e.description == old(e.description) && e.amount == old(e.amount)
                               && e.splitType == old(e.splitType)
                            then old(e.updatedAt) else now)
  {
    var changed := req.description.GetOr(e.description) != e.description
                   || req.amount.GetOr(e.amount) != e.amount
                   || req.splitType.GetOr(e.splitType) != e.splitType;
    e.description := req.description.GetOr(e.description);
    e.amount := req.amount.GetOr(e.amount);
    e.splitType := req.splitType.GetOr(e.splitType);
    e.shares := {};
    if changed {
      e.updatedAt := now;
    }
  }

  /** The changes `updateExpense` makes once its checks have passed: the new
      fields, then the share set rebuilt from scratch for them. */
  method RebuildExpense(e: Expense, req: ExpenseRequest, now: int, users: map<int, User>)
      returns (ghost created: seq<ExpenseShare>)
    requires SharesError(req.splitType.GetOr(e.splitType), req.amount.GetOr(e.amount),
                         e.group.members, req.shares, users).None?
    modifies e
    ensures e.description == req.description.GetOr(old(e.description))
    ensures e.amount == req.amount.GetOr(old(e.amount))
    ensures e.splitType == req.splitType.GetOr(old(e.splitType))
    ensures e.updatedAt == (if e.description == old(e.description) && e.amount == old(e.amount)
                               && e.splitType == old(e.splitType)
                            then old(e.updatedAt) else now)
    ensures e.shares == Elements(created) && Distinct(created)
    ensures forall s | s in e.shares :: s.amount > 0
    ensures forall s | s in old(e.shares) :: s !in e.shares
    ensures forall i | 0 <= i < |created| :: fresh(created[i]) && created[i].expense == e
    ensures e.splitType == EQUAL ==>
              var members := e.group.members;
              && SharedUsers(e.shares) == members && |e.shares| == |members|
              && forall s | s in e.shares :: s.amount == EqualShare(e.amount, |members|) && s.percentage.None?
    ensures e.splitType != EQUAL ==>
              var lines := RequestedLines(e.splitType, e.amount, req.shares, users).value;
              && |created| == |lines|
              && forall i | 0 <= i < |lines| ::
                   created[i].user == lines[i].user && Some(created[i].amount) == lines[i].amount
                   && created[i].percentage == lines[i].percentage
  {
    ReplaceFields(e, req, now);
    created := BuildShares(e, e.splitType, e.amount, e.group.members, req.shares, users);
    assert forall s | s in e.shares :: s in Elements(created);
  }

  class ExpenseService {
    var users: map<int, User>
    var groups: map<int, Group>
    var expenses: map<int, Expense>
    var nextExpenseId: int

    /** Ids match their keys, expense ids are below the next id to issue, and
        every stored share passed validation. */
    ghost predicate Valid()
      reads this, expenses.Values
    {
      && (forall id | id in users :: users[id].id == id)
      && (forall id | id in groups :: groups[id].id == id)
      && (forall id | id in expenses :: id < nextExpenseId)
      && (forall e, s | e in expenses.Values && s in e.shares :: s.amount > 0)
    }

    constructor(users: map<int, User>, groups: map<int, Group>)
      requires forall id | id in users :: users[id].id == id
      requires forall id | id in groups :: groups[id].id == id
      ensures Valid()
      ensures this.users == users && this.groups == groups
      ensures expenses == map[] && nextExpenseId == 1
    {
      this.users := users;
      this.groups := groups;
      expenses := map[];
      nextExpenseId := 1;
    }

    /** Why `createExpense` fails, if it does, in the order the checks happen:
        payer, group, the expense's own validation on save, a null split type,
        then the shares. */
    function CreateError(req: ExpenseRequest): Option<string>
      reads this, groups.Values
    {
      if req.paidById !in users then Some(UserNotFound)
      else if req.groupId !in groups then Some(GroupNotFound)
      else if req.description.None? || req.amount.None?
              || !ValidExpenseFields(req.description.value, req.amount.value) then Some(ValidationFailed)
      else if req.splitType.None? then Some(NullValue)
      else SharesError(req.splitType.value, req.amount.value, groups[req.groupId].members, req.shares, users)
    }

    /** `createExpense`: validates everything first, then stores a new expense
        with its shares under the next id. */
    method CreateExpense(req: ExpenseRequest, now: int) returns (r: Result<Expense>, ghost created: seq<ExpenseShare>)
      requires Valid()
      modifies this
      ensures Valid()
      ensures users == old(users) && groups == old(groups)
      ensures r.Err? <==> CreateError(req).Some?
      ensures r.Err? ==> r.error == CreateError(req).value
      ensures r.Err? ==> expenses == old(expenses) && nextExpenseId == old(nextExpenseId)
      ensures r.Ok? ==> fresh(r.value)
      ensures r.Ok? ==> expenses == old(expenses)[old(nextExpenseId) := r.value]
                        && nextExpenseId == old(nextExpenseId) + 1
      ensures r.Ok? ==> var e := r.value;
                        && Some(e.description) == req.description && Some(e.amount) == req.amount
                        && e.paidBy == users[req.paidById] && e.group == groups[req.groupId]
                        && Some(e.splitType) == req.splitType && e.createdAt == now
                        && e.shares == Elements(created) && Distinct(created)
                        && (forall i | 0 <= i < |created| :: fresh(created[i]) && created[i].expense == e)
      ensures r.Ok? && req.splitType == Some(EQUAL) ==>
                var members := groups[req.groupId].members;
                && SharedUsers(r.value.shares) == members && |r.value.shares| == |members|
                && forall s | s in r.value.shares ::
                     s.amount == EqualShare(req.amount.value, |members|) && s.percentage.None?
      ensures r.Ok? && req.splitType != Some(EQUAL) ==>
                var lines := RequestedLines(req.splitType.value, req.amount.value, req.shares, users).value;
                && |created| == |lines|
                && forall i | 0 <= i < |lines| ::
                     created[i].user == lines[i].user && Some(created[i].amount) == lines[i].amount
                     && created[i].percentage == lines[i].percentage
    {
      created := [];
      var err := CreateError(req);
      if err.Some? {
        return Err(err.value), created;
      }
      var split := req.splitType.value;
      var total := req.amount.value;
      var group := groups[req.groupId];
      var e := new Expense(req.description.value, total, users[req.paidById], group, split, now);
      created := BuildShares(e, split, total, group.members, req.shares, users);
      expenses := expenses[nextExpenseId := e];
      nextExpenseId := nextExpenseId + 1;
      r := Ok(e);
    }

    /** Why `updateExpense` fails, if it does: an unknown id, then the rebuilt
        shares, then validation of the updated expense on flush. */
    function UpdateError(id: int, req: ExpenseRequest): Option<string>
      reads this, expenses.Values, set e | e in expenses.Values :: e.group
    {
      if id !in expenses then Some(ExpenseNotFound)
      else
        var e := expenses[id];
        var description := req.description.GetOr(e.description);
        var total := req.amount.GetOr(e.amount);
        var split := req.splitType.GetOr(e.splitType);
        var sharesError := SharesError(split, total, e.group.members, req.shares, users);
        if sharesError.Some? then sharesError
        else if !ValidExpenseFields(description, total) then Some(ValidationFailed)
        else None
    }

    /** `updateExpense`: replaces the non-null description, amount and split
        type, then clears the share set and rebuilds it, so that no earlier
        share survives. Saving stamps `updatedAt` only when one of those three
        fields changed: the share set is the inverse side of its mapping, so
        rebuilding it alone does not make the expense dirty. */
    method UpdateExpense(id: int, req: ExpenseRequest, now: int) returns (r: Result<Expense>, ghost created: seq<ExpenseShare>)
      requires Valid()
      modifies if id in expenses then {expenses[id]} else {}
      ensures Valid()
      ensures r.Err? <==> old(UpdateError(id, req)).Some?
      ensures r.Err? ==> r.error == old(UpdateError(id, req)).value
      ensures r.Err? && id in expenses ==> unchanged(expenses[id])
      ensures r.Ok? ==> id in expenses && r.value == expenses[id]
      ensures r.Ok? ==> var e := r.value;
                        && e.description == req.description.GetOr(old(e.description))
                        && e.amount == req.amount.GetOr(old(e.amount))
                        && e.splitType == req.splitType.GetOr(old(e.splitType))
                        && e.updatedAt == (if e.description == old(e.description) && e.amount == old(e.amount)
                                              && e.splitType == old(e.splitType)
                                           then old(e.updatedAt) else now)
                        && e.shares == Elements(created) && Distinct(created)
                        && (forall s | s in old(e.shares) :: s !in e.shares)
                        && (forall i | 0 <= i < |created| :: fresh(created[i]) && created[i].expense == e)
      ensures r.Ok? && r.value.splitType == EQUAL ==>
                var members := r.value.group.members;
                && SharedUsers(r.value.shares) == members && |r.value.shares| == |members|
                && forall s | s in r.value.shares ::
                     s.amount == EqualShare(r.value.amount, |members|) && s.percentage.None?
      ensures r.Ok? && r.value.splitType != EQUAL ==>
                var lines := RequestedLines(r.value.splitType, r.value.amount, req.shares, users).value;
                && |created| == |lines|
                && forall i | 0 <= i < |lines| ::
                     created[i].user == lines[i].user && Some(created[i].amount) == lines[i].amount
                     && created[i].percentage == lines[i].percentage
    {
      created := [];
      var err := UpdateError(id, req);
      if err.Some? {
        return Err(err.value), created;
      }
      var e := expenses[id];
      created := RebuildExpense(e, req, now, users);
      r := Ok(e);
    }

    /** The shares that belong to the user with this id, over all expenses. */
    ghost function SharesOf(userId: int): set<ExpenseShare>
      reads this, expenses.Values
    {
      set e, s | e in expenses.Values && s in e.shares && s.user.id == userId :: s
    }

    /** `getTotalOwedByUser`: the sum of the amounts of all the user's shares,
        0 when there are none. */
    ghost function TotalOwedByUser(userId: int): (total: int)
      reads this, expenses.Values
      ensures SharesOf(userId) == {} ==> total == 0
    {
      SumAmounts(SharesOf(userId))
    }

    /** The total owed is never negative, and it is 0 exactly when the user has
        no share at all, since every stored share is strictly positive. */
    lemma TotalOwedFacts(userId: int)
      requires Valid()
      ensures TotalOwedByUser(userId) >= 0
      ensures TotalOwedByUser(userId) == 0 <==> SharesOf(userId) == {}
    {
      SumAmountsPositive(SharesOf(userId));
    }
  }

  /** Distinct shares are as many as their set. */
  lemma {:induction false} DistinctElementsCount(ss: seq<ExpenseShare>)
    requires Distinct(ss)
    ensures |Elements(ss)| == |ss|
  {
    if |ss| > 0 {
      var init := ss[..|ss| - 1];
      DistinctElementsCount(init);
      assert Elements(ss) == Elements(init) + {ss[|ss| - 1]};
      assert ss[|ss| - 1] !in Elements(init);
    }
  }
}
