/** `ExpensesState`: the client's expense list with its loading and error
    flags and the active group, and the balances derived from it for the
    logged-in user. An HTTP exchange is one step here: the response, success
    or failure, is a parameter. */
module ExpensesState {
  import opened Wrappers
  import opened Sequences
  import opened ClientModels

  const LoadFailed: string := "Failed to load expenses"
  const CreateFailed: string := "Failed to create expense"

  /** The test `find` applies to a share: the user's and still unpaid. */
  function UnpaidShareOf(userId: string): ShareView -> bool {
    (s: ShareView) => s.user.id == userId && !s.isPaid
  }

  /** What the user owes for one expense: nothing when they paid it, else the
      amount of their first unpaid share, or nothing when there is none. */
  function OweIn(e: ClientExpense, userId: string): int {
    if e.paidBy.id == userId then 0
    else match Find(e.shares, UnpaidShareOf(userId))
      case None => 0
      case Some(s) => s.amount
  }

  /** `youOwe`: the sum of `OweIn` over the expenses, in order. */
  function OweTotal(es: seq<ClientExpense>, userId: string): int {
    if |es| == 0 then 0 else OweTotal(es[..|es| - 1], userId) + OweIn(es[|es| - 1], userId)
  }

  /** The unpaid shares of users other than `userId`, summed. */
  function UnpaidOthers(shares: seq<ShareView>, userId: string): int {
    if |shares| == 0 then 0
    else UnpaidOthers(shares[..|shares| - 1], userId)
         + (var s := shares[|shares| - 1]; if s.user.id != userId && !s.isPaid then s.amount else 0)
  }

  /** `youAreOwed`: over the expenses the user paid, the unpaid shares of the
      other users, summed. */
  function OwedTotal(es: seq<ClientExpense>, userId: string): int {
    if |es| == 0 then 0
    else OwedTotal(es[..|es| - 1], userId)
         + (var e := es[|es| - 1]; if e.paidBy.id == userId then UnpaidOthers(e.shares, userId) else 0)
  }

  /** `filter` by payer then `flatMap` to the shares: the shares of the
      expenses `userId` paid, in order. */
  function SharesOfPaid(es: seq<ClientExpense>, userId: string): seq<ShareView> {
    if |es| == 0 then []
    else SharesOfPaid(es[..|es| - 1], userId)
         + (var e := es[|es| - 1]; if e.paidBy.id == userId then e.shares else [])
  }

  /** The second `filter` of `youAreOwed`: another user's unpaid share. */
  function UnpaidOtherTest(userId: string): ShareView -> bool {
    (s: ShareView) => s.user.id != userId && !s.isPaid
  }

  /** The final `reduce`: the amounts summed. */
  function AmountTotal(ss: seq<ShareView>): int {
    if |ss| == 0 then 0 else AmountTotal(ss[..|ss| - 1]) + ss[|ss| - 1].amount
  }

  lemma {:induction false} AmountTotalConcat(a: seq<ShareView>, b: seq<ShareView>)
    ensures AmountTotal(a + b) == AmountTotal(a) + AmountTotal(b)
    decreases |b|
  {
    if |b| == 0 {
      assert a + b == a;
    } else {
      var init := b[..|b| - 1];
      AmountTotalConcat(a, init);
      assert (a + b)[..|a + b| - 1] == a + init;
    }
  }

  /** Summing the unpaid shares of the others is filtering, then summing. */
  lemma {:induction false} UnpaidOthersIsFilter(shares: seq<ShareView>, userId: string)
    ensures UnpaidOthers(shares, userId) == AmountTotal(Filter(shares, UnpaidOtherTest(userId)))
  {
    if |shares| > 0 {
      var init := shares[..|shares| - 1];
      var last := shares[|shares| - 1];
      UnpaidOthersIsFilter(init, userId);
      FilterSnoc(shares, UnpaidOtherTest(userId));
      var kept := if UnpaidOtherTest(userId)(last) then [last] else [];
      AmountTotalConcat(Filter(init, UnpaidOtherTest(userId)), kept);
      assert AmountTotal(kept) == (if last.user.id != userId && !last.isPaid then last.amount else 0) by {
        if UnpaidOtherTest(userId)(last) {
          assert kept[..0] == [];
        }
      }
    }
  }

  /** `youAreOwed` as the source computes it (filter, flatMap, filter,
      reduce) is the total `OwedTotal` defines expense by expense. */
  lemma {:induction false} OwedTotalIsPipeline(es: seq<ClientExpense>, userId: string)
    ensures OwedTotal(es, userId) == AmountTotal(Filter(SharesOfPaid(es, userId), UnpaidOtherTest(userId)))
  {
    if |es| > 0 {
      var init := es[..|es| - 1];
      var e := es[|es| - 1];
      var own := if e.paidBy.id == userId then e.shares else [];
      OwedTotalIsPipeline(init, userId);
      FilterConcat(SharesOfPaid(init, userId), own, UnpaidOtherTest(userId));
      AmountTotalConcat(Filter(SharesOfPaid(init, userId), UnpaidOtherTest(userId)), Filter(own, UnpaidOtherTest(userId)));
      UnpaidOthersIsFilter(own, userId);
      if e.paidBy.id != userId {
        assert Filter(own, UnpaidOtherTest(userId)) == [];
        assert UnpaidOthers(own, userId) == 0;
      }
    }
  }

  /** The list after a successful load for `groupId`: the expenses of other
      groups (and of no group), in their order, then the fetched ones. */
  function Merge(current: seq<ClientExpense>, groupId: string, fetched: seq<ClientExpense>): seq<ClientExpense> {
    Filter(current, OtherGroupTest(groupId)) + fetched
  }

  class ExpensesState {
    var expenses: seq<ClientExpense>
    var loading: bool
    var error: Option<string>
    var activeGroupId: Option<string>

    constructor()
      ensures expenses == [] && !loading && error.None? && activeGroupId.None?
    {
      expenses := [];
      loading := false;
      error := None;
      activeGroupId := None;
    }

    /** `activeGroupExpenses`: nothing without an active group (an empty id
        counts as none), else exactly the expenses of that group, in order. */
    function ActiveGroupExpenses(): (r: seq<ClientExpense>)
      reads this
      ensures activeGroupId.None? || activeGroupId.value == "" ==> r == []
      ensures activeGroupId.Some? && activeGroupId.value != "" ==>
                && (forall i | 0 <= i < |r| :: r[i] in expenses && InGroup(r[i], activeGroupId.value))
                && (forall i | 0 <= i < |expenses| :: InGroup(expenses[i], activeGroupId.value) ==> expenses[i] in r)
                && r == Filter(expenses, InGroupTest(activeGroupId.value))
    {
      if activeGroupId.None? || activeGroupId.value == "" then []
      else
        FilterMembers(expenses, InGroupTest(activeGroupId.value));
        Filter(expenses, InGroupTest(activeGroupId.value))
    }

    /** `youOwe`, accumulated over the list; 0 with nobody logged in. */
    method YouOwe(currentUser: Option<ClientUser>) returns (total: int)
      ensures currentUser.None? ==> total == 0
      ensures currentUser.Some? ==> total == OweTotal(expenses, currentUser.value.id)
    {
      if currentUser.None? {
        return 0;
      }
      var userId := currentUser.value.id;
      total := 0;
      var i := 0;
      while i < |expenses|
        invariant 0 <= i <= |expenses|
        invariant total == OweTotal(expenses[..i], userId)
      {
        var e := expenses[i];
        if e.paidBy.id != userId {
          var share := Find(e.shares, UnpaidShareOf(userId));
          if share.Some? {
            total := total + share.value.amount;
          }
        }
        assert expenses[..i + 1][..i] == expenses[..i];
        i := i + 1;
      }
      assert expenses[..i] == expenses;
    }

    /** `youAreOwed`; 0 with nobody logged in. */
    function YouAreOwed(currentUser: Option<ClientUser>): (r: int)
      reads this
      ensures currentUser.None? ==> r == 0
      ensures currentUser.Some? ==>
                r == AmountTotal(Filter(SharesOfPaid(expenses, currentUser.value.id), UnpaidOtherTest(currentUser.value.id)))
    {
      if currentUser.None? then 0
      else
        OwedTotalIsPipeline(expenses, currentUser.value.id);
        OwedTotal(expenses, currentUser.value.id)
    }

    /** `netBalance`: what the user is owed minus what they owe. */
    function NetBalance(currentUser: Option<ClientUser>): (r: int)
      reads this
      ensures currentUser.None? ==> r == 0
    {
      YouAreOwed(currentUser) - (if currentUser.None? then 0 else OweTotal(expenses, currentUser.value.id))
    }

    method SetActiveGroupId(groupId: Option<string>)
      modifies this
      ensures activeGroupId == groupId
      ensures expenses == old(expenses) && loading == old(loading) && error == old(error)
    {
      activeGroupId := groupId;
    }

    /** `loadGroupExpenses`: the group becomes active; on success the list is
        merged with the fetched expenses and they are returned, on failure
        the list stays, the error is set and nothing is returned. */
    method LoadGroupExpenses(groupId: string, response: Result<seq<ClientExpense>>) returns (r: seq<ClientExpense>)
      modifies this
      ensures activeGroupId == Some(groupId) && !loading
      ensures response.Ok? ==> expenses == Merge(old(expenses), groupId, response.value) && error.None?
      ensures response.Ok? ==> r == response.value
      ensures response.Err? ==> expenses == old(expenses) && error == Some(LoadFailed) && r == []
    {
      loading := true;
      error := None;
      SetActiveGroupId(Some(groupId));
      if response.Ok? {
        expenses := Filter(expenses, OtherGroupTest(groupId)) + response.value;
        loading := false;
        r := response.value;
      } else {
        error := Some(LoadFailed);
        loading := false;
        r := [];
      }
    }

    /** `createExpense`: on success the new expense is appended; on failure
        the list stays, the error is set and the failure is passed on. */
    method CreateExpense(response: Result<ClientExpense>) returns (r: Result<ClientExpense>)
      modifies this
      ensures !loading && activeGroupId == old(activeGroupId) && r == response
      ensures response.Ok? ==> expenses == old(expenses) + [response.value] && error.None?
      ensures response.Err? ==> expenses == old(expenses) && error == Some(CreateFailed)
    {
      loading := true;
      error := None;
      if response.Ok? {
        expenses := expenses + [response.value];
        loading := false;
      } else {
        error := Some(CreateFailed);
        loading := false;
      }
      r := response;
    }
  }

  /** After loading a group whose fetched expenses all belong to it, the
      active-group view is exactly the fetched list, and the expenses of
      every other group are kept in their order. */
  lemma MergeShowsFetched(current: seq<ClientExpense>, groupId: string, fetched: seq<ClientExpense>)
    requires forall i | 0 <= i < |fetched| :: InGroup(fetched[i], groupId)
    ensures Filter(Merge(current, groupId, fetched), InGroupTest(groupId)) == fetched
    ensures Filter(Merge(current, groupId, fetched), OtherGroupTest(groupId))
            == Filter(current, OtherGroupTest(groupId))
  {
    var others := Filter(current, OtherGroupTest(groupId));
    FilterMembers(current, OtherGroupTest(groupId));
    FilterConcat(others, fetched, InGroupTest(groupId));
    FilterNone(others, InGroupTest(groupId));
    FilterAll(fetched, InGroupTest(groupId));
    FilterConcat(others, fetched, OtherGroupTest(groupId));
    FilterAll(others, OtherGroupTest(groupId));
    FilterNone(fetched, OtherGroupTest(groupId));
  }

  /** Loading the same group with the same response twice gives the list one load gives. */
  lemma MergeIdempotent(current: seq<ClientExpense>, groupId: string, fetched: seq<ClientExpense>)
    requires forall i | 0 <= i < |fetched| :: InGroup(fetched[i], groupId)
    ensures Merge(Merge(current, groupId, fetched), groupId, fetched) == Merge(current, groupId, fetched)
  {
    MergeShowsFetched(current, groupId, fetched);
  }

  /** Loading a group, then reading the active-group view. */
  method LoadThenView(s: ExpensesState, groupId: string, fetched: seq<ClientExpense>)
      returns (view: seq<ClientExpense>)
    requires groupId != ""
    requires forall i | 0 <= i < |fetched| :: InGroup(fetched[i], groupId)
    modifies s
    ensures view == fetched
  {
    var _ := s.LoadGroupExpenses(groupId, Ok(fetched));
    MergeShowsFetched(old(s.expenses), groupId, fetched);
    view := s.ActiveGroupExpenses();
  }

  /** When every share of every expense is paid, nobody owes or is owed anything. */
  lemma {:induction false} SettledBalancesAreZero(es: seq<ClientExpense>, userId: string)
    requires forall i, j | 0 <= i < |es| && 0 <= j < |es[i].shares| :: es[i].shares[j].isPaid
    ensures OweTotal(es, userId) == 0 && OwedTotal(es, userId) == 0
  {
    if |es| > 0 {
      var init, e := es[..|es| - 1], es[|es| - 1];
      assert forall i, j | 0 <= i < |init| && 0 <= j < |init[i].shares| :: init[i].shares[j].isPaid by {
        forall i, j | 0 <= i < |init| && 0 <= j < |init[i].shares| ensures init[i].shares[j].isPaid {
          assert init[i] == es[i];
        }
      }
      SettledBalancesAreZero(init, userId);
      AllPaidUnpaidOthers(e.shares, userId);
    }
  }

  lemma {:induction false} AllPaidUnpaidOthers(shares: seq<ShareView>, userId: string)
    requires forall j | 0 <= j < |shares| :: shares[j].isPaid
    ensures UnpaidOthers(shares, userId) == 0
  {
    if |shares| > 0 {
      AllPaidUnpaidOthers(shares[..|shares| - 1], userId);
    }
  }

  /** The list with share `j` of expense `i` marked paid. */
  function MarkPaid(es: seq<ClientExpense>, i: nat, j: nat): seq<ClientExpense>
    requires i < |es| && j < |es[i].shares|
  {
    var e := es[i];
    es[i := e.(shares := e.shares[j := e.shares[j].(isPaid := true)])]
  }

  lemma {:induction false} MarkPaidUnpaidOthers(shares: seq<ShareView>, j: nat, userId: string)
    requires j < |shares| && shares[j].amount >= 0
    ensures UnpaidOthers(shares[j := shares[j].(isPaid := true)], userId) <= UnpaidOthers(shares, userId)
  {
    var t := shares[j := shares[j].(isPaid := true)];
    if j < |shares| - 1 {
      MarkPaidUnpaidOthers(shares[..|shares| - 1], j, userId);
      assert t[..|t| - 1] == shares[..|shares| - 1][j := shares[j].(isPaid := true)];
    } else {
      assert t[..|t| - 1] == shares[..|shares| - 1];
    }
  }

  /** Marking a share of non-negative amount paid never increases what the
      user is owed. */
  lemma {:induction false} MarkPaidOwedNeverIncreases(es: seq<ClientExpense>, i: nat, j: nat, userId: string)
    requires i < |es| && j < |es[i].shares| && es[i].shares[j].amount >= 0
    ensures OwedTotal(MarkPaid(es, i, j), userId) <= OwedTotal(es, userId)
  {
    var m := MarkPaid(es, i, j);
    if i < |es| - 1 {
      MarkPaidOwedNeverIncreases(es[..|es| - 1], i, j, userId);
      assert m[..|m| - 1] == MarkPaid(es[..|es| - 1], i, j);
    } else {
      assert m[..|m| - 1] == es[..|es| - 1];
      MarkPaidUnpaidOthers(es[i].shares, j, userId);
    }
  }

  /** Marking a share of non-negative amount paid never increases what the
      user owes, as long as the user holds at most that one share in the
      expense (`find` takes the first unpaid share, so a second share of the
      same user would come forward). */
  lemma {:induction false} MarkPaidOweNeverIncreases(es: seq<ClientExpense>, i: nat, j: nat, userId: string)
    requires i < |es| && j < |es[i].shares| && es[i].shares[j].amount >= 0
    requires forall k | 0 <= k < |es[i].shares| && k != j :: es[i].shares[k].user.id != es[i].shares[j].user.id
    ensures OweTotal(MarkPaid(es, i, j), userId) <= OweTotal(es, userId)
  {
    var m := MarkPaid(es, i, j);
    if i < |es| - 1 {
      MarkPaidOweNeverIncreases(es[..|es| - 1], i, j, userId);
      assert m[..|m| - 1] == MarkPaid(es[..|es| - 1], i, j);
    } else {
      assert m[..|m| - 1] == es[..|es| - 1];
      var e, e' := es[i], m[i];
      var p := UnpaidShareOf(userId);
      if e.paidBy.id != userId && e.shares[j].user.id == userId {
        assert forall k | 0 <= k < |e'.shares| :: !p(e'.shares[k]);
      } else if e.paidBy.id != userId {
        assert forall k | 0 <= k < |e.shares| :: p(e.shares[k]) == p(e'.shares[k]);
        SameTestSameFind(e.shares, e'.shares, p);
      }
    }
  }

  lemma {:induction false} SameTestSameFind(a: seq<ShareView>, b: seq<ShareView>, p: ShareView -> bool)
    requires |a| == |b| && forall k | 0 <= k < |a| :: p(a[k]) == p(b[k])
    ensures FindIndex(a, p) == FindIndex(b, p)
  {
    if |a| > 0 {
      SameTestSameFind(a[1..], b[1..], p);
    }
  }

  /** With two unpaid shares of one user in an expense someone else paid,
      marking the first one paid brings the second forward: what the user
      owes goes from 10 to 50 cents. */
  lemma SecondShareComesForward(payer: ClientUser, u: ClientUser)
    requires payer.id != u.id
    ensures
      var e := ClientExpense("e", "two shares", 60, "USD", payer, 0, 0, None, OtherCategory,
                             [ShareView(u, 10, false), ShareView(u, 50, false)]);
      OweTotal([e], u.id) == 10 && OweTotal(MarkPaid([e], 0, 0), u.id) == 50
  {
    var e := ClientExpense("e", "two shares", 60, "USD", payer, 0, 0, None, OtherCategory,
                           [ShareView(u, 10, false), ShareView(u, 50, false)]);
    var m := MarkPaid([e], 0, 0);
    assert [e][..0] == [] && m[..0] == [];
    assert FindIndex(m[0].shares, UnpaidShareOf(u.id)) == Some(1);
  }
}
