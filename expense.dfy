/** The persistent `Expense` and `ExpenseShare` entities. An expense owns a set
    of shares; each share points back at its expense. Shares are compared by
    identity (the share class does not define equality), so a set of shares is
    a set of objects. */
module ExpenseModel {
  import opened Wrappers
  import opened Strings
  import opened Entities

  /** How an expense is divided among users. */
  datatype SplitType = EQUAL | PERCENTAGE | CUSTOM

  /** The name stored in the database column (enum stored as its name). */
  function SplitTypeName(t: SplitType): string {
    match t
    case EQUAL => "EQUAL"
    case PERCENTAGE => "PERCENTAGE"
    case CUSTOM => "CUSTOM"
  }

  /** `SplitType.valueOf`: only the three exact names are accepted. */
  function ParseSplitType(s: string): (r: Option<SplitType>)
    ensures r.Some? ==> SplitTypeName(r.value) == s
  {
    if s == "EQUAL" then Some(EQUAL)
    else if s == "PERCENTAGE" then Some(PERCENTAGE)
    else if s == "CUSTOM" then Some(CUSTOM)
    else None
  }

  /** Storing a split type and reading it back gives the same split type, and
      every other string is rejected. */
  lemma SplitTypeRoundTrip(t: SplitType, s: string)
    ensures ParseSplitType(SplitTypeName(t)) == Some(t)
    ensures s != "EQUAL" && s != "PERCENTAGE" && s != "CUSTOM" ==> ParseSplitType(s).None?
  {
  }

  /** Bean validation of an expense: the description is not blank and has at
      most 200 characters, and the amount is strictly positive. */
  predicate ValidExpenseFields(description: string, amount: int) {
    !IsBlank(description) && |description| <= 200 && amount > 0
  }

  /** Bean validation of a share: the amount is present and strictly positive. */
  predicate ValidShareAmount(amount: Option<int>) {
    amount.Some? && amount.value > 0
  }

  class ExpenseShare {
    var expense: Expense?
    const user: User
    const amount: int
    const percentage: Option<int>

    constructor(expense: Expense?, user: User, amount: int, percentage: Option<int>)
      ensures this.expense == expense && this.user == user
      ensures this.amount == amount && this.percentage == percentage
    {
      this.expense := expense;
      this.user := user;
      this.amount := amount;
      this.percentage := percentage;
    }
  }

  class Expense {
    var description: string
    var amount: int
    const paidBy: User
    const group: Group
    var splitType: SplitType
    var shares: set<ExpenseShare>
    const date: int
    const createdAt: int
    var updatedAt: int

    /** `new Expense(description, amount, paidBy, group, splitType)`: the given
        values, no shares, and the three timestamps set to `now`. */
    constructor(description: string, amount: int, paidBy: User, group: Group,
                splitType: SplitType, now: int)
      ensures this.description == description && this.amount == amount
      ensures this.paidBy == paidBy && this.group == group && this.splitType == splitType
      ensures shares == {}
      ensures date == now && createdAt == now && updatedAt == now
    {
      this.description := description;
      this.amount := amount;
      this.paidBy := paidBy;
      this.group := group;
      this.splitType := splitType;
      shares := {};
      date := now;
      createdAt := now;
      updatedAt := now;
    }

    /** Puts `share` in the share set and points it back at this expense. */
    method AddShare(share: ExpenseShare)
      modifies this, share
      ensures shares == old(shares) + {share}
      ensures share.expense == this
      ensures description == old(description) && amount == old(amount)
      ensures splitType == old(splitType) && updatedAt == old(updatedAt)
    {
      shares := shares + {share};
      share.expense := this;
    }

    /** Takes `share` out of the share set and clears its back-reference. */
    method RemoveShare(share: ExpenseShare)
      modifies this, share
      ensures shares == old(shares) - {share}
      ensures share.expense == null
      ensures description == old(description) && amount == old(amount)
      ensures splitType == old(splitType) && updatedAt == old(updatedAt)
    {
      shares := shares - {share};
      share.expense := null;
    }
  }

  /** Adding a share the expense did not hold and removing it again leaves the
      share set as it was. */
  method AddThenRemoveShare(e: Expense, s: ExpenseShare)
    requires s !in e.shares
    modifies e, s
    ensures e.shares == old(e.shares)
    ensures s.expense == null
  {
    e.AddShare(s);
    e.RemoveShare(s);
  }

  /** The users the shares in `ss` belong to. */
  function SharedUsers(ss: set<ExpenseShare>): set<User> {
    set s | s in ss :: s.user
  }

  /** The sum of the amounts of a set of shares (each share counted once). */
  ghost function SumAmounts(ss: set<ExpenseShare>): int
    decreases ss
  {
    if ss == {} then 0 else var s :| s in ss; s.amount + SumAmounts(ss - {s})
  }

  /** Summing does not depend on which share is taken first. */
  lemma {:induction false} SumAmountsRemove(ss: set<ExpenseShare>, s: ExpenseShare)
    requires s in ss
    ensures SumAmounts(ss) == s.amount + SumAmounts(ss - {s})
    decreases ss
  {
    var t :| t in ss && SumAmounts(ss) == t.amount + SumAmounts(ss - {t});
    if t != s {
      SumAmountsRemove(ss - {t}, s);
      SumAmountsRemove(ss - {s}, t);
      assert ss - {t} - {s} == ss - {s} - {t};
    }
  }

  /** A set of shares with positive amounts sums to a positive amount unless it is empty. */
  lemma {:induction false} SumAmountsPositive(ss: set<ExpenseShare>)
    requires forall s | s in ss :: s.amount > 0
    ensures SumAmounts(ss) >= 0
    ensures SumAmounts(ss) == 0 <==> ss == {}
    decreases ss
  {
    if ss != {} {
      var s :| s in ss;
      SumAmountsRemove(ss, s);
      SumAmountsPositive(ss - {s});
    }
  }
}
