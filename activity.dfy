/** `ActivityService.getUserActivities`: the dashboard feed built from the ten
    most recently created expenses and the five most recently created groups,
    newest first, each item carrying an icon chosen by keywords in its text.
    Dates are integer milliseconds; the current time is a parameter. */
module Activity {
  import opened Wrappers
  import opened Numbers
  import opened Strings
  import opened Sequences

  const Undefined: string := "undefined"
  const UnknownUser: string := "Unknown"
  const You: string := "You"
  const MaxExpenseItems: nat := 10
  const MaxGroupItems: nat := 5

  // Expense icons
  const FoodIcon: string := "\U{1F37D}\U{FE0F}"
  const CartIcon: string := "\U{1F6D2}"
  const CarIcon: string := "\U{1F697}"
  const ClapperIcon: string := "\U{1F3AC}"
  const HotelIcon: string := "\U{1F3E8}"
  const PlaneIcon: string := "\U{2708}\U{FE0F}"
  const CoffeeIcon: string := "\U{2615}"
  const HouseIcon: string := "\U{1F3E0}"
  const CardIcon: string := "\U{1F4B3}"

  // Group icons
  const LuggageIcon: string := "\U{1F9F3}"
  const BriefcaseIcon: string := "\U{1F4BC}"
  const PartyIcon: string := "\U{1F389}"
  const FamilyIcon: string := "\U{1F468}\U{200D}\U{1F469}\U{200D}\U{1F467}\U{200D}\U{1F466}"
  const PeopleIcon: string := "\U{1F465}"

  /** The app's user, as far as the feed reads it. */
  datatype FeedUser = FeedUser(firstName: string, lastName: string)

  /** The app's group: an optional numeric id, a name, an optional creator and creation time. */
  datatype FeedGroup = FeedGroup(id: Option<int>, name: string, createdBy: Option<FeedUser>, createdAt: Option<int>)

  /** The app's expense, as far as the feed reads it; the amount is in cents. */
  datatype FeedExpense = FeedExpense(
    id: Option<int>, description: string, amount: int,
    paidBy: Option<FeedUser>, group: Option<FeedGroup>, createdAt: Option<int>)

  datatype ActivityKind = ExpenseActivity | PaymentActivity | GroupActivity | FriendActivity

  datatype ActivityItem = ActivityItem(
    id: string, kind: ActivityKind, title: string, description: string, timestamp: int,
    user: string, amount: Option<int>, icon: string, group: Option<string>)

  /** A template-literal rendering of an optional number. */
  function ShowOptional(n: Option<int>): string {
    if n.Some? then ShowInt(n.value) else Undefined
  }

  /** `u?.firstName + ' ' + u?.lastName`: a missing user renders both parts as "undefined". */
  function FullName(u: Option<FeedUser>): (r: string)
    ensures ' ' in r
  {
    var first := if u.Some? then u.value.firstName else Undefined;
    var last := if u.Some? then u.value.lastName else Undefined;
    first + " " + last
  }

  /** `name || 'Unknown'`: the fallback applies to the empty string only. */
  function OrUnknown(name: string): string {
    if name == "" then UnknownUser else name
  }

  /** The "Unknown" fallback never applies: the joined name holds a space. */
  lemma UnknownUnreachable(u: Option<FeedUser>)
    ensures OrUnknown(FullName(u)) == FullName(u) != UnknownUser
  {
  }

  function CreatedKey(e: FeedExpense): int {
    e.createdAt.GetOr(0)
  }

  function GroupCreatedKey(g: FeedGroup): int {
    g.createdAt.GetOr(0)
  }

  function Timestamp(a: ActivityItem): int {
    a.timestamp
  }

  function SameIdAs(id: Option<int>): FeedGroup -> bool {
    (g: FeedGroup) => g.id == id
  }

  /** `expense.group || groups.find(g => g.id === expense.group?.id)`: without
      a group of its own, the expense is shown in the first group that has no id. */
  function ShownGroup(e: FeedExpense, groups: seq<FeedGroup>): (r: Option<FeedGroup>)
    ensures e.group.Some? ==> r == e.group
    ensures e.group.None? && r.Some? ==> r.value in groups && r.value.id.None?
    ensures e.group.None? && r.None? ==> forall i | 0 <= i < |groups| :: groups[i].id.Some?
  {
    if e.group.Some? then e.group else Find(groups, SameIdAs(None))
  }

  function ExpenseItem(e: FeedExpense, groups: seq<FeedGroup>, now: int): ActivityItem {
    var group := ShownGroup(e, groups);
    var payer := OrUnknown(FullName(e.paidBy));
    ActivityItem(
      "expense-" + ShowOptional(e.id), ExpenseActivity, "New expense added",
      payer + " added \"" + e.description + "\"" + (if group.Some? then " in " + group.value.name else ""),
      e.createdAt.GetOr(now), payer, Some(e.amount), ExpenseIcon(e.description),
      if group.Some? then Some(group.value.name) else None)
  }

  /** The name a group item shows for its creator: "You" for the current user. */
  function CreatorShown(g: FeedGroup, current: FeedUser): string {
    var creator := OrUnknown(FullName(g.createdBy));
    if creator == current.firstName + " " + current.lastName then You else creator
  }

  function GroupItem(g: FeedGroup, current: FeedUser, now: int): ActivityItem {
    var shown := CreatorShown(g, current);
    ActivityItem(
      "group-" + ShowOptional(g.id), GroupActivity, "New group created",
      shown + " created \"" + g.name + "\" group",
      g.createdAt.GetOr(now), shown, None, GroupIcon(g.name), Some(g.name))
  }

  /** One expense item per expense, in order. */
  function ExpenseItems(es: seq<FeedExpense>, groups: seq<FeedGroup>, now: int): seq<ActivityItem> {
    Map(es, (e: FeedExpense) => ExpenseItem(e, groups, now))
  }

  /** One group item per group, in order. */
  function GroupItems(gs: seq<FeedGroup>, current: FeedUser, now: int): seq<ActivityItem> {
    Map(gs, (g: FeedGroup) => GroupItem(g, current, now))
  }

  /** The expenses the feed shows: the ten with the latest creation time (a
      missing time counts as 0), ties kept in list order. */
  function RecentExpenses(es: seq<FeedExpense>): seq<FeedExpense> {
    Take(SortDesc(es, CreatedKey), MaxExpenseItems)
  }

  function RecentGroups(gs: seq<FeedGroup>): seq<FeedGroup> {
    Take(SortDesc(gs, GroupCreatedKey), MaxGroupItems)
  }

  /** The feed: nothing without a current user; otherwise the recent expense
      items then the recent group items, stably sorted newest first. Expense
      items look groups up in the list as given, before it is reordered. */
  function Feed(current: Option<FeedUser>, es: seq<FeedExpense>, gs: seq<FeedGroup>, now: int): (f: seq<ActivityItem>)
    ensures current.None? ==> f == []
    ensures current.Some? ==>
              |f| == (if |es| < MaxExpenseItems then |es| else MaxExpenseItems)
                     + (if |gs| < MaxGroupItems then |gs| else MaxGroupItems)
  {
    if current.None? then []
    else SortDesc(ExpenseItems(RecentExpenses(es), gs, now) + GroupItems(RecentGroups(gs), current.value, now), Timestamp)
  }

  /** The feed holds exactly min(10, expenses) + min(5, groups) items, so at
      most 15, and is ordered newest first. */
  lemma FeedShape(current: FeedUser, es: seq<FeedExpense>, gs: seq<FeedGroup>, now: int)
    ensures var f := Feed(Some(current), es, gs, now);
            && |f| == (if |es| < MaxExpenseItems then |es| else MaxExpenseItems) + (if |gs| < MaxGroupItems then |gs| else MaxGroupItems)
            && |f| <= MaxExpenseItems + MaxGroupItems
            && SortedDesc(f, Timestamp)
  {
    SortDescSorted(ExpenseItems(RecentExpenses(es), gs, now) + GroupItems(RecentGroups(gs), current, now), Timestamp);
  }

  /** The feed holds exactly the items of the recent expenses and of the
      recent groups (as sequences: `ExpenseItems` and `GroupItems`). */
  lemma FeedItems(current: FeedUser, es: seq<FeedExpense>, gs: seq<FeedGroup>, now: int)
    ensures var xs, ys := ExpenseItems(RecentExpenses(es), gs, now), GroupItems(RecentGroups(gs), current, now);
            && (forall a | a in Feed(Some(current), es, gs, now) :: a in xs || a in ys)
            && (forall i | 0 <= i < |xs| :: xs[i] in Feed(Some(current), es, gs, now))
            && (forall i | 0 <= i < |ys| :: ys[i] in Feed(Some(current), es, gs, now))
  {
    var xs := ExpenseItems(RecentExpenses(es), gs, now);
    var ys := GroupItems(RecentGroups(gs), current, now);
    assert Feed(Some(current), es, gs, now) == SortDesc(xs + ys, Timestamp);
    SortDescMembers(xs + ys, Timestamp);
    SortDescConcatMembers(xs, ys, Timestamp);
  }

  /** Expense items and group items never share an id: one id starts
      "expense-", the other "group-". */
  lemma ItemIdsByKind(e: FeedExpense, g: FeedGroup, current: FeedUser, gs: seq<FeedGroup>, now: int)
    ensures StartsWith(ExpenseItem(e, gs, now).id, "expense-") && ExpenseItem(e, gs, now).kind == ExpenseActivity
    ensures StartsWith(GroupItem(g, current, now).id, "group-") && GroupItem(g, current, now).kind == GroupActivity
    ensures ExpenseItem(e, gs, now).id != GroupItem(g, current, now).id
  {
    assert ExpenseItem(e, gs, now).id[0] == 'e';
    assert GroupItem(g, current, now).id[0] == 'g';
  }

  /** The expenses shown are the most recently created: none left out was
      created later than one shown. */
  lemma RecentExpensesAreLatest(es: seq<FeedExpense>)
    ensures var sorted := SortDesc(es, CreatedKey);
            && multiset(sorted) == multiset(es)
            && RecentExpenses(es) <= sorted
            && forall i, j | 0 <= i < |RecentExpenses(es)| <= j < |sorted| :: CreatedKey(sorted[i]) >= CreatedKey(sorted[j])
  {
    SortDescSorted(es, CreatedKey);
    SortDescPermutes(es, CreatedKey);
  }

  /** A group item names "You" exactly when its creator's full name is the
      current user's; a real name can never read "You", having a space. */
  lemma YouIffSameName(g: FeedGroup, current: FeedUser, now: int)
    ensures GroupItem(g, current, now).user == You <==> FullName(g.createdBy) == current.firstName + " " + current.lastName
  {
    UnknownUnreachable(g.createdBy);
    assert ' ' !in You;
  }

  /** The write-back of an in-place sort: the array takes the given order. */
  method Overwrite<T>(a: array<T>, s: seq<T>)
    requires |s| == a.Length
    modifies a
    ensures a[..] == s
  {
    forall i | 0 <= i < a.Length {
      a[i] := s[i];
    }
  }

  /** The `forEach` over the recent expenses: one item pushed per expense. */
  method PushExpenseItems(expenses: array<FeedExpense>, n: nat, groups: seq<FeedGroup>, now: int)
      returns (items: seq<ActivityItem>)
    requires n <= expenses.Length
    ensures items == ExpenseItems(expenses[..n], groups, now)
  {
    items := [];
    var i := 0;
    while i < n
      invariant 0 <= i <= n
      invariant items == ExpenseItems(expenses[..i], groups, now)
    {
      items := items + [ExpenseItem(expenses[i], groups, now)];
      i := i + 1;
      assert expenses[..i][..i - 1] == expenses[..i - 1];
    }
  }

  /** The `forEach` over the recent groups: one item pushed per group. */
  method PushGroupItems(groups: array<FeedGroup>, n: nat, current: FeedUser, now: int)
      returns (items: seq<ActivityItem>)
    requires n <= groups.Length
    ensures items == GroupItems(groups[..n], current, now)
  {
    items := [];
    var i := 0;
    while i < n
      invariant 0 <= i <= n
      invariant items == GroupItems(groups[..i], current, now)
    {
      items := items + [GroupItem(groups[i], current, now)];
      i := i + 1;
      assert groups[..i][..i - 1] == groups[..i - 1];
    }
  }

  /** `getUserActivities`, with the lists the two services emit as arrays.
      Without a current user the feed is empty and nothing is touched;
      otherwise both arrays are left sorted by creation time, newest first,
      as the source's in-place `sort` leaves them. */
  method UserActivities(current: Option<FeedUser>, expenses: array<FeedExpense>, groups: array<FeedGroup>, now: int)
      returns (feed: seq<ActivityItem>)
    modifies expenses, groups
    ensures feed == Feed(current, old(expenses[..]), old(groups[..]), now)
    ensures current.None? ==> feed == [] && expenses[..] == old(expenses[..]) && groups[..] == old(groups[..])
    ensures current.Some? ==> expenses[..] == SortDesc(old(expenses[..]), CreatedKey)
    ensures current.Some? ==> groups[..] == SortDesc(old(groups[..]), GroupCreatedKey)
  {
    if current.None? {
      return [];
    }
    var listedExpenses, listedGroups := expenses[..], groups[..];
    Overwrite(expenses, SortDesc(listedExpenses, CreatedKey));
    var n := if expenses.Length < MaxExpenseItems then expenses.Length else MaxExpenseItems;
    var expenseItems := PushExpenseItems(expenses, n, groups[..], now);
    assert expenses[..n] == RecentExpenses(listedExpenses);

    Overwrite(groups, SortDesc(listedGroups, GroupCreatedKey));
    var m := if groups.Length < MaxGroupItems then groups.Length else MaxGroupItems;
    var groupItems := PushGroupItems(groups, m, current.value, now);
    assert groups[..m] == RecentGroups(listedGroups);
    feed := SortDesc(expenseItems + groupItems, Timestamp);
  }

  // Icons

  /** `getExpenseIcon`: the first keyword family found in the lower-cased
      description decides. */
  function ExpenseIcon(description: string): (icon: string)
    ensures icon in {FoodIcon, CartIcon, CarIcon, ClapperIcon, HotelIcon, PlaneIcon, CoffeeIcon, HouseIcon, CardIcon}
    ensures Contains(ToLower(description), "food") ==> icon == FoodIcon
  {
    var d := ToLower(description);
    if Contains(d, "food") || Contains(d, "restaurant") || Contains(d, "dinner") || Contains(d, "lunch") then FoodIcon
    else if Contains(d, "grocery") || Contains(d, "shopping") then CartIcon
    else if Contains(d, "gas") || Contains(d, "fuel") || Contains(d, "uber") || Contains(d, "taxi") then CarIcon
    else if Contains(d, "movie") || Contains(d, "entertainment") || Contains(d, "game") then ClapperIcon
    else if Contains(d, "hotel") || Contains(d, "accommodation") || Contains(d, "airbnb") then HotelIcon
    else if Contains(d, "flight") || Contains(d, "airplane") || Contains(d, "airline") then PlaneIcon
    else if Contains(d, "coffee") || Contains(d, "drink") || Contains(d, "beer") || Contains(d, "bar") then CoffeeIcon
    else if Contains(d, "rent") || Contains(d, "utilities") || Contains(d, "electricity") then HouseIcon
    else CardIcon
  }

  /** `getGroupIcon`: the same rule over the lower-cased group name. */
  function GroupIcon(name: string): (icon: string)
    ensures icon in {LuggageIcon, HouseIcon, BriefcaseIcon, PartyIcon, FamilyIcon, PeopleIcon}
    ensures Contains(ToLower(name), "trip") ==> icon == LuggageIcon
  {
    var n := ToLower(name);
    if Contains(n, "trip") || Contains(n, "vacation") || Contains(n, "travel") then LuggageIcon
    else if Contains(n, "house") || Contains(n, "home") || Contains(n, "roommate") then HouseIcon
    else if Contains(n, "work") || Contains(n, "office") || Contains(n, "team") then BriefcaseIcon
    else if Contains(n, "friends") || Contains(n, "party") || Contains(n, "celebration") then PartyIcon
    else if Contains(n, "family") then FamilyIcon
    else PeopleIcon
  }

  /** A keyword family and the icon it selects. */
  datatype Family = Family(keywords: seq<string>, icon: string)

  predicate Matches(f: Family, text: string) {
    exists k | 0 <= k < |f.keywords| :: Contains(text, f.keywords[k])
  }

  /** The reference rule both icon choosers follow: the icon of the first
      family, from index `from` on, with a keyword in the text, or the
      fallback when none has. */
  function FirstFamilyIconFrom(families: seq<Family>, from: nat, text: string, fallback: string): string
    requires from <= |families|
    decreases |families| - from
  {
    if from == |families| then fallback
    else if Matches(families[from], text) then families[from].icon
    else FirstFamilyIconFrom(families, from + 1, text, fallback)
  }

  function FirstFamilyIcon(families: seq<Family>, text: string, fallback: string): string {
    FirstFamilyIconFrom(families, 0, text, fallback)
  }

  /** With no family matching, the reference rule gives the fallback. */
  lemma {:induction false} FirstFamilyIconNone(families: seq<Family>, from: nat, text: string, fallback: string)
    requires from <= |families|
    requires forall k | from <= k < |families| :: !Matches(families[k], text)
    decreases |families| - from
    ensures FirstFamilyIconFrom(families, from, text, fallback) == fallback
  {
    if from < |families| {
      FirstFamilyIconNone(families, from + 1, text, fallback);
    }
  }

  /** The reference rule gives the icon of the first matching family. */
  lemma {:induction false} FirstFamilyIconFirst(families: seq<Family>, from: nat, k: nat, text: string, fallback: string)
    requires from <= k < |families|
    requires Matches(families[k], text)
    requires forall j | from <= j < k :: !Matches(families[j], text)
    decreases k - from
    ensures FirstFamilyIconFrom(families, from, text, fallback) == families[k].icon
  {
    if from < k {
      assert !Matches(families[from], text);
      FirstFamilyIconFirst(families, from + 1, k, text, fallback);
    }
  }

  /** When the fallback is no family's icon, the rule gives the fallback
      exactly when no family matches. */
  lemma FirstFamilyIconFallback(families: seq<Family>, text: string, fallback: string)
    requires forall k | 0 <= k < |families| :: families[k].icon != fallback
    ensures FirstFamilyIcon(families, text, fallback) == fallback
            <==> forall k | 0 <= k < |families| :: !Matches(families[k], text)
  {
    if k :| 0 <= k < |families| && Matches(families[k], text) {
      var first := FirstIndex(families, text, k);
      FirstFamilyIconFirst(families, 0, first, text, fallback);
    } else {
      FirstFamilyIconNone(families, 0, text, fallback);
    }
  }

  /** The least index of a matching family, found from any matching index `k`. */
  lemma {:induction false} FirstIndex(families: seq<Family>, text: string, k: nat) returns (first: nat)
    requires k < |families| && Matches(families[k], text)
    ensures first <= k && Matches(families[first], text)
    ensures forall j | 0 <= j < first :: !Matches(families[j], text)
  {
    if j :| 0 <= j < k && Matches(families[j], text) {
      first := FirstIndex(families, text, j);
    } else {
      first := k;
    }
  }

  const ExpenseFamilies: seq<Family> := [
    Family(["food", "restaurant", "dinner", "lunch"], FoodIcon),
    Family(["grocery", "shopping"], CartIcon),
    Family(["gas", "fuel", "uber", "taxi"], CarIcon),
    Family(["movie", "entertainment", "game"], ClapperIcon),
    Family(["hotel", "accommodation", "airbnb"], HotelIcon),
    Family(["flight", "airplane", "airline"], PlaneIcon),
    Family(["coffee", "drink", "beer", "bar"], CoffeeIcon),
    Family(["rent", "utilities", "electricity"], HouseIcon)
  ]

  const GroupFamilies: seq<Family> := [
    Family(["trip", "vacation", "travel"], LuggageIcon),
    Family(["house", "home", "roommate"], HouseIcon),
    Family(["work", "office", "team"], BriefcaseIcon),
    Family(["friends", "party", "celebration"], PartyIcon),
    Family(["family"], FamilyIcon)
  ]

  lemma Matches1(text: string, a: string, icon: string)
    ensures Matches(Family([a], icon), text) <==> Contains(text, a)
  {
    var f := Family([a], icon);
    if Contains(text, a) {
      assert Contains(text, f.keywords[0]);
    }
  }

  lemma Matches3(text: string, a: string, b: string, c: string, icon: string)
    ensures Matches(Family([a, b, c], icon), text) <==> Contains(text, a) || Contains(text, b) || Contains(text, c)
  {
    var f := Family([a, b, c], icon);
    if Contains(text, a) {
      assert Contains(text, f.keywords[0]);
    } else if Contains(text, b) {
      assert Contains(text, f.keywords[1]);
    } else if Contains(text, c) {
      assert Contains(text, f.keywords[2]);
    }
  }

  lemma Matches2(text: string, a: string, b: string, icon: string)
    ensures Matches(Family([a, b], icon), text) <==> Contains(text, a) || Contains(text, b)
  {
    var f := Family([a, b], icon);
    if Contains(text, a) {
      assert Contains(text, f.keywords[0]);
    } else if Contains(text, b) {
      assert Contains(text, f.keywords[1]);
    }
  }

  lemma Matches4(text: string, a: string, b: string, c: string, d: string, icon: string)
    ensures Matches(Family([a, b, c, d], icon), text) <==> Contains(text, a) || Contains(text, b) || Contains(text, c) || Contains(text, d)
  {
    var f := Family([a, b, c, d], icon);
    if Contains(text, a) {
      assert Contains(text, f.keywords[0]);
    } else if Contains(text, b) {
      assert Contains(text, f.keywords[1]);
    } else if Contains(text, c) {
      assert Contains(text, f.keywords[2]);
    } else if Contains(text, d) {
      assert Contains(text, f.keywords[3]);
    }
  }

  /** The expense icon is the reference rule over the expense keyword table. */
  lemma ExpenseIconFollowsTable(description: string)
    ensures ExpenseIcon(description) == FirstFamilyIcon(ExpenseFamilies, ToLower(description), CardIcon)
  {
    var d := ToLower(description);
    var fs := ExpenseFamilies;
    assert Matches(Family(["food", "restaurant", "dinner", "lunch"], FoodIcon), d) <==> Contains(d, "food") || Contains(d, "restaurant") || Contains(d, "dinner") || Contains(d, "lunch") by {
      Matches4(d, "food", "restaurant", "dinner", "lunch", FoodIcon);
    }
    assert Matches(Family(["grocery", "shopping"], CartIcon), d) <==> Contains(d, "grocery") || Contains(d, "shopping") by {
      Matches2(d, "grocery", "shopping", CartIcon);
    }
    assert Matches(Family(["gas", "fuel", "uber", "taxi"], CarIcon), d) <==> Contains(d, "gas") || Contains(d, "fuel") || Contains(d, "uber") || Contains(d, "taxi") by {
      Matches4(d, "gas", "fuel", "uber", "taxi", CarIcon);
    }
    assert Matches(Family(["movie", "entertainment", "game"], ClapperIcon), d) <==> Contains(d, "movie") || Contains(d, "entertainment") || Contains(d, "game") by {
      Matches3(d, "movie", "entertainment", "game", ClapperIcon);
    }
    assert Matches(Family(["hotel", "accommodation", "airbnb"], HotelIcon), d) <==> Contains(d, "hotel") || Contains(d, "accommodation") || Contains(d, "airbnb") by {
      Matches3(d, "hotel", "accommodation", "airbnb", HotelIcon);
    }
    assert Matches(Family(["flight", "airplane", "airline"], PlaneIcon), d) <==> Contains(d, "flight") || Contains(d, "airplane") || Contains(d, "airline") by {
      Matches3(d, "flight", "airplane", "airline", PlaneIcon);
    }
    assert Matches(Family(["coffee", "drink", "beer", "bar"], CoffeeIcon), d) <==> Contains(d, "coffee") || Contains(d, "drink") || Contains(d, "beer") || Contains(d, "bar") by {
      Matches4(d, "coffee", "drink", "beer", "bar", CoffeeIcon);
    }
    assert Matches(Family(["rent", "utilities", "electricity"], HouseIcon), d) <==> Contains(d, "rent") || Contains(d, "utilities") || Contains(d, "electricity") by {
      Matches3(d, "rent", "utilities", "electricity", HouseIcon);
    }
    var c := CardIcon;
    assert FirstFamilyIconFrom(fs, 8, d, c) == c;
    assert FirstFamilyIconFrom(fs, 7, d, c) == if Matches(fs[7], d) then HouseIcon else c;
    assert FirstFamilyIconFrom(fs, 6, d, c) == if Matches(fs[6], d) then CoffeeIcon else FirstFamilyIconFrom(fs, 7, d, c);
    assert FirstFamilyIconFrom(fs, 5, d, c) == if Matches(fs[5], d) then PlaneIcon else FirstFamilyIconFrom(fs, 6, d, c);
    assert FirstFamilyIconFrom(fs, 4, d, c) == if Matches(fs[4], d) then HotelIcon else FirstFamilyIconFrom(fs, 5, d, c);
    assert FirstFamilyIconFrom(fs, 3, d, c) == if Matches(fs[3], d) then ClapperIcon else FirstFamilyIconFrom(fs, 4, d, c);
    assert FirstFamilyIconFrom(fs, 2, d, c) == if Matches(fs[2], d) then CarIcon else FirstFamilyIconFrom(fs, 3, d, c);
    assert FirstFamilyIconFrom(fs, 1, d, c) == if Matches(fs[1], d) then CartIcon else FirstFamilyIconFrom(fs, 2, d, c);
    assert FirstFamilyIconFrom(fs, 0, d, c) == if Matches(fs[0], d) then FoodIcon else FirstFamilyIconFrom(fs, 1, d, c);
  }

  /** The group icon is the reference rule over the group keyword table. */
  lemma GroupIconFollowsTable(name: string)
    ensures GroupIcon(name) == FirstFamilyIcon(GroupFamilies, ToLower(name), PeopleIcon)
  {
    var n := ToLower(name);
    var fs := GroupFamilies;
    assert Matches(Family(["trip", "vacation", "travel"], LuggageIcon), n) <==> Contains(n, "trip") || Contains(n, "vacation") || Contains(n, "travel") by {
      Matches3(n, "trip", "vacation", "travel", LuggageIcon);
    }
    assert Matches(Family(["house", "home", "roommate"], HouseIcon), n) <==> Contains(n, "house") || Contains(n, "home") || Contains(n, "roommate") by {
      Matches3(n, "house", "home", "roommate", HouseIcon);
    }
    assert Matches(Family(["work", "office", "team"], BriefcaseIcon), n) <==> Contains(n, "work") || Contains(n, "office") || Contains(n, "team") by {
      Matches3(n, "work", "office", "team", BriefcaseIcon);
    }
    assert Matches(Family(["friends", "party", "celebration"], PartyIcon), n) <==> Contains(n, "friends") || Contains(n, "party") || Contains(n, "celebration") by {
      Matches3(n, "friends", "party", "celebration", PartyIcon);
    }
    assert Matches(Family(["family"], FamilyIcon), n) <==> Contains(n, "family") by {
      Matches1(n, "family", FamilyIcon);
    }
    var p := PeopleIcon;
    assert FirstFamilyIconFrom(fs, 5, n, p) == p;
    assert FirstFamilyIconFrom(fs, 4, n, p) == if Matches(fs[4], n) then FamilyIcon else p;
    assert FirstFamilyIconFrom(fs, 3, n, p) == if Matches(fs[3], n) then PartyIcon else FirstFamilyIconFrom(fs, 4, n, p);
    assert FirstFamilyIconFrom(fs, 2, n, p) == if Matches(fs[2], n) then BriefcaseIcon else FirstFamilyIconFrom(fs, 3, n, p);
    assert FirstFamilyIconFrom(fs, 1, n, p) == if Matches(fs[1], n) then HouseIcon else FirstFamilyIconFrom(fs, 2, n, p);
    assert FirstFamilyIconFrom(fs, 0, n, p) == if Matches(fs[0], n) then LuggageIcon else FirstFamilyIconFrom(fs, 1, n, p);
  }

  /** The default card icon is shown exactly when no expense keyword occurs. */
  lemma ExpenseIconDefault(description: string)
    ensures ExpenseIcon(description) == CardIcon
            <==> forall k | 0 <= k < |ExpenseFamilies| :: !Matches(ExpenseFamilies[k], ToLower(description))
  {
    ExpenseIconFollowsTable(description);
    FirstFamilyIconFallback(ExpenseFamilies, ToLower(description), CardIcon);
  }

  /** The default people icon is shown exactly when no group keyword occurs. */
  lemma GroupIconDefault(name: string)
    ensures GroupIcon(name) == PeopleIcon
            <==> forall k | 0 <= k < |GroupFamilies| :: !Matches(GroupFamilies[k], ToLower(name))
  {
    GroupIconFollowsTable(name);
    FirstFamilyIconFallback(GroupFamilies, ToLower(name), PeopleIcon);
  }

  /** Icons ignore letter case. */
  lemma IconsIgnoreCase(text: string)
    ensures ExpenseIcon(ToLower(text)) == ExpenseIcon(text)
    ensures GroupIcon(ToLower(text)) == GroupIcon(text)
  {
    ToLowerIdempotent(text);
  }

  /** Priority: a dinner at a bar is food, not drinks. */
  lemma DinnerAtBarIsFood()
    ensures ExpenseIcon("Dinner at the bar") == FoodIcon
  {
    var d := ToLower("Dinner at the bar");
    assert d[0..6] == "dinner";
    assert OccursAt(d, "dinner", 0);
  }
}
