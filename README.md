# Splitwise clone: a verified model of its core

This project models the sequential core of a Splitwise-style expense sharing
application. The Java backend contributes these parts:

- expenses divided into per-user shares under the EQUAL, PERCENTAGE and CUSTOM split types;
- groups with membership and permissions;
- a contact relationship state machine;
- user accounts;
- a bearer-token filter.

The Angular client contributes these parts:

- the expense and group stores, with the balances they derive;
- an in-memory mock backend and the HTTP interceptor that routes to it;
- the activity feed.

The model states and proves what each operation does, its error cases, the
invariants it keeps, and how operations combine. Examples:

- an EQUAL split is off by at most half a cent per member;
- a group's creator stays a member;
- the interceptor's group-id extraction is a print/parse round trip;
- the activity feed holds at most 15 items, newest first.

Conventions of the model:

- Money is integer cents. `BigDecimal.divide(…, 2, HALF_UP)` is `Money.RoundHalfUp`.
- Percentages are integer hundredths of a percent (100.00% is 10000).
- Times are integer milliseconds.
- Strings are `seq<char>`. Emoji are written as their code points.
- Each backend service is a class that holds its repositories as maps keyed by id.
- Each service operation is atomic: the services are `@Transactional`, so a failing call changes nothing.
- Each client store is a class with `seq` fields.
- An HTTP exchange is one step: its response, success or failure, is a parameter.
- Fresh ids, tokens, the clock, the password encoder and the user lookup are parameters.

Modules, one per source file of the core:

- `Money`, `Numbers`, `Strings` and `Sequences` are shared arithmetic and library semantics:
  - `BigDecimal` rounding;
  - `Long.parseLong`;
  - `String.replace` and `String.split`;
  - `Array.filter`, `find`, `slice` and the stable `sort`.
- `Entities` covers User and Group; `ExpenseModel` covers Expense and ExpenseShare.
- `ExpenseService`, `GroupService`, `Contacts`, `ContactService`, `ContactDtos`, `UserService`, `UserProfile` and `JwtFilter` are the backend.
- `ClientModels`, `ExpensesState`, `GroupsState`, `MockApi`, `MockInterceptor` and `Activity` are the client.

## Model

| member | source | states |
|---|---|---|
| Money.RoundHalfUp | backend/src/main/java/com/splitwise/service/ExpenseService.java:80 | the quotient rounded to the nearest integer, ties away from zero: the remainder lies within half the divisor, and the result keeps the sign of the dividend |
| Money.EqualShare | backend/src/main/java/com/splitwise/service/ExpenseService.java:80 | an EQUAL share is the amount over the member count to within half a cent per member |
| Money.PercentageShare | backend/src/main/java/com/splitwise/service/ExpenseService.java:97-98 | a PERCENTAGE share is amount × percentage ÷ 100% to within half a cent |
| Money.PercentageShares | backend/src/main/java/com/splitwise/service/ExpenseService.java:93-102 | one share per requested percentage, in order |
| Money.EqualShareExact | backend/src/main/java/com/splitwise/service/ExpenseService.java:80 | when the amount divides evenly, the share is the exact quotient |
| Money.EqualSplitTotalBound | backend/src/main/java/com/splitwise/service/ExpenseService.java:80-85 | n equal shares add up to the amount to within n/2 cents; no remainder is distributed |
| Money.EqualSplitLosesACent | backend/src/main/java/com/splitwise/service/ExpenseService.java:80 | 100.00 over 3 gives 3 × 33.33, one cent short |
| Money.EqualSplitGainsCents | backend/src/main/java/com/splitwise/service/ExpenseService.java:80 | 100.00 over 6 gives 6 × 16.67, two cents over |
| Money.PercentageShareWhole | backend/src/main/java/com/splitwise/service/ExpenseService.java:97-98 | 100% of an amount is the amount |
| Money.PercentageSplitTotalBound | backend/src/main/java/com/splitwise/service/ExpenseService.java:93-102 | over any percentages, 10000 × (sum of shares) differs from amount × (sum of percentages) by at most 5000 per share |
| Money.PercentageSplitOfWhole | backend/src/main/java/com/splitwise/service/ExpenseService.java:97-98 | when the percentages do add up to 100%, the shares add up to the amount to within half a cent each; nothing checks that they do |
| ExpenseModel.ParseSplitType | backend/src/main/java/com/splitwise/model/Expense.java:37-38 | the stored name parses back only to the split type it names |
| ExpenseModel.SplitTypeRoundTrip | backend/src/main/java/com/splitwise/model/Expense.java:49-51 | every split type survives store-and-read, and only the names EQUAL, PERCENTAGE and CUSTOM parse |
| ExpenseModel.ExpenseShare.constructor | backend/src/main/java/com/splitwise/model/ExpenseShare.java:34-45 | a share records its expense, user, amount and percentage |
| ExpenseModel.Expense.constructor | backend/src/main/java/com/splitwise/model/Expense.java:57-66 | description, amount, payer, group and split type are copied unchanged; no shares; date and timestamps are the current time |
| ExpenseModel.Expense.AddShare | backend/src/main/java/com/splitwise/model/Expense.java:150-153 | the share joins the set and points back at the expense; other fields unchanged |
| ExpenseModel.Expense.RemoveShare | backend/src/main/java/com/splitwise/model/Expense.java:155-158 | the share leaves the set and its back-reference is cleared |
| ExpenseModel.AddThenRemoveShare | backend/src/main/java/com/splitwise/model/Expense.java:150-158 | adding a share the expense did not hold, then removing it, leaves the share set as it was and the share detached |
| ExpenseModel.SumAmountsRemove | backend/src/main/java/com/splitwise/repository/ExpenseShareRepository.java:22-23 | the sum over a set of shares is any one share plus the sum over the others, so it does not depend on the order of summation |
| ExpenseModel.SumAmountsPositive | backend/src/main/java/com/splitwise/repository/ExpenseShareRepository.java:22-23 | shares of positive amount sum to at least 0, and to 0 exactly when there are none |
| ExpenseService.LinesFrom | backend/src/main/java/com/splitwise/service/ExpenseService.java:93-116 | succeeds iff every requested user exists and, for PERCENTAGE, every request has a percentage; then one line per request, in order: CUSTOM copies the amount verbatim, PERCENTAGE computes the rounded share and records the percentage |
| ExpenseService.RequestedLines | backend/src/main/java/com/splitwise/service/ExpenseService.java:89-91 | a null or empty request list fails; otherwise the lines of `LinesFrom` |
| ExpenseService.LineAmounts | backend/src/main/java/com/splitwise/service/ExpenseService.java:114 | one amount per line, null counted as 0 |
| ExpenseService.RequestedPercentages | backend/src/main/java/com/splitwise/service/ExpenseService.java:97 | one percentage per request, null counted as 0 |
| ExpenseService.PercentageLinesTotal | backend/src/main/java/com/splitwise/service/ExpenseService.java:93-102 | the PERCENTAGE lines add up to amount × (sum of percentages) to within half a cent per line |
| ExpenseService.CustomSumNotChecked | backend/src/main/java/com/splitwise/service/ExpenseService.java:110-116 | a single custom share of 0.01 against 100.00 is accepted |
| ExpenseService.NoRequestedShares | backend/src/main/java/com/splitwise/service/ExpenseService.java:89-91 | PERCENTAGE and CUSTOM fail for a null or empty share list |
| ExpenseService.EqualSplitFailures | backend/src/main/java/com/splitwise/service/ExpenseService.java:80 | an EQUAL split over no members divides by zero; 0.01 over three members rounds to 0, which validation rejects |
| ExpenseService.AppendShare | backend/src/main/java/com/splitwise/service/ExpenseService.java:84 | appending a share not yet created keeps the created shares distinct and adds its user |
| ExpenseService.UsersOfShared | backend/src/main/java/com/splitwise/service/ExpenseService.java:82-85 | the users of the created list are the users of its set of shares |
| ExpenseService.AttachNewShare | backend/src/main/java/com/splitwise/service/ExpenseService.java:83-84 | a new share of the expense is created and added; nothing else of the expense changes |
| ExpenseService.CreateEqualShares | backend/src/main/java/com/splitwise/service/ExpenseService.java:79-86 | one new share per member, each of amount ÷ members rounded half-up, all added to the expense |
| ExpenseService.CreateLineShares | backend/src/main/java/com/splitwise/service/ExpenseService.java:93-116 | one new share per line, in order, with the line's user, amount and percentage |
| ExpenseService.ReplaceFields | backend/src/main/java/com/splitwise/service/ExpenseService.java:139-152 | the non-null description, amount and split type replace the old ones and the share set is emptied; `updatedAt` moves to `now` exactly when one of the three fields changed |
| ExpenseService.RebuildExpense | backend/src/main/java/com/splitwise/service/ExpenseService.java:139-155 | after the new fields, the share set holds only freshly built positive shares for the new split type and amount, none of the old ones |
| ExpenseService.BuildShares | backend/src/main/java/com/splitwise/service/ExpenseService.java:62-77 | dispatches on the split type; every created share is fresh, belongs to the expense and has a positive amount |
| ExpenseService.ExpenseService.constructor | backend/src/main/java/com/splitwise/service/ExpenseService.java:24-37 | the repositories hold the given users and groups, and no expenses |
| ExpenseService.ExpenseService.CreateExpense | backend/src/main/java/com/splitwise/service/ExpenseService.java:39-60 | fails exactly when `CreateError` names an error (unknown payer, unknown group, invalid fields, missing split type, then the shares, in that order), with that error, and stores nothing; otherwise stores exactly one new expense with the request's fields, whose shares are those of its split type: one per group member of the equal share, or one per requested line |
| ExpenseService.ExpenseService.UpdateExpense | backend/src/main/java/com/splitwise/service/ExpenseService.java:135-156 | fails exactly when `UpdateError` names an error (missing expense, then the shares, then the fields) and leaves the expense unchanged; otherwise replaces only the given description, amount and split type, and rebuilds the shares for the new values so that no old share survives; `updatedAt` moves to `now` only when the description, amount or split type changed, since the shares are the inverse side of the mapping |
| ExpenseService.ExpenseService.TotalOwedByUser | backend/src/main/java/com/splitwise/service/ExpenseService.java:162-164 | a user without shares owes 0 |
| ExpenseService.ExpenseService.TotalOwedFacts | backend/src/main/java/com/splitwise/service/ExpenseService.java:162-164 | the total owed is the sum of all the user's share amounts: never negative, and 0 exactly when the user has no share |
| ExpenseService.DistinctElementsCount | backend/src/main/java/com/splitwise/service/ExpenseService.java:82-85 | distinct created shares are as many as their set, so an EQUAL split has exactly one share per member |
| Entities.Render | backend/src/main/java/com/splitwise/dto/UserProfileDto.java:198-200 | a null string concatenates as "null" |
| Entities.User.constructor | backend/src/main/java/com/splitwise/service/UserService.java:33-38 | the account fields `createUser` sets are as given; the profile fields, whose starting values the entity class decides, are modelled as unset |
| Entities.User.FullName | backend/src/main/java/com/splitwise/model/Contact.java:186-191 | the name a registered contact is displayed by: first and last name joined by a space: the rendered first name, then one space, then the rendered last name, so never empty |
| Entities.Group.constructor | backend/src/main/java/com/splitwise/model/Group.java:32-71 | name, description and creator as given; every setting at its default (active, not archived, simplify debts, no auto-settle, members may add but not edit, icon "fas fa-users", USD); no members |
| Entities.Group.AddMember | backend/src/main/java/com/splitwise/model/Group.java:185-188 | the user joins the members and the group joins the user's groups; nothing else changes |
| Entities.Group.RemoveMember | backend/src/main/java/com/splitwise/model/Group.java:190-193 | both sides of the link are removed; nothing else changes |
| Entities.AddMemberTwice | backend/src/main/java/com/splitwise/model/Group.java:185-188 | adding the same member twice equals adding once |
| Entities.AddThenRemoveMember | backend/src/main/java/com/splitwise/model/Group.java:185-193 | removing undoes adding a user who was not a member |
| Entities.IsMemberById | backend/src/main/java/com/splitwise/model/Group.java:328-330 | membership compares ids: a member object is a member, and a user whose id no member has is not |
| Entities.PermissionsOfCreator | backend/src/main/java/com/splitwise/model/Group.java:324-346 | a creator who is a member is admin and may add and edit expenses |
| Entities.PermissionsNeedMembership | backend/src/main/java/com/splitwise/model/Group.java:340-346 | adding or editing needs membership; a member may add when members may, and a non-admin member may edit exactly when members may |
| Entities.DefaultPermissions | backend/src/main/java/com/splitwise/model/Group.java:61-65 | under the defaults, a member who is not the creator may add but not edit |
| Entities.DefaultGroupIsActive | backend/src/main/java/com/splitwise/model/Group.java:348-350 | a default group is active and shows the default icon name |
| Entities.ActiveNeedsBothFlags | backend/src/main/java/com/splitwise/model/Group.java:348-350 | active iff flagged active and not flagged archived |
| Entities.DisplayIconPrefersUrl | backend/src/main/java/com/splitwise/model/Group.java:336-338 | the icon URL when set, else the icon name |
| Entities.Group.IsAdmin | backend/src/main/java/com/splitwise/model/Group.java:324-326 | the creator is admin; a group without a creator has no admin |
| Entities.Group.IsMember | backend/src/main/java/com/splitwise/model/Group.java:328-330 | a member object is a member; a group without members has none |
| Entities.Group.MemberCount | backend/src/main/java/com/splitwise/model/Group.java:332-334 | 0 exactly when there are no members, at least 1 otherwise |
| Entities.Group.DisplayIcon | backend/src/main/java/com/splitwise/model/Group.java:336-338 | the URL when set, else the icon name; unset only when both are |
| Entities.Group.CanUserAddExpense | backend/src/main/java/com/splitwise/model/Group.java:340-342 | only members may; the creator as a member always may; any other member exactly when members may add |
| Entities.Group.CanUserEditExpense | backend/src/main/java/com/splitwise/model/Group.java:344-346 | only members may; the creator as a member always may; any other member exactly when members may edit |
| Entities.Group.IsActiveGroup | backend/src/main/java/com/splitwise/model/Group.java:348-350 | an active group is not flagged archived; flagged active with the archived flag unset is active; a default group is active |
| GroupService.ToDto | backend/src/main/java/com/splitwise/service/GroupService.java:185-212 | id and creator id copied; member ids are exactly the members' ids; name, description and all fourteen settings copied |
| GroupService.ContainsEmpty | backend/src/main/java/com/splitwise/service/GroupService.java:164 | the empty query matches every string |
| GroupService.MatchesExactName | backend/src/main/java/com/splitwise/service/GroupService.java:164 | a query occurring verbatim in the name matches |
| GroupService.MatchesIgnoresQueryCase | backend/src/main/java/com/splitwise/service/GroupService.java:164-166 | lower-casing the query first does not change the match |
| GroupService.ListedUsers | backend/src/main/java/com/splitwise/service/GroupService.java:41-45 | the listed users are known users |
| GroupService.AddMembers | backend/src/main/java/com/splitwise/service/GroupService.java:41-45 | every listed user becomes a member, on both sides of the link |
| GroupService.BuildGroup | backend/src/main/java/com/splitwise/service/GroupService.java:36-45 | a new group with default settings whose members are the creator plus the listed users, each linked back to the group |
| GroupService.GroupService.InsertGroup | backend/src/main/java/com/splitwise/service/GroupService.java:36-48 | the built group is stored under the next id, and every known user's groups gain it exactly when the user is a member |
| GroupService.Describe | backend/src/main/java/com/splitwise/service/GroupService.java:40-44 | a failure is reported with its fixed message, or with "Member not found: " and one of the unknown ids |
| GroupService.ApplyGroupUpdate | backend/src/main/java/com/splitwise/service/GroupService.java:64-84 | a non-null name or description replaces the stored one; with member ids, the members become the creator (when a member) plus the listed users; icons, currency, type, privacy, the active, archived, debt and permission flags and the creation time keep their values; the update time moves to now exactly when name or description changed |
| GroupService.GroupService.constructor | backend/src/main/java/com/splitwise/service/GroupService.java:20-26 | an empty group table over the given users |
| GroupService.GroupService.CreateGroup | backend/src/main/java/com/splitwise/service/GroupService.java:28-50 | fails on an unknown creator, a name the creator already uses, an unknown member id ("Member not found: " followed by one of the unknown ids in decimal) or invalid fields, and then stores nothing; otherwise stores one new default group whose members are the creator plus the listed users |
| GroupService.GroupService.UpdateGroup | backend/src/main/java/com/splitwise/service/GroupService.java:60-88 | fails for an unknown group or member (reported with one unknown id, as on creation) and changes nothing; otherwise changes name and description only when non-null, and member ids set the members to {creator} ∪ listed, so the creator stays; every setting and the archived flag keep their values; the update time moves to now exactly when name or description changed |
| GroupService.GroupService.AddMemberToGroup | backend/src/main/java/com/splitwise/service/GroupService.java:214-224 | succeeds iff group and user exist, and then links them |
| GroupService.GroupService.RemoveMemberFromGroup | backend/src/main/java/com/splitwise/service/GroupService.java:226-240 | refuses the creator, an unknown group or an unknown user; otherwise unlinks the user |
| GroupService.GroupService.SetArchived | backend/src/main/java/com/splitwise/service/GroupService.java:171-183 | sets the archived flag of a known group, leaving name, description, members and every setting; the update time moves to now exactly when the flag changed; fails for an unknown group |
| GroupService.GroupService.SearchGroupsByUser | backend/src/main/java/com/splitwise/service/GroupService.java:161-169 | exactly the DTOs of the user's groups whose lower-cased name, or non-null description, contains the lower-cased query: every result is such a group and every such group is in the result |
| GroupService.GroupService.SearchFacts | backend/src/main/java/com/splitwise/service/GroupService.java:161-169 | the search ignores the query's case, and the empty query lists all the user's groups |
| GroupService.GroupService.SearchFindsName | backend/src/main/java/com/splitwise/service/GroupService.java:164 | a group of the user whose name contains the query is found |
| GroupService.GroupService.CreatorIsMember | backend/src/main/java/com/splitwise/service/GroupService.java:107-137 | in every reachable table the creator is a member: admin implies member, and a known group has at least one member |
| GroupService.MemberNotFound | backend/src/main/java/com/splitwise/service/GroupService.java:43 | the message is "Member not found: " followed by the id in decimal |
| GroupService.GroupService.IsUserMemberOfGroup | backend/src/main/java/com/splitwise/service/GroupService.java:107-115 | false for an unknown group; true when a member has the user's id; a member implies a non-zero member count |
| GroupService.GroupService.IsUserAdminOfGroup | backend/src/main/java/com/splitwise/service/GroupService.java:117-124 | false for an unknown group |
| GroupService.GroupService.GroupMemberCount | backend/src/main/java/com/splitwise/service/GroupService.java:134-137 | the group's member count, 0 for an unknown group |
| GroupService.GroupService.IsGroupActive | backend/src/main/java/com/splitwise/service/GroupService.java:151-154 | an active group is known and not flagged archived; a known group with default settings is active |
| GroupService.GroupService.IsGroupArchived | backend/src/main/java/com/splitwise/service/GroupService.java:156-159 | an archived group is known and not active; a known group with default settings is not archived |
| GroupService.GroupService.UnknownGroupQueries | backend/src/main/java/com/splitwise/service/GroupService.java:107-159 | for an unknown group, member, admin, active and archived are false, and the count is 0 |
| GroupService.ArchiveTwice | backend/src/main/java/com/splitwise/service/GroupService.java:171-176 | archiving twice gives the same outcome twice, and an archived group is not active |
| GroupsState.GroupsState.constructor | frontend/src/app/core/state/groups.state.ts:10-18 | an empty list, not loading, no error |
| GroupsState.GroupsState.SortedGroups | frontend/src/app/core/state/groups.state.ts:26-30 | a permutation of the groups, newest update first, stable for equal times; the stored list is not reordered |
| GroupsState.GroupsState.GroupById | frontend/src/app/core/state/groups.state.ts:72-74 | the first group with the id, or none exactly when no group has it |
| GroupsState.GroupsState.LoadGroups | frontend/src/app/core/state/groups.state.ts:34-50 | success replaces the whole list; failure keeps it, sets the error and yields an empty result |
| GroupsState.GroupsState.CreateGroup | frontend/src/app/core/state/groups.state.ts:52-69 | success appends exactly the new group; failure keeps the list, sets the error and passes the failure on |
| GroupsState.CreateThenFind | frontend/src/app/core/state/groups.state.ts:58-74 | a created group with a new id is then found by that id |
| GroupsState.SortedViewOfSortedList | frontend/src/app/core/state/groups.state.ts:26-30 | sorting an already sorted list changes nothing |
| ExpensesState.AmountTotalConcat | frontend/src/app/core/state/expenses.state.ts:63 | the `reduce` sum splits over a concatenation |
| ExpensesState.UnpaidOthersIsFilter | frontend/src/app/core/state/expenses.state.ts:62-63 | summing the unpaid shares of others is filtering, then summing |
| ExpensesState.OwedTotalIsPipeline | frontend/src/app/core/state/expenses.state.ts:59-63 | the expense-by-expense total equals the source's filter/flatMap/filter/reduce pipeline |
| ExpensesState.ExpensesState.constructor | frontend/src/app/core/state/expenses.state.ts:10-21 | no expenses, no active group, not loading, no error |
| ExpensesState.ExpensesState.ActiveGroupExpenses | frontend/src/app/core/state/expenses.state.ts:29-34 | empty without an active group or with the empty id; otherwise exactly the expenses of that group, in stored order (the list filtered by the group test) |
| ExpensesState.ExpensesState.YouOwe | frontend/src/app/core/state/expenses.state.ts:37-53 | 0 with nobody logged in; otherwise, over the expenses the user did not pay, the user's first unpaid share in each, summed |
| ExpensesState.ExpensesState.YouAreOwed | frontend/src/app/core/state/expenses.state.ts:55-64 | 0 with nobody logged in; otherwise the unpaid shares of other users in the expenses the user paid, summed |
| ExpensesState.ExpensesState.NetBalance | frontend/src/app/core/state/expenses.state.ts:66-68 | 0 with nobody logged in |
| ExpensesState.ExpensesState.SetActiveGroupId | frontend/src/app/core/state/expenses.state.ts:75-77 | sets the active group and nothing else |
| ExpensesState.ExpensesState.LoadGroupExpenses | frontend/src/app/core/state/expenses.state.ts:79-98 | the group becomes active; success keeps the other groups' expenses in order, followed by the fetched ones; failure keeps the list, sets the error and yields nothing |
| ExpensesState.ExpensesState.CreateExpense | frontend/src/app/core/state/expenses.state.ts:100-117 | success appends exactly one expense; failure keeps the list, sets the error and passes the failure on |
| ExpensesState.MergeShowsFetched | frontend/src/app/core/state/expenses.state.ts:86-90 | after a load, the group's expenses are exactly the fetched ones and the other groups' are as before |
| ExpensesState.MergeIdempotent | frontend/src/app/core/state/expenses.state.ts:86-90 | loading the same group twice gives the list one load gives |
| ExpensesState.LoadThenView | frontend/src/app/core/state/expenses.state.ts:29-34 | after a successful load of a non-empty group id, the active-group view is the fetched list |
| ExpensesState.SettledBalancesAreZero | frontend/src/app/core/state/expenses.state.ts:37-64 | when every share is paid, the user owes and is owed nothing |
| ExpensesState.AllPaidUnpaidOthers | frontend/src/app/core/state/expenses.state.ts:62 | paid shares add nothing to what others owe |
| ExpensesState.MarkPaidUnpaidOthers | frontend/src/app/core/state/expenses.state.ts:62 | marking a share of non-negative amount paid never raises the unpaid sum |
| ExpensesState.MarkPaidOwedNeverIncreases | frontend/src/app/core/state/expenses.state.ts:59-63 | marking a share of non-negative amount paid never increases what the user is owed |
| ExpensesState.MarkPaidOweNeverIncreases | frontend/src/app/core/state/expenses.state.ts:41-52 | marking a share paid never increases what the user owes, when its user has no other share in that expense |
| ExpensesState.SameTestSameFind | frontend/src/app/core/state/expenses.state.ts:44-46 | `find` gives the same position on lists the test cannot tell apart |
| ExpensesState.SecondShareComesForward | frontend/src/app/core/state/expenses.state.ts:44-48 | with two unpaid shares of one user, paying the first brings the larger second one forward, so what they owe grows |
| Contacts.Contact.Linked | backend/src/main/java/com/splitwise/model/Contact.java:70-75 | a link to a registered user: no stored name, email or phone; pending, friend, not blocked |
| Contacts.Contact.Unlinked | backend/src/main/java/com/splitwise/model/Contact.java:77-83 | a contact known by name and email only; pending, friend, not blocked |
| Contacts.Contact.DisplayName | backend/src/main/java/com/splitwise/model/Contact.java:186-191 | the linked user's full name, else the stored name |
| Contacts.Contact.DisplayEmail | backend/src/main/java/com/splitwise/model/Contact.java:193-198 | the linked user's email, else the stored email |
| Contacts.Contact.IsRegisteredUser | backend/src/main/java/com/splitwise/model/Contact.java:200-202 | a linked contact is registered and shows the user's email; an unlinked one shows the stored name and email |
| Contacts.Contact.IsPending | backend/src/main/java/com/splitwise/model/Contact.java:204-206 | a pending contact is not accepted |
| Contacts.Contact.IsAccepted | backend/src/main/java/com/splitwise/model/Contact.java:208-210 | an accepted contact is not pending, blocked or declined |
| Contacts.Contact.IsBlockedContact | backend/src/main/java/com/splitwise/model/Contact.java:212-214 | an unset flag is not blocked; blocked only when the flag is true |
| Contacts.NewContactIsPending | backend/src/main/java/com/splitwise/model/Contact.java:35-42 | a new contact of either kind is pending, not accepted, not blocked, and registered exactly when linked |
| Contacts.StatusTests | backend/src/main/java/com/splitwise/model/Contact.java:204-214 | pending and accepted exclude each other; blocked iff the flag is set and true |
| ContactService.ConsistentLookup | backend/src/main/java/com/splitwise/repository/ContactRepository.java:38 | in a consistent table the pair lookup, which returns at most one contact, finds exactly one when it finds any |
| ContactService.InsertLookups | backend/src/main/java/com/splitwise/service/ContactService.java:92-95 | storing a contact adds its id to exactly the lookups it matches |
| ContactService.InsertConsistent | backend/src/main/java/com/splitwise/service/ContactService.java:81-95 | storing a link no existing link duplicates, and not to oneself, keeps the table consistent |
| ContactService.RemoveConsistent | backend/src/main/java/com/splitwise/service/ContactService.java:219-226 | deleting contacts keeps the table consistent |
| ContactService.ContactService.constructor | backend/src/main/java/com/splitwise/service/ContactService.java:18-24 | an empty contact table over the given users |
| ContactService.ContactService.Store | backend/src/main/java/com/splitwise/service/ContactService.java:94 | a saved contact gets the next id |
| ContactService.ContactService.AddContactByUserId | backend/src/main/java/com/splitwise/service/ContactService.java:74-96 | fails on unknown users, then an existing pair, then a self-add, and changes nothing; otherwise stores a pending link with the given relationship and keeps the table consistent |
| ContactService.ContactService.NewEmailContact | backend/src/main/java/com/splitwise/service/ContactService.java:110-122 | links the registered user when the email belongs to one, else stores name and email; pending with the given relationship |
| ContactService.ContactService.AddContactByEmail | backend/src/main/java/com/splitwise/service/ContactService.java:99-126 | as written: fails only on an unknown owner or a stored duplicate email; otherwise stores the new contact |
| ContactService.ContactService.AddContactByEmailChecked | backend/src/main/java/com/splitwise/service/ContactService.java:99-126 | with the pair and self checks of `addContactByUserId` added, the table stays consistent |
| ContactService.ContactService.AcceptInvitation | backend/src/main/java/com/splitwise/service/ContactService.java:129-149 | succeeds only for the pending invitation's target and sets ACCEPTED, stamping the update time; adds the reverse ACCEPTED link with the same relationship unless one exists; a second accept fails |
| ContactService.ContactService.DeclineInvitation | backend/src/main/java/com/splitwise/service/ContactService.java:152-167 | same guard as accepting; sets DECLINED and stamps the update time |
| ContactService.ContactService.SetBlocked | backend/src/main/java/com/splitwise/service/ContactService.java:170-205 | only the owner may; blocking sets the flag and BLOCKED, unblocking clears it and sets ACCEPTED whatever came before; the update time moves to now exactly when flag or status changed |
| ContactService.ContactService.UpdateContactRelationship | backend/src/main/java/com/splitwise/service/ContactService.java:272-288 | only the owner may; only the relationship type changes, and the update time moves to now exactly when the type changed |
| ContactService.ContactService.StoreReverse | backend/src/main/java/com/splitwise/service/ContactService.java:260-269 | the reverse link is stored under the next id as ACCEPTED with the same relationship, and the pair lookup then finds exactly it |
| ContactService.ContactService.RemoveContact | backend/src/main/java/com/splitwise/service/ContactService.java:208-227 | only the owner may; deletes the contact and its reverse link, if any |
| ContactService.DuplicateLinkThroughEmail | backend/src/main/java/com/splitwise/service/ContactService.java:105-120 | adding a user by id, then by email, succeeds twice and leaves two links for one pair |
| ContactService.SelfLinkThroughEmail | backend/src/main/java/com/splitwise/service/ContactService.java:105-120 | adding one's own email succeeds as written and is refused by the corrected check |
| ContactDtos.FromContact | backend/src/main/java/com/splitwise/dto/ContactDto.java:24-42 | registered iff linked, and then the linked user's profile is attached and name, email and phone are null; otherwise they are copied; status, relationship, blocked flag and time copied |
| ContactDtos.DisplayName | backend/src/main/java/com/splitwise/dto/ContactDto.java:134-139 | the profile's full name, else the stored name |
| ContactDtos.DisplayEmail | backend/src/main/java/com/splitwise/dto/ContactDto.java:141-146 | the profile's email, else the stored email |
| ContactDtos.AvatarUrl | backend/src/main/java/com/splitwise/dto/ContactDto.java:148-153 | null for an unregistered contact, else the profile's avatar |
| ContactDtos.FirstLetter | backend/src/main/java/com/splitwise/dto/ContactDto.java:161-162 | `substring(0, 1)` succeeds exactly on a non-empty string |
| ContactDtos.NameInitialsFailure | backend/src/main/java/com/splitwise/dto/ContactDto.java:159-162 | the stored-name initials throw exactly when the name starts with a space and is not all spaces; an all-space name gives ""; otherwise they start with the name's first letter |
| ContactDtos.DtoAgreesWithContact | backend/src/main/java/com/splitwise/dto/ContactDto.java:134-177 | the DTO and the entity agree on display name and email, registration and status tests |
| ContactDtos.NameInitials | backend/src/main/java/com/splitwise/dto/ContactDto.java:159-162 | at most two letters: the name's first letter, then the first letter of the last space-separated part when there are at least two parts |
| ContactDtos.Initials | backend/src/main/java/com/splitwise/dto/ContactDto.java:155-165 | the profile's initials for a registered contact; "" without a stored name or with an empty one; for a stored name not starting with a space, one or two letters starting with its first letter; with two or more parts the second letter is the last part's first letter, with one part there is no second letter |
| ContactDtos.IsBlocked | backend/src/main/java/com/splitwise/dto/ContactDto.java:175-177 | an unset flag is not blocked; blocked only when the flag is true |
| ContactDtos.IsPending | backend/src/main/java/com/splitwise/dto/ContactDto.java:167-169 | a pending contact is not accepted |
| ContactDtos.IsAccepted | backend/src/main/java/com/splitwise/dto/ContactDto.java:171-173 | an accepted contact is not pending, blocked or declined |
| ContactDtos.RegisteredInitials | backend/src/main/java/com/splitwise/dto/ContactDto.java:156-158 | a registered contact's initials are the profile's, failing only on an empty first or last name |
| UserProfile.FromUser | backend/src/main/java/com/splitwise/dto/UserProfileDto.java:31-50 | every listed field of the user is copied |
| UserProfile.FullName | backend/src/main/java/com/splitwise/dto/UserProfileDto.java:198-200 | first name, one space, last name, with null rendered as "null" |
| UserProfile.DisplayName | backend/src/main/java/com/splitwise/dto/UserProfileDto.java:202-204 | the username when set, else the full name |
| UserProfile.Initials | backend/src/main/java/com/splitwise/dto/UserProfileDto.java:206-209 | the first letter of each non-null name part; throws iff a non-null part is empty |
| UserProfile.ProfileAgreesWithUser | backend/src/main/java/com/splitwise/dto/UserProfileDto.java:31-50 | the profile's full and display names are the user's |
| UserService.UserService.constructor | backend/src/main/java/com/splitwise/service/UserService.java:16-22 | an empty user table |
| UserService.UserService.CreateError | backend/src/main/java/com/splitwise/service/UserService.java:25-31 | a taken username fails first, a taken email only otherwise |
| UserService.UserService.CreateUser | backend/src/main/java/com/splitwise/service/UserService.java:24-41 | fails as `CreateError` says and stores nothing; otherwise stores one user with the encoded password and the given names |
| UserService.UserService.UpdateUser | backend/src/main/java/com/splitwise/service/UserService.java:59-79 | fails for a missing user or an email another user has, and changes nothing; otherwise changes the names and the email only when given, never the username, password, groups or any other profile field (`User.ProfileUnchanged`) |
| UserService.ApplyUpdate | backend/src/main/java/com/splitwise/service/UserService.java:63-77 | the assignments of `updateUser`, each only for a non-null field; the username, password, groups and every other profile field keep their values |
| UserService.UpdateTwice | backend/src/main/java/com/splitwise/service/UserService.java:59-79 | applying the same update twice gives the result of once |
| Numbers.ParseLong | backend/src/main/java/com/splitwise/config/JwtAuthenticationFilter.java:47 | a parsed value lies in the 64-bit range, and the empty string does not parse |
| Numbers.ParseLongShowNat | backend/src/main/java/com/splitwise/config/JwtAuthenticationFilter.java:47 | printing then parsing an in-range number gives it back |
| Numbers.ParseLongRejectsNonDigit | backend/src/main/java/com/splitwise/config/JwtAuthenticationFilter.java:47 | a non-digit after the optional sign fails |
| Numbers.ParseLongNegative | backend/src/main/java/com/splitwise/config/JwtAuthenticationFilter.java:47 | a minus sign negates |
| Numbers.ParseLongOverflow | backend/src/main/java/com/splitwise/config/JwtAuthenticationFilter.java:47 | one past the largest long fails |
| Numbers.DigitsValueShowNat | backend/src/main/java/com/splitwise/config/JwtAuthenticationFilter.java:47 | the digits printed for a number read back as that number |
| Strings.ReplaceAllLeading | backend/src/main/java/com/splitwise/config/JwtAuthenticationFilter.java:45 | replacing in a string that starts with the pattern replaces that occurrence first |
| Strings.ReplaceAllNoOccurrence | backend/src/main/java/com/splitwise/config/JwtAuthenticationFilter.java:45 | a string without the pattern's first character is unchanged |
| Strings.SplitOnFirstField | backend/src/main/java/com/splitwise/dto/ContactDto.java:160 | the first field is empty iff the string starts with the separator |
| Strings.DropTrailingEmpty | backend/src/main/java/com/splitwise/dto/ContactDto.java:160 | what `split` drops at the end is only empty fields, and what it keeps does not end with one |
| Strings.JavaSplitShape | backend/src/main/java/com/splitwise/dto/ContactDto.java:160 | `split` gives no parts exactly for an all-separator string, and a first empty part exactly when the string starts with the separator |
| Strings.ToLowerIdempotent | backend/src/main/java/com/splitwise/service/GroupService.java:164 | lower-casing twice is lower-casing once |
| Strings.ToLowerPreservesOccurrence | backend/src/main/java/com/splitwise/service/GroupService.java:164 | an occurrence survives lower-casing both strings |
| Strings.ToLower | backend/src/main/java/com/splitwise/service/GroupService.java:164 | same length; each letter A–Z is lowered and every other character kept |
| JwtFilter.TokenUserId | backend/src/main/java/com/splitwise/config/JwtAuthenticationFilter.java:30-47 | no id without a header or the "Bearer " prefix; an id only after "Bearer dummy-token-", and always in long range |
| JwtFilter.FilterChain.DoFilter | backend/src/main/java/com/splitwise/config/JwtAuthenticationFilter.java:64 | one more invocation of the chain |
| JwtFilter.DoFilterInternal | backend/src/main/java/com/splitwise/config/JwtAuthenticationFilter.java:27-65 | the chain runs exactly once; authentication is set iff the token designates an id the lookup finds, and is otherwise untouched |
| JwtFilter.DesignatedId | backend/src/main/java/com/splitwise/config/JwtAuthenticationFilter.java:38-47 | the id is the token with every "dummy-token-" removed, parsed as a long |
| JwtFilter.LoginTokenDesignatesTimestamp | backend/src/main/java/com/splitwise/controller/AuthController.java:48 | the login token "dummy-token-" + millis designates the timestamp as the user id |
| JwtFilter.DoubledPrefixDesignatesSameId | backend/src/main/java/com/splitwise/config/JwtAuthenticationFilter.java:45 | a doubled prefix is removed too, so it designates the same id |
| JwtFilter.NonNumericIdRejected | backend/src/main/java/com/splitwise/config/JwtAuthenticationFilter.java:56-58 | a non-numeric id designates nobody |
| JwtFilter.NoPrefixInDigits | backend/src/main/java/com/splitwise/config/JwtAuthenticationFilter.java:45 | digits contain no prefix to remove |
| Sequences.Filter | frontend/src/app/core/state/expenses.state.ts:33 | `filter` never lengthens |
| Sequences.FilterMembers | frontend/src/app/core/state/expenses.state.ts:33 | `filter` keeps exactly the elements that pass |
| Sequences.FilterConcat | frontend/src/app/core/state/expenses.state.ts:88-89 | filtering a concatenation filters each part |
| Sequences.FindIndex | frontend/src/app/core/state/groups.state.ts:73 | the first position that passes, none iff nothing passes |
| Sequences.Find | frontend/src/app/core/state/expenses.state.ts:44-46 | `find`: the first passing element, none iff nothing passes |
| Sequences.Take | frontend/src/app/services/activity.service.ts:53 | `slice(0, n)`: a prefix of length min(n, length) |
| Sequences.Map | frontend/src/app/services/activity.service.ts:54-69 | the `forEach` that pushes one item per element: one image per element, in order |
| Sequences.SortDescSorted | frontend/src/app/core/state/groups.state.ts:27-29 | the sort orders by key, largest first |
| Sequences.SortDescPermutes | frontend/src/app/core/state/groups.state.ts:27-29 | the sort is a permutation |
| Sequences.SortDescStable | frontend/src/app/core/state/groups.state.ts:27-29 | the sort is stable: equal keys keep their order |
| Sequences.SortDescOfSorted | frontend/src/app/core/state/groups.state.ts:27-29 | sorting a sorted list changes nothing |
| Sequences.SortDescMembers | frontend/src/app/core/state/groups.state.ts:27-29 | the sort keeps exactly the same elements |
| MockApi.NewShares | frontend/src/app/core/services/mock-api.service.ts:122-131 | succeeds iff every share user exists; then the shares keep the requested amounts, all unpaid, with no sum check; otherwise fails naming a missing user |
| MockApi.SeedTables | frontend/src/app/core/services/mock-api.service.ts:194-359 | three users with distinct emails, two groups, three expenses |
| MockApi.SeedExpensesBalance | frontend/src/app/core/services/mock-api.service.ts:194-359 | each seeded expense's shares add up to its amount |
| MockApi.MockApiService.constructor | frontend/src/app/core/services/mock-api.service.ts:21-26 | stored tables are kept when they hold users; otherwise the seed data is created; stored tokens are kept |
| MockApi.MockApiService.Login | frontend/src/app/core/services/mock-api.service.ts:28-46 | fails iff no user has the email; otherwise records a token for that user and returns both |
| MockApi.MockApiService.Register | frontend/src/app/core/services/mock-api.service.ts:48-79 | fails iff the email is in use; otherwise appends exactly one user and records its token; emails stay unique |
| MockApi.MockApiService.GetGroups | frontend/src/app/core/services/mock-api.service.ts:81-83 | the stored groups |
| MockApi.MockApiService.CreateGroup | frontend/src/app/core/services/mock-api.service.ts:85-101 | appends one group with no members and a description defaulting to "" |
| MockApi.MockApiService.GetGroupExpenses | frontend/src/app/core/services/mock-api.service.ts:103-106 | exactly the stored expenses of the group, in stored order (the list filtered by the group test) |
| MockApi.MockApiService.CreateExpense | frontend/src/app/core/services/mock-api.service.ts:108-151 | fails for an unknown payer, a given but unknown group, or an unknown share user, and appends nothing; otherwise appends exactly one expense |
| MockApi.RegisterThenLogin | frontend/src/app/core/services/mock-api.service.ts:28-79 | a registered user can log in as themselves, and the newer token is kept |
| MockApi.CreateThenList | frontend/src/app/core/services/mock-api.service.ts:103-151 | a created expense is listed in its group |
| MockInterceptor.GroupExpensesId | frontend/src/app/core/interceptors/mock-api.interceptor.ts:42-45 | a match captures a non-empty, slash-free segment that rebuilds the URL |
| MockInterceptor.GroupExpensesIdOfPath | frontend/src/app/core/interceptors/mock-api.interceptor.ts:85-91 | the URL built from a segment gives that segment back |
| MockInterceptor.GroupExpensesIdExact | frontend/src/app/core/interceptors/mock-api.interceptor.ts:85-91 | a URL matches iff it is built from a segment |
| MockInterceptor.ExtractGroupId | frontend/src/app/core/interceptors/mock-api.interceptor.ts:85-91 | the captured id, or "Invalid URL format" for a URL that does not match |
| MockInterceptor.GroupExpensesRouteExact | frontend/src/app/core/interceptors/mock-api.interceptor.ts:42-45 | a request routes to a group's expenses iff it is a GET of that group's URL |
| MockInterceptor.Wrap | frontend/src/app/core/interceptors/mock-api.interceptor.ts:93-105 | a result becomes a 200 response with it as body; an error is passed on |
| MockInterceptor.Intercept | frontend/src/app/core/interceptors/mock-api.interceptor.ts:17-53 | routes that are not mocked are forwarded unchanged, and only they are; the read routes and a body that does not fit change nothing; each mocked route answers 200 exactly when its backend operation succeeds; login and registration answer the user with the token and record the token, group creation answers the group it appends, expense creation answers the expense it appends and appends nothing on failure |
| Activity.FullName | frontend/src/app/services/activity.service.ts:56 | the concatenated name always contains a space |
| Activity.UnknownUnreachable | frontend/src/app/services/activity.service.ts:56 | the "Unknown" fallback is never used |
| Activity.ShownGroup | frontend/src/app/services/activity.service.ts:55 | the expense's group, else a listed group whose id is equally missing |
| Activity.Feed | frontend/src/app/services/activity.service.ts:37-94 | empty without a current user; otherwise min(10, expenses) + min(5, groups) items |
| Activity.FeedShape | frontend/src/app/services/activity.service.ts:51-91 | min(10, expenses) + min(5, groups) items, so at most 15, newest first |
| Activity.FeedItems | frontend/src/app/services/activity.service.ts:58-91 | the feed holds exactly the items of the recent expenses and groups |
| Activity.ItemIdsByKind | frontend/src/app/services/activity.service.ts:59-79 | ids are "expense-" and "group-" prefixed, so the two kinds never clash |
| Activity.RecentExpensesAreLatest | frontend/src/app/services/activity.service.ts:51-53 | the kept expenses are the latest by creation time |
| Activity.YouIffSameName | frontend/src/app/services/activity.service.ts:82-84 | a group item shows "You" iff the creator's full name equals the user's |
| Activity.Overwrite | frontend/src/app/services/activity.service.ts:51 | the array now holds the given sequence |
| Activity.PushExpenseItems | frontend/src/app/services/activity.service.ts:54-69 | the loop pushes one item per expense, in order |
| Activity.PushGroupItems | frontend/src/app/services/activity.service.ts:75-89 | the loop pushes one item per group, in order |
| Activity.UserActivities | frontend/src/app/services/activity.service.ts:37-94 | the feed is `Feed` of the inputs; with no user it is empty and the arrays are untouched; otherwise both arrays are sorted in place, newest first |
| Activity.FirstFamilyIconNone | frontend/src/app/services/activity.service.ts:106-126 | with no matching family, the fallback |
| Activity.FirstFamilyIconFirst | frontend/src/app/services/activity.service.ts:106-126 | the icon of the first matching family |
| Activity.FirstFamilyIconFallback | frontend/src/app/services/activity.service.ts:125 | the fallback exactly when no family gives it |
| Activity.FirstIndex | frontend/src/app/services/activity.service.ts:106-126 | a match implies a first match |
| Activity.ExpenseIcon | frontend/src/app/services/activity.service.ts:106-126 | one of the nine expense icons; a description mentioning food in any case gets 🍽️ |
| Activity.GroupIcon | frontend/src/app/services/activity.service.ts:128-142 | one of the six group icons; a name mentioning a trip in any case gets 🧳 |
| Activity.ExpenseIconFollowsTable | frontend/src/app/services/activity.service.ts:106-126 | the expense icon is the first matching keyword family in the source's order over the lower-cased description, else 💳 |
| Activity.GroupIconFollowsTable | frontend/src/app/services/activity.service.ts:128-142 | the group icon is the first matching keyword family over the lower-cased name, else 👥 |
| Activity.ExpenseIconDefault | frontend/src/app/services/activity.service.ts:125 | 💳 exactly when no keyword occurs |
| Activity.GroupIconDefault | frontend/src/app/services/activity.service.ts:141 | 👥 exactly when no keyword occurs |
| Activity.IconsIgnoreCase | frontend/src/app/services/activity.service.ts:106-142 | both icons ignore letter case |
| Activity.DinnerAtBarIsFood | frontend/src/app/services/activity.service.ts:109-110 | the food family comes before the drinks family, so "Dinner at the bar" shows the food icon |

## Left out

- ExpensesState.ExpensesState.NetBalance: states only that it is 0 with nobody logged in. Its value is `YouAreOwed − YouOwe`, and `YouOwe` is a method that a function cannot call, so the relation holds by its definition and is not stated again.
- ExpensesState.MarkPaidOweNeverIncreases: proved only when the user has no second share in the marked expense and the amount is non-negative. In general it is false: `find` takes the first unpaid share, and `SecondShareComesForward` shows the total growing.
- ExpensesState.MarkPaidOwedNeverIncreases: proved for a share of non-negative amount only. A negative share, which nothing forbids, makes the total grow.
- ExpenseService.ExpenseService.TotalOwedFacts: the sum is stated over the shares reachable from stored expenses. No separate share repository is modelled.
- ContactService.ContactService.NewEmailContact: the `@Email` constraint on the stored contact email (Contact.java:26) is not checked, so a malformed address is stored rather than refused on save.
- ContactService.ContactService.AddContactByEmail: does not refuse a malformed email, for the `@Email` reason given for `NewEmailContact`.
- ContactService.ContactService.AddContactByEmailChecked: does not refuse a malformed email, for the `@Email` reason given for `NewEmailContact`.
- `@PreUpdate` stamps `updatedAt` on save when a simple field of a contact or group changed. The model assumes that a change of a group's member collection alone does not count, so `AddMemberToGroup`, `RemoveMemberFromGroup` and a member-only `UpdateGroup` keep the update time.
- Operations not modelled:
  - `Group.addExpense` and `removeExpense`;
  - the listings of `GroupService`: `getAllGroups`, `getGroupsByUserId`, `getGroupsByUser`, `getGroupById` and `getGroupMembers`, which return the stored groups or members unchanged;
  - the listings of `ContactService`: `getUserContacts`, `getUserFriends`, `getPendingInvitations`, `getReceivedInvitations`, `searchContacts`, `getBlockedContacts` and `getFriendsCount`, which filter or count the owner's contacts;
  - the lookups of `UserService` (`getAllUsers`, `getUserById`, `getUserByUsername`, `getUserByEmail`), `updateUserProfile`, which saves the user as given, and `deleteUser`;
  - `deleteGroup` and `deleteExpense`;
  - `getGroupExpenseCount` and `getGroupTotalSpent`, which are placeholders that return 0.
- The REST controllers, the Angular components, the HTTP wrapper services, the guards and the fake auth service are not part of this model.
- Spring Data repositories are maps keyed by id, and JPQL queries are functions over those maps.
- `@Transactional` is modelled as atomic operations: every check happens before any change. The source saves the expense before creating its shares and relies on rollback.
- JPA bean validation is modelled for the expense (description non-blank and at most 200 characters, amount positive), the share (amount positive) and the group on save. Lazy loading and cascades are not modelled.
- `PasswordEncoder` is a function parameter, and so is the user lookup of the JWT filter. A lookup that throws is modelled like one that returns null. Nothing escapes in either case, as in the source.
- `WebAuthenticationDetailsSource` details are not modelled.
- `System.currentTimeMillis`, `LocalDateTime.now`, `Date.now`, uuids and random tokens are parameters.
- `localStorage` is a snapshot parameter of the mock backend's constructor. `saveData` is not modelled.
- `getNotifications` and `markAsRead` of the activity service are not modelled: they are plain HTTP calls.
- rxjs `delay`, observables, signals and `computed` are not modelled. Each exchange is one atomic step, and derived signals are functions of the state.
- In the source, the interceptor passes request bodies to the backend without checking them. Here a body that does not fit the route yields the failure "Invalid request body".
- In the source, an unknown share user throws synchronously inside `createExpense`. Here it is an error result.
- Java's `toLowerCase` and JavaScript's `toLowerCase` are modelled on ASCII letters only.
- Emoji icons are sequences of Unicode code points. UTF-16 code units are not modelled.
- JavaScript `number` money is integer cents, and dates are integer milliseconds.
- Entities.User.constructor: the `User` entity class is not part of this model, so its starting profile values are not known. The sibling `Group` entity starts its currency at "USD" and stamps `createdAt`, and the profile endpoint reports `createdAt` as the member-since date, so `User` probably does the same for at least `createdAt` and `defaultCurrency`. The model starts every profile field unset, and nothing proved depends on those starting values.
- Numbers.ParseLong: accepts only the ASCII digits 0-9. `Long.parseLong` also accepts every other Unicode decimal digit that `Character.digit` knows (for example Arabic-Indic digits), so `JwtFilter.NonNumericIdRejected` and `Numbers.ParseLongRejectsNonDigit` hold only for ASCII input; such a token is refused here where the source would resolve it to an id.
- A `long` is an unbounded integer checked against the 64-bit range where `Long.parseLong` checks it. No arithmetic on longs is modelled.

## Findings

| source | as written | input that shows it | evidently intended | confidence | as-written member | corrected member |
|---|---|---|---|---|---|---|
| backend/src/main/java/com/splitwise/service/ContactService.java:105-120 | `addContactByEmail` checks only for a stored contact email; once the email belongs to a registered user, it links that user without the pair check or the self check of `addContactByUserId` | user 1 adds user 2 by id, then by user 2's email: two contacts link 1 to 2. User 1 adding their own email links 1 to 1 | refuse an existing (user, contact user) pair and refuse oneself, as `addContactByUserId` does | not executed | ContactService.DuplicateLinkThroughEmail | ContactService.ContactService.AddContactByEmailChecked |
