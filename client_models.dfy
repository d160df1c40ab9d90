/** The client's view of users, groups and expenses, as the mock backend and
    the client stores exchange them. Ids are strings, money is in integer
    cents and times are integer milliseconds. */
module ClientModels {
  import opened Wrappers

  datatype ClientUser = ClientUser(
    id: string,
    username: string,
    email: string,
    firstName: string,
    lastName: string,
    profileImageUrl: Option<string>)

  datatype GroupKind = Apartment | Trip | Couple | OtherKind

  datatype MemberRole = Admin | Member

  datatype GroupMember = GroupMember(user: ClientUser, role: MemberRole, joinedAt: int)

  datatype ClientGroup = ClientGroup(
    id: string,
    name: string,
    description: Option<string>,
    createdAt: int,
    updatedAt: int,
    members: seq<GroupMember>,
    kind: GroupKind,
    isPrivate: bool)

  datatype ExpenseCategory = Food | Rent | Utilities | Transportation | Entertainment | Shopping | Travel | Medical | OtherCategory

  datatype ShareView = ShareView(user: ClientUser, amount: int, isPaid: bool)

  datatype ClientExpense = ClientExpense(
    id: string,
    description: string,
    amount: int,
    currency: string,
    paidBy: ClientUser,
    createdAt: int,
    updatedAt: int,
    group: Option<ClientGroup>,
    category: ExpenseCategory,
    shares: seq<ShareView>)

  /** `expense.group?.id === groupId`. */
  predicate InGroup(e: ClientExpense, groupId: string) {
    e.group.Some? && e.group.value.id == groupId
  }

  function InGroupTest(groupId: string): ClientExpense -> bool {
    (e: ClientExpense) => InGroup(e, groupId)
  }

  function OtherGroupTest(groupId: string): ClientExpense -> bool {
    (e: ClientExpense) => !InGroup(e, groupId)
  }
}
