/** `MockApiInterceptor`: routes the client's "/api/" requests to the mock
    backend by URL and method and wraps each answer as an HTTP 200 response;
    every other request goes on to the real HTTP handler. */
module MockInterceptor {
  import opened Wrappers
  import opened Strings
  import opened Sequences
  import opened ClientModels
  import opened MockApi

  const ApiPrefix: string := "/api/"
  const GroupsPrefix: string := "/api/groups/"
  const ExpensesSuffix: string := "/expenses"
  const InvalidUrl: string := "Invalid URL format"
  const InvalidBody: string := "Invalid request body"

  /** Where a request goes. */
  datatype Route =
    | PassThrough
    | LoginRoute
    | RegisterRoute
    | GetGroupsRoute
    | CreateGroupRoute
    | GroupExpensesRoute(groupId: string)
    | CreateExpenseRoute

  /** The body a client sends, already decoded. */
  datatype RequestBody =
    | NoBody
    | LoginBody(email: string, password: string)
    | RegisterBody(register: RegisterRequest)
    | NewGroupBody(group: CreateGroupRequest)
    | NewExpenseBody(expense: CreateExpenseRequest)

  datatype Request = Request(url: string, verb: string, body: RequestBody)

  /** What the mock backend answers. */
  datatype ResponseBody =
    | AuthBody(auth: AuthResponse)
    | GroupsBody(groups: seq<ClientGroup>)
    | GroupBody(group: ClientGroup)
    | ExpensesBody(expenses: seq<ClientExpense>)
    | ExpenseBody(expense: ClientExpense)

  /** What the interceptor hands back: the request forwarded unchanged, an
      HTTP response, or the backend's error passed on. */
  datatype HttpOutcome =
    | Forwarded(request: Request)
    | Response(status: int, body: ResponseBody)
    | Failure(error: string)

  /** A path segment `[^/]+`: non-empty and without a slash. */
  predicate IsSegment(s: string) {
    |s| > 0 && forall i | 0 <= i < |s| :: s[i] != '/'
  }

  function GroupExpensesPath(groupId: string): string {
    GroupsPrefix + groupId + ExpensesSuffix
  }

  /** The group id captured by `^/api/groups/([^/]+)/expenses$`, if the URL matches. */
  function GroupExpensesId(url: string): (r: Option<string>)
    ensures r.Some? ==> IsSegment(r.value) && url == GroupExpensesPath(r.value)
  {
    if |url| >= |GroupsPrefix| + |ExpensesSuffix| && StartsWith(url, GroupsPrefix) && EndsWith(url, ExpensesSuffix)
       && IsSegment(url[|GroupsPrefix|..|url| - |ExpensesSuffix|])
    then
      var id := url[|GroupsPrefix|..|url| - |ExpensesSuffix|];
      assert url == url[..|GroupsPrefix|] + id + url[|url| - |ExpensesSuffix|..];
      Some(id)
    else None
  }

  /** The URL built from a segment is matched and gives that segment back. */
  lemma GroupExpensesIdOfPath(groupId: string)
    requires IsSegment(groupId)
    ensures GroupExpensesId(GroupExpensesPath(groupId)) == Some(groupId)
  {
    var url := GroupExpensesPath(groupId);
    assert url[..|GroupsPrefix|] == GroupsPrefix;
    assert url[|url| - |ExpensesSuffix|..] == ExpensesSuffix;
    assert url[|GroupsPrefix|..|url| - |ExpensesSuffix|] == groupId;
  }

  /** A URL is matched exactly when it is built from a segment. */
  lemma GroupExpensesIdExact(url: string)
    ensures GroupExpensesId(url).Some? <==> exists id | IsSegment(id) :: url == GroupExpensesPath(id)
  {
    if id :| IsSegment(id) && url == GroupExpensesPath(id) {
      GroupExpensesIdOfPath(id);
    }
  }

  /** `extractGroupId`: the captured id, or the "Invalid URL format" error. */
  function ExtractGroupId(url: string): (r: Result<string>)
    ensures r.Ok? <==> GroupExpensesId(url).Some?
    ensures r.Ok? ==> IsSegment(r.value) && url == GroupExpensesPath(r.value)
    ensures r.Err? ==> r.error == InvalidUrl
  {
    match GroupExpensesId(url)
    case None => Err(InvalidUrl)
    case Some(id) => Ok(id)
  }

  /** `intercept`'s dispatch, checked in the source's order. */
  function RouteOf(url: string, verb: string): Route {
    if !StartsWith(url, ApiPrefix) then PassThrough
    else if url == "/api/auth/login" && verb == "POST" then LoginRoute
    else if url == "/api/auth/register" && verb == "POST" then RegisterRoute
    else if url == "/api/groups" && verb == "GET" then GetGroupsRoute
    else if url == "/api/groups" && verb == "POST" then CreateGroupRoute
    else if GroupExpensesId(url).Some? && verb == "GET" then GroupExpensesRoute(ExtractGroupId(url).value)
    else if url == "/api/expenses" && verb == "POST" then CreateExpenseRoute
    else PassThrough
  }

  /** A GET of a group's expenses URL is routed to that group, and only such
      a request is; the id extraction behind it therefore never throws. */
  lemma GroupExpensesRouteExact(url: string, verb: string, groupId: string)
    ensures RouteOf(url, verb) == GroupExpensesRoute(groupId)
            <==> verb == "GET" && IsSegment(groupId) && url == GroupExpensesPath(groupId)
  {
    if verb == "GET" && IsSegment(groupId) && url == GroupExpensesPath(groupId) {
      GroupExpensesIdOfPath(groupId);
      assert url[..|ApiPrefix|] == ApiPrefix by {
        assert url[..|ApiPrefix|] == GroupsPrefix[..|ApiPrefix|];
      }
      assert url != "/api/auth/login" && url != "/api/auth/register" && url != "/api/groups" by {
        assert |url| > |GroupsPrefix| + |ExpensesSuffix|;
      }
    }
  }

  /** The body the backend operation behind a route reads, if any. */
  predicate BodyFits(route: Route, body: RequestBody) {
    match route
    case LoginRoute => body.LoginBody?
    case RegisterRoute => body.RegisterBody?
    case CreateGroupRoute => body.NewGroupBody?
    case CreateExpenseRoute => body.NewExpenseBody?
    case _ => true
  }

  /** `createObservable`: a value becomes a 200 response carrying it; an error is passed on. */
  function Wrap<T>(r: Result<T>, toBody: T -> ResponseBody): (out: HttpOutcome)
    ensures r.Ok? <==> out.Response?
    ensures r.Ok? ==> out == Response(200, toBody(r.value))
    ensures r.Err? ==> out == Failure(r.error)
  {
    match r
    case Ok(v) => Response(200, toBody(v))
    case Err(e) => Failure(e)
  }

  function AsAuth(a: AuthResponse): ResponseBody { AuthBody(a) }
  function AsExpense(e: ClientExpense): ResponseBody { ExpenseBody(e) }

  /** `intercept`. Fresh ids, the token and the clock are parameters. The
      backend changes only for login, registration and the two creations; a
      forwarded request reaches the next handler unchanged. */
  method Intercept(api: MockApiService, request: Request, newId: string, token: string, now: int)
      returns (out: HttpOutcome)
    modifies api
    ensures RouteOf(request.url, request.verb) == PassThrough <==> out.Forwarded?
    ensures out.Forwarded? ==> out.request == request
    ensures out.Response? ==> out.status == 200
    ensures RouteOf(request.url, request.verb) in {PassThrough, GetGroupsRoute} || RouteOf(request.url, request.verb).GroupExpensesRoute?
              || !BodyFits(RouteOf(request.url, request.verb), request.body) ==>
              api.users == old(api.users) && api.groups == old(api.groups)
              && api.expenses == old(api.expenses) && api.tokens == old(api.tokens)
    ensures RouteOf(request.url, request.verb) == GetGroupsRoute ==> out == Response(200, GroupsBody(old(api.groups)))
    ensures RouteOf(request.url, request.verb).GroupExpensesRoute? ==>
              out == Response(200, ExpensesBody(api.GetGroupExpenses(RouteOf(request.url, request.verb).groupId)))
    ensures !BodyFits(RouteOf(request.url, request.verb), request.body) ==> out == Failure(InvalidBody)
    ensures RouteOf(request.url, request.verb) == LoginRoute && request.body.LoginBody? ==>
              (out.Response? <==> Find(old(api.users), HasEmail(request.body.email)).Some?)
    ensures RouteOf(request.url, request.verb) == RegisterRoute && request.body.RegisterBody? ==>
              (out.Response? <==> Find(old(api.users), HasEmail(request.body.register.email)).None?)
    ensures RouteOf(request.url, request.verb) == CreateGroupRoute && request.body.NewGroupBody? ==>
              out.Response? && |api.groups| == |old(api.groups)| + 1
    ensures RouteOf(request.url, request.verb) == CreateExpenseRoute && request.body.NewExpenseBody? ==>
              (out.Response? <==> old(api.CreateExpenseError(request.body.expense)).None?)
    ensures RouteOf(request.url, request.verb) == LoginRoute && request.body.LoginBody? ==>
              var user := Find(old(api.users), HasEmail(request.body.email));
              && api.users == old(api.users) && api.groups == old(api.groups) && api.expenses == old(api.expenses)
              && (user.Some? ==> out == Response(200, AuthBody(AuthResponse(user.value, token)))
                                 && api.tokens == old(api.tokens)[user.value.id := token])
              && (user.None? ==> out == Failure(InvalidCredentials) && api.tokens == old(api.tokens))
    ensures RouteOf(request.url, request.verb) == RegisterRoute && request.body.RegisterBody? ==>
              var req := request.body.register;
              var user := ClientUser(newId, req.username, req.email, req.firstName, req.lastName, None);
              && api.groups == old(api.groups) && api.expenses == old(api.expenses)
              && (out.Response? ==> out.body == AuthBody(AuthResponse(user, token))
                                    && api.users == old(api.users) + [user]
                                    && api.tokens == old(api.tokens)[newId := token])
              && (out.Failure? ==> out.error == EmailInUse && api.users == old(api.users) && api.tokens == old(api.tokens))
    ensures RouteOf(request.url, request.verb) == CreateGroupRoute && request.body.NewGroupBody? ==>
              && out.Response? && out.body.GroupBody?
              && api.groups == old(api.groups) + [out.body.group]
              && out.body.group.id == newId && out.body.group.name == request.body.group.name
              && out.body.group.members == [] && out.body.group.createdAt == now
              && api.users == old(api.users) && api.expenses == old(api.expenses) && api.tokens == old(api.tokens)
    ensures RouteOf(request.url, request.verb) == CreateExpenseRoute && request.body.NewExpenseBody? ==>
              && api.users == old(api.users) && api.groups == old(api.groups) && api.tokens == old(api.tokens)
              && (out.Response? ==> out.body.ExpenseBody? && out.body.expense.id == newId
                                    && api.expenses == old(api.expenses) + [out.body.expense])
              && (out.Failure? ==> out.error == old(api.CreateExpenseError(request.body.expense)).value
                                   && api.expenses == old(api.expenses))
  {
    var route := RouteOf(request.url, request.verb);
    if !BodyFits(route, request.body) {
      return Failure(InvalidBody);
    }
    match route {
      case PassThrough =>
        out := Forwarded(request);
      case LoginRoute =>
        var r := api.Login(request.body.email, token);
        out := Wrap(r, AsAuth);
      case RegisterRoute =>
        var r := api.Register(request.body.register, newId, token);
        out := Wrap(r, AsAuth);
      case GetGroupsRoute =>
        out := Response(200, GroupsBody(api.GetGroups()));
      case CreateGroupRoute =>
        var g := api.CreateGroup(request.body.group, newId, now);
        out := Response(200, GroupBody(g));
      case GroupExpensesRoute(groupId) =>
        out := Response(200, ExpensesBody(api.GetGroupExpenses(groupId)));
      case CreateExpenseRoute =>
        var r := api.CreateExpense(request.body.expense, newId, now);
        out := Wrap(r, AsExpense);
    }
  }
}
