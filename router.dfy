/** The route selection at the head of the server's `fetch`: the method and
    `url.pathname` pick exactly one handler, tried in source order, and anything
    that no test accepts falls through to the plain-text 404. */
module Router {
  import opened Options
  import opened Digits

  const USERS_PATH := "/api/users"
  const USER_ID_PREFIX := "/api/users/"
  const TODOS_PATH := "/api/todos"
  const TODO_ID_PREFIX := "/api/todos/"

  datatype Route =
    | WebSocket
    | Health
    | Info
    | Time
    | ListUsers
    | GetUser(idText: string)
    | CreateUser
    | ListTodos
    | GetTodo(idText: string)
    | PatchTodo(idText: string)
    | EchoGet
    | EchoPost
    | NotFound

  /** The anchored pattern `^<prefix>(\d+)$`: the captured digits, if `path` is
      `prefix` followed by a non-empty run of digits and nothing else. */
  function MatchId(path: string, prefix: string): (r: Option<string>)
    ensures r.Some? ==> IsNumeral(r.value) && path == prefix + r.value
    ensures r.None? ==> forall d :: IsNumeral(d) ==> path != prefix + d
  {
    if |prefix| < |path| && path[..|prefix|] == prefix && IsDigits(path[|prefix|..]) then
      assert path == prefix + path[|prefix|..];
      Some(path[|prefix|..])
    else
      assert forall d :: path == prefix + d ==> path[..|prefix|] == prefix && path[|prefix|..] == d;
      None
  }

  /** The route table read declaratively: the request each route answers,
      independent of the order in which `fetch` tries them. */
  predicate Selects(verb: string, path: string, r: Route) {
    match r
    case WebSocket => path == "/api/ws"
    case Health => path == "/api/health" && verb == "GET"
    case Info => path == "/api/info" && verb == "GET"
    case Time => path == "/api/time" && verb == "GET"
    case ListUsers => path == USERS_PATH && verb == "GET"
    case GetUser(d) => verb == "GET" && IsNumeral(d) && path == USER_ID_PREFIX + d
    case CreateUser => path == USERS_PATH && verb == "POST"
    case ListTodos => path == TODOS_PATH && verb == "GET"
    case GetTodo(d) => verb == "GET" && IsNumeral(d) && path == TODO_ID_PREFIX + d
    case PatchTodo(d) => verb == "PATCH" && IsNumeral(d) && path == TODO_ID_PREFIX + d
    case EchoGet => path == "/api/echo" && verb == "GET"
    case EchoPost => path == "/api/echo" && verb == "POST"
    case NotFound => false
  }

  /** The tests of `fetch`, in their order. The result is a route that accepts the
      request, or `NotFound` exactly when no route does. */
  function Dispatch(verb: string, path: string): (r: Route)
    ensures r != NotFound ==> Selects(verb, path, r)
    ensures r == NotFound ==> forall r' :: !Selects(verb, path, r')
  {
    var userMatch := MatchId(path, USER_ID_PREFIX);
    var todoMatch := MatchId(path, TODO_ID_PREFIX);
    if path == "/api/ws" then WebSocket
    else if path == "/api/health" && verb == "GET" then Health
    else if path == "/api/info" && verb == "GET" then Info
    else if path == "/api/time" && verb == "GET" then Time
    else if path == USERS_PATH && verb == "GET" then ListUsers
    else if userMatch.Some? && verb == "GET" then GetUser(userMatch.value)
    else if path == USERS_PATH && verb == "POST" then CreateUser
    else if path == TODOS_PATH && verb == "GET" then ListTodos
    else if todoMatch.Some? && verb == "GET" then GetTodo(todoMatch.value)
    else if todoMatch.Some? && verb == "PATCH" then PatchTodo(todoMatch.value)
    else if path == "/api/echo" && verb == "GET" then EchoGet
    else if path == "/api/echo" && verb == "POST" then EchoPost
    else NotFound
  }

  /** An id path never equals the list path of its prefix or a path under the other prefix. */
  lemma IdPathsDistinct(d: string, e: string)
    requires IsNumeral(d) && IsNumeral(e)
    ensures USER_ID_PREFIX + d != TODO_ID_PREFIX + e
    ensures USER_ID_PREFIX + d != USERS_PATH && TODO_ID_PREFIX + e != TODOS_PATH
    ensures USER_ID_PREFIX + d == USER_ID_PREFIX + e ==> d == e
    ensures TODO_ID_PREFIX + d == TODO_ID_PREFIX + e ==> d == e
  {
    assert (USER_ID_PREFIX + d)[5] == 'u';
    assert (TODO_ID_PREFIX + e)[5] == 't';
    if USER_ID_PREFIX + d == USER_ID_PREFIX + e {
      assert (USER_ID_PREFIX + d)[|USER_ID_PREFIX|..] == d;
      assert (USER_ID_PREFIX + e)[|USER_ID_PREFIX|..] == e;
    }
    if TODO_ID_PREFIX + d == TODO_ID_PREFIX + e {
      assert (TODO_ID_PREFIX + d)[|TODO_ID_PREFIX|..] == d;
      assert (TODO_ID_PREFIX + e)[|TODO_ID_PREFIX|..] == e;
    }
  }

  /** The table is unambiguous: at most one route accepts a request, so the order in
      which `fetch` tries its tests does not change which handler runs. */
  lemma SelectsUnique(verb: string, path: string, r1: Route, r2: Route)
    requires Selects(verb, path, r1) && Selects(verb, path, r2)
    ensures r1 == r2
  {
    if r1.GetUser? || r1.GetTodo? || r1.PatchTodo? {
      if r2.GetUser? || r2.GetTodo? || r2.PatchTodo? {
        IdPathsDistinct(r1.idText, r2.idText);
        IdPathsDistinct(r2.idText, r1.idText);
      }
    }
  }

  /** Hence `fetch` runs a route's handler if and only if that route accepts the request. */
  lemma DispatchIff(verb: string, path: string, r: Route)
    requires r != NotFound
    ensures Dispatch(verb, path) == r <==> Selects(verb, path, r)
  {
    var chosen := Dispatch(verb, path);
    if Selects(verb, path, r) && chosen != NotFound {
      SelectsUnique(verb, path, chosen, r);
    }
  }

  /** `GET /api/users/<n>` for the decimal form of any `n` reaches the user lookup. */
  lemma UserPathRoundTrip(n: nat)
    ensures Dispatch("GET", USER_ID_PREFIX + Decimal(n)) == GetUser(Decimal(n))
  {
    DispatchIff("GET", USER_ID_PREFIX + Decimal(n), GetUser(Decimal(n)));
  }

  /** No method other than GET reaches a handler under `/api/users/`: in particular
      PATCH on a user path is the plain 404. */
  lemma NonGetUserPathNotFound(verb: string, d: string)
    requires verb != "GET"
    ensures Dispatch(verb, USER_ID_PREFIX + d) == NotFound
  {
    var path := USER_ID_PREFIX + d;
    assert path[5] == 'u';
  }

  /** An id segment that is empty or holds a non-digit (`abc`, `1/`) reaches no
      handler under either prefix, whatever the method. */
  lemma MalformedIdNotFound(verb: string, d: string)
    requires !IsNumeral(d)
    ensures Dispatch(verb, USER_ID_PREFIX + d) == NotFound
    ensures Dispatch(verb, TODO_ID_PREFIX + d) == NotFound
  {
    var up := USER_ID_PREFIX + d;
    var tp := TODO_ID_PREFIX + d;
    assert up[5] == 'u' && tp[5] == 't';
    assert |up| >= 11 && |tp| >= 11;
  }
}
