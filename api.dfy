/** The server's in-memory store and its request entry point `fetch`. */
module Api {
  import opened Options
  import opened ArrayOps
  import opened Digits
  import opened Records
  import opened Router
  import opened Handlers

  /** The response of every route that leaves the store as it is; `None` is a
      WebSocket upgrade the runtime took over, so `fetch` returns no response. */
  function Answer(route: Route, users: seq<User>, todos: seq<Todo>, req: Request, env: Env, upgraded: bool)
    : (r: Option<Response>)
    requires !route.CreateUser? && !route.PatchTodo?
    ensures route == WebSocket ==> (r.None? <==> upgraded) && (!upgraded ==> r == Some(UPGRADE_FAILED))
    ensures route != WebSocket ==> r.Some?
    ensures route == Health ==> r == Some(Response(200, HealthJson("ok", env.port, env.nowIso)))
    ensures route == Info ==> r == Some(Response(200, InfoJson("My App", "1.0.0")))
    ensures route == Time ==> r == Some(Response(200, TimeJson(env.nowIso, env.nowMillis, env.timeZone)))
    ensures route == ListUsers ==> r == Some(Response(200, UsersJson(users)))
    ensures route.GetUser? ==> r == Some(GetUserResponse(users, route.idText))
    ensures route == ListTodos ==> r == Some(Response(200, TodosJson(TodosFor(todos, QueryGet(req.query, "userId")))))
    ensures route.GetTodo? ==> r == Some(GetTodoResponse(todos, route.idText))
    ensures route == EchoGet ==> r == Some(Response(200, EchoJson(EchoText(QueryGet(req.query, "message")))))
    ensures route == EchoPost ==> r == Some(Response(200, ReceivedJson(req.body.payload)))
    ensures route == NotFound ==> r == Some(NOT_FOUND)
  {
    match route
    case WebSocket => if upgraded then None else Some(UPGRADE_FAILED)
    case Health => Some(Response(200, HealthJson("ok", env.port, env.nowIso)))
    case Info => Some(Response(200, InfoJson("My App", "1.0.0")))
    case Time => Some(Response(200, TimeJson(env.nowIso, env.nowMillis, env.timeZone)))
    case ListUsers => Some(Response(200, UsersJson(users)))
    case GetUser(idText) => Some(GetUserResponse(users, idText))
    case ListTodos => Some(Response(200, TodosJson(TodosFor(todos, QueryGet(req.query, "userId")))))
    case GetTodo(idText) => Some(GetTodoResponse(todos, idText))
    case EchoGet => Some(Response(200, EchoJson(EchoText(QueryGet(req.query, "message")))))
    case EchoPost => Some(Response(200, ReceivedJson(req.body.payload)))
    case NotFound => Some(NOT_FOUND)
  }

  /** The two module-level arrays of the server, updated in place by POST and PATCH. */
  class Server {
    var users: seq<User>
    var todos: seq<Todo>

    /** User ids are 1..n in index order (a POST numbers the new user
        `users.length + 1`), and so are todo ids (PATCH never changes an id). */
    ghost predicate Valid()
      reads this
    {
      Dense(users, UserId) && Dense(todos, TodoId)
    }

    constructor ()
      ensures Valid()
      ensures users == INITIAL_USERS && todos == INITIAL_TODOS
    {
      users := INITIAL_USERS;
      todos := INITIAL_TODOS;
    }

    /** POST /api/users: append a user numbered one past the current count and
        answer it with status 201. */
    method PostUser(name: string, email: string) returns (res: Response)
      requires Valid()
      modifies this
      ensures Valid()
      ensures users == old(users) + [User(|old(users)| + 1, name, email)]
      ensures todos == old(todos)
      ensures res == Response(201, UserJson(users[|users| - 1]))
    {
      var newUser := User(|users| + 1, name, email);
      DenseAppend(users, UserId, newUser);
      users := users + [newUser];
      res := Response(201, UserJson(newUser));
    }

    /** PATCH /api/todos/:id: on the first todo with that id, assign the fields the
        body provides and answer the updated todo; otherwise 404 and no change. */
    method PatchTodo(idText: string, completed: Option<bool>, title: Option<string>) returns (res: Response)
      requires Valid()
      modifies this
      ensures Valid()
      ensures users == old(users)
      ensures IdIndex(old(todos), TodoId, idText).None? ==> todos == old(todos) && res == TODO_NOT_FOUND
      ensures IdIndex(old(todos), TodoId, idText).Some? ==>
                var i := IdIndex(old(todos), TodoId, idText).value;
                todos == old(todos)[i := Patched(old(todos)[i], completed, title)] &&
                res == Response(200, TodoJson(todos[i]))
    {
      var found := IdIndex(todos, TodoId, idText);
      if found.None? {
        res := TODO_NOT_FOUND;
      } else {
        var i := found.value;
        var todo := Patched(todos[i], completed, title);
        DenseUpdate(todos, TodoId, i, todo);
        todos := todos[i := todo];
        res := Response(200, TodoJson(todo));
      }
    }

    /** `fetch`: pick the route, run its handler, and answer. Only POST /api/users
        and PATCH /api/todos/:id change the store. */
    method Fetch(req: Request, env: Env, upgraded: bool) returns (reply: Option<Response>)
      requires Valid()
      modifies this
      ensures Valid()
      ensures var route := Dispatch(req.verb, req.path);
              !route.CreateUser? && !route.PatchTodo? ==>
                users == old(users) && todos == old(todos) &&
                reply == Answer(route, users, todos, req, env, upgraded)
      ensures Dispatch(req.verb, req.path).CreateUser? ==>
                users == old(users) + [User(|old(users)| + 1, req.body.name, req.body.email)] &&
                todos == old(todos) &&
                reply == Some(Response(201, UserJson(users[|users| - 1])))
      ensures Dispatch(req.verb, req.path).PatchTodo? ==>
                var idText := Dispatch(req.verb, req.path).idText;
                users == old(users) &&
                match IdIndex(old(todos), TodoId, idText)
                case None => todos == old(todos) && reply == Some(TODO_NOT_FOUND)
                case Some(i) =>
                  todos == old(todos)[i := Patched(old(todos)[i], req.body.completed, req.body.title)] &&
                  reply == Some(Response(200, TodoJson(todos[i])))
    {
      var route := Dispatch(req.verb, req.path);
      match route
      case CreateUser =>
        var res := PostUser(req.body.name, req.body.email);
        reply := Some(res);
      case PatchTodo(idText) =>
        var res := PatchTodo(idText, req.body.completed, req.body.title);
        reply := Some(res);
      case _ =>
        reply := Answer(route, users, todos, req, env, upgraded);
    }
  }
}

/** Clients of `fetch` whose guarantees follow from its contract alone. */
module Scenarios {
  import opened Options
  import opened ArrayOps
  import opened Digits
  import opened Records
  import opened Router
  import opened Handlers
  import opened Api

  /** A user created by POST /api/users is answered at once by GET /api/users/<its id>. */
  method PostThenGetUser(server: Server, name: string, email: string, env: Env)
    returns (created: Option<Response>, fetched: Option<Response>)
    requires server.Valid()
    modifies server
    ensures server.Valid()
    ensures server.users == old(server.users) + [User(|old(server.users)| + 1, name, email)]
    ensures server.todos == old(server.todos)
    ensures created == Some(Response(201, UserJson(User(|old(server.users)| + 1, name, email))))
    ensures fetched == Some(Response(200, UserJson(User(|old(server.users)| + 1, name, email))))
  {
    var n := |server.users|;
    ghost var before := server.users;
    var body := RequestBody(name, email, None, None, "");
    assert Dispatch("POST", USERS_PATH) == CreateUser;
    created := server.Fetch(Request("POST", USERS_PATH, [], body), env, false);
    UserPathRoundTrip(n + 1);
    PostThenGet(before, name, email);
    fetched := server.Fetch(Request("GET", USER_ID_PREFIX + Decimal(n + 1), [], body), env, false);
  }

  /** The facts about the path `/api/todos/<k>` that the PATCH-then-GET scenario needs:
      both methods reach their handlers, the lookup hits index `k - 1`, and after the
      patch the same lookup answers the patched todo. */
  lemma TodoPathFacts(todos: seq<Todo>, k: nat, completed: Option<bool>, title: Option<string>)
    requires Dense(todos, TodoId) && 1 <= k <= |todos|
    ensures Dispatch("PATCH", TODO_ID_PREFIX + Decimal(k)) == PatchTodo(Decimal(k))
    ensures Dispatch("GET", TODO_ID_PREFIX + Decimal(k)) == GetTodo(Decimal(k))
    ensures IdIndex(todos, TodoId, Decimal(k)) == Some(k - 1)
    ensures var t := Patched(todos[k - 1], completed, title);
            GetTodoResponse(todos[k - 1 := t], Decimal(k)) == Response(200, TodoJson(t))
  {
    var path := TODO_ID_PREFIX + Decimal(k);
    DispatchIff("PATCH", path, PatchTodo(Decimal(k)));
    DispatchIff("GET", path, GetTodo(Decimal(k)));
    DenseIdIndex(todos, TodoId, k);
    PatchThenGet(todos, Decimal(k), completed, title);
  }

  /** A todo patched through PATCH /api/todos/:id is answered patched by the GET
      on the same path, and the users are left alone. */
  method PatchThenGetTodo(server: Server, k: nat, completed: Option<bool>, title: Option<string>, env: Env)
    returns (patched: Option<Response>, fetched: Option<Response>)
    requires server.Valid()
    requires 1 <= k <= |server.todos|
    modifies server
    ensures server.Valid() && server.users == old(server.users)
    ensures var t := Patched(old(server.todos)[k - 1], completed, title);
            server.todos == old(server.todos)[k - 1 := t] &&
            patched == Some(Response(200, TodoJson(t))) && fetched == patched
  {
    var path := TODO_ID_PREFIX + Decimal(k);
    var body := RequestBody("", "", completed, title, "");
    TodoPathFacts(server.todos, k, completed, title);
    ghost var t := Patched(server.todos[k - 1], completed, title);
    ghost var after := server.todos[k - 1 := t];
    patched := server.Fetch(Request("PATCH", path, [], body), env, false);
    assert server.todos == after && patched == Some(Response(200, TodoJson(t)));
    fetched := server.Fetch(Request("GET", path, [], body), env, false);
  }
}

/** The seed data under the query rules of GET /api/todos. */
module SeedData {
  import opened Options
  import opened ArrayOps
  import opened Digits
  import opened Records
  import opened Handlers

  /** Selecting owner 1 from the seed keeps its first two todos. */
  lemma SeedOwnerOne()
    ensures FilterByKey(INITIAL_TODOS, TodoOwner, 1) == INITIAL_TODOS[..2]
  {
    var t := INITIAL_TODOS;
    assert t[2..][1..] == [];
    assert FilterByKey(t[2..], TodoOwner, 1) == [];
    assert t[1..][1..] == t[2..];
    assert FilterByKey(t[1..], TodoOwner, 1) == [t[1]];
    assert t[..2] == [t[0], t[1]];
  }

  /** The query values below parse as `parseInt` reads them. */
  lemma ParseSeedQueries()
    ensures ParseInt("1") == Some(1)
    ensures ParseInt("01abc") == Some(1)
  {
    ParseNumeral("1");
    assert Value("1") == 1 by { assert "1"[..0] == ""; }
    ParseIntSplit("01", "abc");
    assert "01" + "abc" == "01abc";
    assert Value("01") == 1 by { assert "01"[..1] == "0"; assert "0"[..0] == ""; }
  }

  /** `?userId=1` selects user 1's two todos in order, `?userId=01abc` the same,
      `?userId=x` none, and no `userId` all three. */
  lemma SeedTodosByOwner()
    ensures TodosFor(INITIAL_TODOS, Some("1")) == INITIAL_TODOS[..2]
    ensures TodosFor(INITIAL_TODOS, Some("01abc")) == INITIAL_TODOS[..2]
    ensures TodosFor(INITIAL_TODOS, Some("x")) == []
    ensures TodosFor(INITIAL_TODOS, None) == INITIAL_TODOS
  {
    SeedOwnerOne();
    ParseSeedQueries();
  }
}
