/** The server's records, the parts of a request the handlers read, and the
    responses they build. */
module Records {
  import opened Options

  datatype User = User(id: int, name: string, email: string)

  datatype Todo = Todo(id: int, userId: int, title: string, completed: bool)

  function UserId(u: User): int { u.id }

  function TodoId(t: Todo): int { t.id }

  function TodoOwner(t: Todo): int { t.userId }

  /** The seed data the server starts with. */
  const INITIAL_USERS: seq<User> := [
    User(1, "田中太郎", "tanaka@example.com"),
    User(2, "山田花子", "yamada@example.com"),
    User(3, "佐藤次郎", "sato@example.com")
  ]

  const INITIAL_TODOS: seq<Todo> := [
    Todo(1, 1, "買い物", false),
    Todo(2, 1, "レポート作成", true),
    Todo(3, 2, "会議準備", false)
  ]

  /** The JSON request body, reduced to the fields the handlers read, typed as
      the handlers declare them: `{name, email}` for a new user, the optional
      `completed` and `title` for a todo patch, and the whole value for the echo. */
  datatype RequestBody = RequestBody(
    name: string,
    email: string,
    completed: Option<bool>,
    title: Option<string>,
    payload: string)

  /** A request after URL parsing: the method (`verb`), `url.pathname`, the decoded
      query pairs in order, and the body. */
  datatype Request = Request(
    verb: string,
    path: string,
    query: seq<(string, string)>,
    body: RequestBody)

  /** What the health and time routes read from the runtime: the listening port,
      the clock (as ISO text and as milliseconds) and the time zone. */
  datatype Env = Env(port: int, nowIso: string, nowMillis: int, timeZone: string)

  /** Response bodies: one JSON shape per handler, plus the plain-text bodies. */
  datatype Body =
    | UserJson(user: User)
    | UsersJson(users: seq<User>)
    | TodoJson(todo: Todo)
    | TodosJson(todos: seq<Todo>)
    | ErrorJson(error: string)
    | EchoJson(echo: string)
    | ReceivedJson(received: string)
    | InfoJson(appName: string, version: string)
    | HealthJson(status: string, port: int, timestamp: string)
    | TimeJson(iso: string, unix: int, timezone: string)
    | Text(text: string)

  datatype Response = Response(status: int, body: Body)

  const USER_NOT_FOUND := Response(404, ErrorJson("User not found"))
  const TODO_NOT_FOUND := Response(404, ErrorJson("Todo not found"))
  const NOT_FOUND := Response(404, Text("Not Found"))
  const UPGRADE_FAILED := Response(400, Text("WebSocket upgrade failed"))

  /** `url.searchParams.get(name)`: the value of the first pair named `name`,
      `None` (`null`) when there is none. */
  function QueryGet(query: seq<(string, string)>, name: string): (r: Option<string>)
    ensures r.Some? ==> exists i :: 0 <= i < |query| && query[i] == (name, r.value) &&
                                    forall j :: 0 <= j < i ==> query[j].0 != name
    ensures r.None? <==> forall i :: 0 <= i < |query| ==> query[i].0 != name
  {
    if query == [] then None
    else if query[0].0 == name then Some(query[0].1)
    else
      var r := QueryGet(query[1..], name);
      assert r.Some? ==> exists i :: 0 <= i < |query| - 1 && query[1..][i] == (name, r.value) &&
                                    forall j :: 0 <= j < i ==> query[1..][j].0 != name;
      r
  }
}
