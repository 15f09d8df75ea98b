# nginx-playground API server: a Dafny model

This project models the Bun HTTP API in `api/server.ts`. That API keeps two
in-memory arrays (`users` and `todos`) seeded with three records each. Its
`fetch` function picks a handler from the method and path:

- list the users or get one by id;
- create a user;
- list the todos, optionally filtered by `userId`;
- get a todo or patch its fields;
- echo a message;
- anything else falls through to a plain-text `404 Not Found`.

The model has these modules:

- `ArrayOps`: `find` and `filter` keyed on an integer field, and the "dense ids" invariant.
- `Digits`: `parseInt(text, 10)` over the leading decimal digits (`NaN` is `None`), and the decimal form of a number.
- `Records`: users, todos, requests, response bodies, the seed data, and `searchParams.get`.
- `Router`: the route table, once as a declarative `Selects` relation and once as the ordered `Dispatch` of `fetch`. Lemmas show the two agree and that the table is unambiguous.
- `Handlers`: the handlers that only read the store, and the field update of PATCH.
- `Api`: class `Server`, whose fields are the two arrays (as sequences the methods reassign). `PostUser` and `PatchTodo` change them in place. `Fetch` dispatches and answers. `Valid()` says user ids and todo ids are `1..n` in index order.
- `Scenarios`: client methods. POST-then-GET and PATCH-then-GET through `Fetch`.
- `SeedData`: the `userId` query over the seed todos.

The source files read for this model are api/server.ts, static/index.ts,
static/vite.config.ts and flask/app.py. None of them contains an admin API for
reverse-proxy configuration files or a reload command, so no such API is modelled.

## Model

| member | source | states |
|---|---|---|
| ArrayOps.FindFirst | api/server.ts:63 | `find` by id: the index returned holds key `k`, no earlier index does, and `None` exactly when no element has key `k` |
| ArrayOps.FilterByKey | api/server.ts:86 | `filter` by key: every kept element is in the input with key `k`, every input element with key `k` is kept, and the result is no longer than the input |
| ArrayOps.FilterAppend | api/server.ts:86 | the filter of `a + b` is the filter of `a` followed by the filter of `b`; with `FilterSingleton` this fixes the result, order and repetitions included |
| ArrayOps.FilterSingleton | api/server.ts:86 | a one-element input is kept exactly once when its key is `k` and dropped otherwise |
| ArrayOps.FilterAllOrNothing | api/server.ts:86 | the filter returns the whole input when every key matches and nothing when none does |
| ArrayOps.DenseFind | api/server.ts:74 | with ids `1..n` in index order, `find` of id `k` stops at index `k - 1` for `1 <= k <= n` and finds nothing otherwise |
| ArrayOps.DenseUnique | api/server.ts:6-10 | dense ids are unique |
| ArrayOps.DenseAppend | api/server.ts:73-78 | appending a record with id `length + 1` keeps the ids dense |
| ArrayOps.DenseUpdate | api/server.ts:110-111 | replacing a record with one that has the same id keeps the ids dense |
| ArrayOps.FindAfterUpdate | api/server.ts:105-111 | after the record `find` hit is replaced by one with the same id, `find` hits the same index |
| Digits.LeadingDigits | api/server.ts:86 | the result is an all-digit prefix of the input, and the input character after it (if any) is not a digit |
| Digits.ParseInt | api/server.ts:62 | `parseInt` gives `NaN` (`None`) exactly when the text is empty or does not start with a digit; otherwise a non-negative number |
| Digits.Decimal | api/server.ts:60 | the decimal form of `n` is a non-empty digit string, denotes `n`, and has no leading zero unless it is `"0"` |
| Digits.LeadingDigitsSplit | api/server.ts:86 | the leading digits of `d + rest` are `d` when `rest` does not start with a digit |
| Digits.ParseIntSplit | api/server.ts:86 | `parseInt` of a digit run followed by non-digit text is the value of the run: trailing text is ignored |
| Digits.ParseNumeral | api/server.ts:62 | `parseInt` of a whole `\d+` capture is its base-10 value |
| Digits.ParseDecimal | api/server.ts:62 | parsing the decimal form of `n` gives `n` back |
| Digits.ZerosValue | api/server.ts:62 | a string of zeros denotes 0 |
| Digits.LeadingZerosValue | api/server.ts:62 | prefixing zeros to a digit string does not change its value |
| Digits.ParseLeadingZeros | api/server.ts:60-62 | an id segment with leading zeros still matches `\d+` and parses to the same number |
| Records.QueryGet | api/server.ts:84 | `searchParams.get`: the value of the first pair with that name, and `None` (`null`) exactly when no pair has the name |
| Router.MatchId | api/server.ts:60 | the anchored pattern `^prefix(\d+)$` captures `d` only when the path is `prefix + d` with `d` a non-empty digit run; it fails on every other path |
| Router.Dispatch | api/server.ts:30-127 | the route chosen accepts the request under `Selects`, and the result is the 404 fallback exactly when no route accepts it |
| Router.IdPathsDistinct | api/server.ts:92 | a `/api/users/<d>` path is never a `/api/todos/<e>` path, neither equals its prefix's list path, and each prefix determines its id segment |
| Router.SelectsUnique | api/server.ts:30-127 | at most one route accepts a given request, so the order of the tests does not matter |
| Router.DispatchIff | api/server.ts:30-127 | `fetch` runs a route's handler if and only if that route accepts the request |
| Router.UserPathRoundTrip | api/server.ts:60-61 | `GET /api/users/<decimal n>` reaches the user lookup with that segment |
| Router.NonGetUserPathNotFound | api/server.ts:59-68 | any method other than GET on any `/api/users/...` path (PATCH included) reaches the plain 404 |
| Router.MalformedIdNotFound | api/server.ts:60-127 | an empty or non-digit id segment (`abc`, `1/`) under either prefix reaches the plain 404 for every method |
| Handlers.IdIndex | api/server.ts:63 | the lookup by the parsed id stops at the first record with that id; it finds nothing when no record has it or the text is `NaN` |
| Handlers.GetUserResponse | api/server.ts:60-67 | 200 with the first user whose id equals the parsed segment; otherwise 404 `{error: "User not found"}`, and that happens exactly when no user has the id |
| Handlers.GetTodoResponse | api/server.ts:91-99 | 200 with the first todo whose id equals the parsed segment; otherwise 404 `{error: "Todo not found"}`, and that happens exactly when no todo has the id |
| Handlers.TodosFor | api/server.ts:83-88 | with no `userId` or an empty one: all todos; otherwise exactly the todos whose `userId` equals the parsed value, and never more todos than the store holds |
| Handlers.TodosForAppend | api/server.ts:86 | the `userId` selection keeps the store's order (it distributes over concatenation) |
| Handlers.TodosForSingleton | api/server.ts:86 | for a non-empty `userId`, one todo is kept exactly once when its `userId` equals the parsed value and dropped otherwise |
| Handlers.TodosForNaN | api/server.ts:86 | a `userId` that does not start with a digit (`NaN`) selects no todos |
| Handlers.EchoText | api/server.ts:116-118 | the echo is the `message` parameter, or `"Hello!"` when it is absent or empty |
| Handlers.Patched | api/server.ts:109-111 | PATCH keeps `id` and `userId`, sets `completed` and `title` exactly when they are provided, and leaves them as they were otherwise |
| Handlers.PatchedIdempotent | api/server.ts:110-111 | applying the same patch twice is the same as applying it once, and an empty patch changes nothing |
| Handlers.LookupLeadingZeros | api/server.ts:62 | user and todo lookups answer `zeros + d` exactly as they answer `d` |
| Handlers.DenseIdIndex | api/server.ts:6-10 | with dense ids, the decimal id `k` is found at index `k - 1` for `1 <= k <= n` and not found otherwise |
| Handlers.PostThenGet | api/server.ts:71-79 | in a dense store, the user appended with id `n + 1` is what `GET /api/users/<n + 1>` answers with 200 |
| Handlers.PatchThenGet | api/server.ts:102-113 | after patching the todo a lookup hit, the same lookup answers 200 with the patched todo |
| Api.Answer | api/server.ts:30-127 | for each route that leaves the store alone: no reply exactly when the WebSocket upgrade succeeded, 400 "WebSocket upgrade failed" when it did not; 200 with the health, info and time bodies; 200 with all users; the user and todo lookups, the todo selection and the echo; 200 `{received}` for POST echo; and 404 "Not Found" when no route matched |
| Api.Server.constructor | api/server.ts:6-16 | the store starts as the three seed users and three seed todos, and their ids are dense |
| Api.Server.PostUser | api/server.ts:71-79 | `users` grows by exactly the new user `{id: old length + 1, name, email}` at the end; earlier users and all todos are unchanged; the reply is 201 with the new user; ids stay dense |
| Api.Server.PatchTodo | api/server.ts:102-113 | if the id is absent: 404 `{error: "Todo not found"}` and nothing changes. Otherwise only the todo found is replaced by its patched form, and the reply is 200 with the updated todo. Users are never touched and ids stay dense |
| Api.Server.Fetch | api/server.ts:22-127 | the dispatched route's handler runs. Only POST `/api/users` and PATCH `/api/todos/:id` change the store, and each as its method states. Every other route leaves both arrays unchanged and answers as its handler says, including the upgrade failure and the 404 fallback |
| Scenarios.PostThenGetUser | api/server.ts:59-80 | through `fetch`, a POST answers 201 with the new user, and the GET of its id then answers 200 with the same user; afterwards `users` is the old users plus that user and `todos` is unchanged |
| Scenarios.TodoPathFacts | api/server.ts:91-113 | in a dense store, PATCH and GET on `/api/todos/<k>` reach their handlers, the lookup hits index `k - 1`, and after the patch the lookup answers the patched todo |
| Scenarios.PatchThenGetTodo | api/server.ts:91-113 | through `fetch`, a PATCH of todo `k` changes only that todo and answers it; the GET on the same path answers the same; users are unchanged |
| SeedData.SeedOwnerOne | api/server.ts:12-16 | filtering the seed todos by owner 1 keeps the first two, in order |
| SeedData.ParseSeedQueries | api/server.ts:86 | `parseInt("1")` and `parseInt("01abc")` are both 1 |
| SeedData.SeedTodosByOwner | api/server.ts:83-88 | on the seed data: `?userId=1` and `?userId=01abc` select user 1's two todos, `?userId=x` selects none, and no `userId` returns all three |

## Left out

- WebSocket upgrade and the chat relay (api/server.ts:30-33, 129-144) are left out because they belong to the runtime. The routing to `/api/ws` is modelled. Whether the upgrade succeeded is a boolean input, and a successful upgrade is a `fetch` with no response.
- `/api/health` and `/api/time` (api/server.ts:36-52) are routed. The port, clock and time zone they report are inputs (`Env`) because the wall clock and `Intl` lie outside the model. `PORT` parsing (api/server.ts:18) is left out for the same reason.
- JSON parsing and serialisation (`req.json()`, `Response.json`) are not modelled. A request body is given as the fields the handlers read, typed as the handlers declare them. A body that is malformed JSON or has fields of other types is not modelled, since the source does not check types either. The POST `/api/echo` payload is an opaque string.
- URL parsing (`new URL`) is left out. A request arrives with `url.pathname` as the parser leaves it: dot segments resolved, percent escapes kept, so `/api/users/%31` fails the id pattern and reaches the 404. The query arrives as the decoded pairs `searchParams` holds.
- Digits.ParseInt: does not model `parseInt`'s skipping of leading white space or its handling of a `+`/`-` sign. `?userId=-1` is `NaN` in the model and -1 in JavaScript. Both select no todo, since owner ids are never negative. `?userId= 1` differs: JavaScript selects user 1's todos and the model selects none.
- Numbers are unbounded integers. JavaScript numbers are doubles, so a digit string beyond 2^53 parses inexactly there; the model does not capture this.
- `console.log` (api/server.ts:27, 147) and `Bun.serve` are left out as I/O.
- Requests are handled one at a time. Under the event loop, another request can run between PATCH's `find` and its `await req.json()`. The model does not capture that interleaving. No operation removes a todo, so the record found is still there.
- The `?? "0"` fallback (api/server.ts:62, 94, 104) is not modelled: the capture group always takes part in a match, so the fallback never applies.
- Method names are compared exactly as given (`"GET"`, `"POST"`, `"PATCH"`); the runtime's normalisation of method case is not modelled.
- static/index.ts (browser UI), static/vite.config.ts (build configuration) and flask/app.py (constant JSON and the clock) are not part of this model.
