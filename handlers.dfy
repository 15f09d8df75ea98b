/** The handlers of `fetch` that compute a response from the store without
    changing it, and the field update the PATCH handler applies. */
module Handlers {
  import opened Options
  import opened ArrayOps
  import opened Digits
  import opened Records

  /** Where `find(r => r.id === parseInt(idText, 10))` stops: the first record
      whose id is the parsed number; none when the text parses to `NaN`. */
  function IdIndex<T>(s: seq<T>, key: T -> int, idText: string): (r: Option<nat>)
    ensures r.Some? ==> r.value < |s| && ParseInt(idText) == Some(key(s[r.value]))
    ensures r.Some? ==> forall j :: 0 <= j < r.value ==> key(s[j]) != key(s[r.value])
    ensures r.None? <==> forall j :: 0 <= j < |s| ==> ParseInt(idText) != Some(key(s[j]))
  {
    match ParseInt(idText)
    case None => None
    case Some(id) => FindFirst(s, key, id)
  }

  /** GET /api/users/:id: the first user with that id, or 404 "User not found". */
  function GetUserResponse(users: seq<User>, idText: string): (r: Response)
    ensures r.status == 200 || r == USER_NOT_FOUND
    ensures r.status == 200 ==> r.body.UserJson? && ParseInt(idText) == Some(r.body.user.id)
    ensures r.status == 200 ==> exists i :: 0 <= i < |users| && users[i] == r.body.user &&
                                           forall j :: 0 <= j < i ==> users[j].id != users[i].id
    ensures r == USER_NOT_FOUND <==> forall j :: 0 <= j < |users| ==> ParseInt(idText) != Some(users[j].id)
  {
    match IdIndex(users, UserId, idText)
    case None => USER_NOT_FOUND
    case Some(i) => Response(200, UserJson(users[i]))
  }

  /** GET /api/todos/:id: the first todo with that id, or 404 "Todo not found". */
  function GetTodoResponse(todos: seq<Todo>, idText: string): (r: Response)
    ensures r.status == 200 || r == TODO_NOT_FOUND
    ensures r.status == 200 ==> r.body.TodoJson? && ParseInt(idText) == Some(r.body.todo.id)
    ensures r.status == 200 ==> exists i :: 0 <= i < |todos| && todos[i] == r.body.todo &&
                                           forall j :: 0 <= j < i ==> todos[j].id != todos[i].id
    ensures r == TODO_NOT_FOUND <==> forall j :: 0 <= j < |todos| ==> ParseInt(idText) != Some(todos[j].id)
  {
    match IdIndex(todos, TodoId, idText)
    case None => TODO_NOT_FOUND
    case Some(i) => Response(200, TodoJson(todos[i]))
  }

  /** The `if (userId)` test: `null` and the empty string are falsy. */
  predicate Filtering(userId: Option<string>) {
    userId.Some? && userId.value != ""
  }

  /** GET /api/todos: every todo unless a non-empty `userId` is given; then the
      todos owned by the parsed id, kept in order (none when it parses to `NaN`). */
  function TodosFor(todos: seq<Todo>, userId: Option<string>): (r: seq<Todo>)
    ensures |r| <= |todos|
    ensures !Filtering(userId) ==> r == todos
    ensures Filtering(userId) ==> forall i :: 0 <= i < |r| ==>
              r[i] in todos && ParseInt(userId.value) == Some(r[i].userId)
    ensures Filtering(userId) ==> forall i :: 0 <= i < |todos| && ParseInt(userId.value) == Some(todos[i].userId) ==>
              todos[i] in r
  {
    if !Filtering(userId) then todos
    else
      match ParseInt(userId.value)
      case None => []
      case Some(owner) => FilterByKey(todos, TodoOwner, owner)
  }

  /** The filter keeps the store's order: the selection of a concatenation is the
      concatenation of the selections. */
  lemma TodosForAppend(a: seq<Todo>, b: seq<Todo>, userId: Option<string>)
    ensures TodosFor(a + b, userId) == TodosFor(a, userId) + TodosFor(b, userId)
  {
    if Filtering(userId) && ParseInt(userId.value).Some? {
      FilterAppend(a, b, TodoOwner, ParseInt(userId.value).value);
    }
  }

  /** On one todo the selection keeps it once when its owner is the parsed value and
      drops it otherwise; with `TodosForAppend` this fixes the result, repetitions included. */
  lemma TodosForSingleton(t: Todo, text: string)
    requires text != ""
    ensures TodosFor([t], Some(text)) == if ParseInt(text) == Some(t.userId) then [t] else []
  {
    if ParseInt(text).Some? {
      FilterSingleton(t, TodoOwner, ParseInt(text).value);
    }
  }

  /** A `userId` that does not start with a digit selects nothing. */
  lemma TodosForNaN(todos: seq<Todo>, text: string)
    requires text != [] && !IsDigit(text[0])
    ensures TodosFor(todos, Some(text)) == []
  {
  }

  /** GET /api/echo: the `message` parameter, or "Hello!" when it is absent or empty. */
  function EchoText(message: Option<string>): (r: string)
    ensures message.Some? && message.value != "" ==> r == message.value
    ensures message.None? || message.value == "" ==> r == "Hello!"
  {
    if message.Some? && message.value != "" then message.value else "Hello!"
  }

  /** The todo after PATCH assigns each field the body provides and no other. */
  function Patched(t: Todo, completed: Option<bool>, title: Option<string>): (r: Todo)
    ensures r.id == t.id && r.userId == t.userId
    ensures completed.Some? ==> r.completed == completed.value
    ensures completed.None? ==> r.completed == t.completed
    ensures title.Some? ==> r.title == title.value
    ensures title.None? ==> r.title == t.title
  {
    t.(completed := completed.GetOr(t.completed), title := title.GetOr(t.title))
  }

  /** Sending the same patch twice changes nothing the second time; an empty patch
      changes nothing at all. */
  lemma PatchedIdempotent(t: Todo, completed: Option<bool>, title: Option<string>)
    ensures Patched(Patched(t, completed, title), completed, title) == Patched(t, completed, title)
    ensures Patched(t, None, None) == t
  {
  }

  /** Leading zeros in the id segment do not change what a lookup answers. */
  lemma LookupLeadingZeros(users: seq<User>, todos: seq<Todo>, zs: string, d: string)
    requires forall i :: 0 <= i < |zs| ==> zs[i] == '0'
    requires IsNumeral(d)
    ensures GetUserResponse(users, zs + d) == GetUserResponse(users, d)
    ensures GetTodoResponse(todos, zs + d) == GetTodoResponse(todos, d)
  {
    ParseLeadingZeros(zs, d);
  }

  /** With dense ids, the decimal id `k` finds the record at index `k - 1`, and an
      id outside `1..n` is not found. */
  lemma DenseIdIndex<T>(s: seq<T>, key: T -> int, k: nat)
    requires Dense(s, key)
    ensures IdIndex(s, key, Decimal(k)) == if 1 <= k <= |s| then Some(k - 1) else None
  {
    ParseDecimal(k);
    DenseFind(s, key, k);
  }

  /** A user appended with id `n + 1` is what GET /api/users/<n + 1> then answers. */
  lemma PostThenGet(users: seq<User>, name: string, email: string)
    requires Dense(users, UserId)
    ensures var u := User(|users| + 1, name, email);
            GetUserResponse(users + [u], Decimal(|users| + 1)) == Response(200, UserJson(u))
  {
    var u := User(|users| + 1, name, email);
    DenseAppend(users, UserId, u);
    DenseIdIndex(users + [u], UserId, |users| + 1);
  }

  /** After a patch of the todo a lookup hit, the same lookup answers the patched todo. */
  lemma PatchThenGet(todos: seq<Todo>, idText: string, completed: Option<bool>, title: Option<string>)
    requires IdIndex(todos, TodoId, idText).Some?
    ensures var i := IdIndex(todos, TodoId, idText).value;
            var t := Patched(todos[i], completed, title);
            GetTodoResponse(todos[i := t], idText) == Response(200, TodoJson(t))
  {
    var i := IdIndex(todos, TodoId, idText).value;
    var t := Patched(todos[i], completed, title);
    var id := ParseInt(idText).value;
    FindAfterUpdate(todos, TodoId, id, i, t);
  }
}
