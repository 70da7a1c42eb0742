/**
 * The five todo handlers as functions from their validated input to the
 * response `c.json(payload, status)` builds, and the proof that every
 * response is one its route declares, with a payload that passes the
 * schema declared for its status.
 */
module TodoRoute {
  import opened Wrappers
  import opened JsNumber
  import opened Json
  import opened Zod
  import opened TodoSchema

  datatype Todo = Todo(id: int, name: string, isDone: bool)

  function TodoJson(t: Todo): Json {
    JObject([("id", JNumber(t.id)), ("name", JString(t.name)), ("is_done", JBool(t.isDone))])
  }

  lemma TodoJsonFields(t: Todo)
    ensures Get(TodoJson(t), "id") == Some(JNumber(t.id))
    ensures Get(TodoJson(t), "name") == Some(JString(t.name))
    ensures Get(TodoJson(t), "is_done") == Some(JBool(t.isDone))
  {
    var members := TodoJson(t).members;
    LookupDistinct(members, 0);
    LookupDistinct(members, 1);
    LookupDistinct(members, 2);
  }

  /** The validated create/update body: validation keeps only the declared keys. */
  datatype TodoInput = TodoInput(name: string, isDone: bool)

  /** The properties that spreading the validated body (`...payload`) copies. */
  function InputMembers(payload: TodoInput): seq<(string, Json)> {
    [("name", JString(payload.name)), ("is_done", JBool(payload.isDone))]
  }

  /** `{id, ...payload}` is the todo record with that id and the submitted fields. */
  lemma SpreadIsTodo(id: int, payload: TodoInput)
    ensures JObject([("id", JNumber(id))] + InputMembers(payload)) == TodoJson(Todo(id, payload.name, payload.isDone))
  {
  }

  /** The validated list query. */
  datatype ListParams = ListParams(page: string, pageSize: string, search: Option<string>)

  /** What `c.json(payload, status)` answers. */
  datatype Response = Response(status: int, body: Json)

  /** The canned records the handlers answer with. */
  const FirstTodo := Todo(1, "todo 1", true)
  const SecondTodo := Todo(2, "todo 2", false)

  function NotFound(): Response {
    Response(404, JObject([("message", JString("todo not found"))]))
  }

  /** The page envelope with the fixed counts and the two canned todos. */
  function PageJson(page: int, pageSize: int): (v: Json)
    ensures Get(v, "page") == Some(JNumber(page))
    ensures Get(v, "page_size") == Some(JNumber(pageSize))
    ensures Get(v, "num_page") == Some(JNumber(1))
    ensures Get(v, "num_data") == Some(JNumber(2))
    ensures Get(v, "results") == Some(JArray([TodoJson(FirstTodo), TodoJson(SecondTodo)]))
  {
    var members := [
      ("page", JNumber(page)),
      ("page_size", JNumber(pageSize)),
      ("num_page", JNumber(1)),
      ("num_data", JNumber(2)),
      ("results", JArray([TodoJson(FirstTodo), TodoJson(SecondTodo)]))];
    LookupDistinct(members, 0);
    LookupDistinct(members, 1);
    LookupDistinct(members, 2);
    LookupDistinct(members, 3);
    LookupDistinct(members, 4);
    JObject(members)
  }

  /** GET /: the page and page size fall back to 1 and 10 when they parse to NaN or 0; `search` is only logged. */
  function ListTodos(query: ListParams): (r: Response)
    ensures r.status == 200
    ensures var p := ParseInt(query.page);
      Get(r.body, "page") == Some(JNumber(if Falsy(p) then 1 else p.value))
    ensures var p := ParseInt(query.pageSize);
      Get(r.body, "page_size") == Some(JNumber(if Falsy(p) then 10 else p.value))
    ensures Get(r.body, "num_page") == Some(JNumber(1))
    ensures Get(r.body, "num_data") == Some(JNumber(2))
    ensures Get(r.body, "results") == Some(JArray([TodoJson(FirstTodo), TodoJson(SecondTodo)]))
  {
    var validatedPage := OrElse(ParseInt(query.page), 1);
    var validatedPageSize := OrElse(ParseInt(query.pageSize), 10);
    Response(200, PageJson(validatedPage, validatedPageSize))
  }

  /** GET /{todo_id}: 404 when the id parses to NaN or 0, otherwise the first canned todo whatever the id. */
  function DetailTodo(todoId: string): (r: Response)
    ensures Falsy(ParseInt(todoId)) ==> r == NotFound()
    ensures !Falsy(ParseInt(todoId)) ==> r == Response(200, TodoJson(FirstTodo))
  {
    var validatedTodoId := ParseInt(todoId);
    if Falsy(validatedTodoId) then NotFound()
    else
      var todo := TodoJson(FirstTodo);
      if !Truthy(todo) then NotFound()
      else Response(200, todo)
  }

  /** POST /: always 201 with id 10 and the submitted name and is_done. */
  function CreateTodo(payload: TodoInput): (r: Response)
    ensures r.status == 201
    ensures r.body == TodoJson(Todo(10, payload.name, payload.isDone))
  {
    SpreadIsTodo(10, payload);
    Response(201, JObject([("id", JNumber(10))] + InputMembers(payload)))
  }

  /** PUT /{todo_id}: 404 when the id parses to NaN or 0, otherwise 200 with the parsed id and the submitted fields. */
  function UpdateTodo(todoId: string, payload: TodoInput): (r: Response)
    ensures Falsy(ParseInt(todoId)) ==> r == NotFound()
    ensures !Falsy(ParseInt(todoId)) ==>
      r == Response(200, TodoJson(Todo(ParseInt(todoId).value, payload.name, payload.isDone)))
  {
    var validatedTodoId := ParseInt(todoId);
    if Falsy(validatedTodoId) then NotFound()
    else
      var todo := TodoJson(FirstTodo);
      if !Truthy(todo) then NotFound()
      else
        SpreadIsTodo(validatedTodoId.value, payload);
        Response(200, JObject([("id", JNumber(validatedTodoId.value))] + InputMembers(payload)))
  }

  /** DELETE /{todo_id}: 404 when the id parses to NaN or 0, otherwise 204 with a null body. */
  function DeleteTodo(todoId: string): (r: Response)
    ensures Falsy(ParseInt(todoId)) ==> r == NotFound()
    ensures !Falsy(ParseInt(todoId)) ==> r == Response(204, JNull)
  {
    var validatedTodoId := ParseInt(todoId);
    if Falsy(validatedTodoId) then NotFound()
    else
      var todo := TodoJson(FirstTodo);
      if !Truthy(todo) then NotFound()
      else Response(204, JNull)
  }

  /** A validated request to one of the five routes. */
  datatype Request =
    | ListRequest(query: ListParams)
    | DetailRequest(todoId: string)
    | CreateRequest(payload: TodoInput)
    | UpdateRequest(todoId: string, payload: TodoInput)
    | DeleteRequest(todoId: string)

  /** The registration table: each route declaration with the handler bound to it. */
  function RouteOf(req: Request): RouteSpec {
    match req
    case ListRequest(_) => ListTodoRoute
    case DetailRequest(_) => DetailTodoRoute
    case CreateRequest(_) => CreateTodoRoute
    case UpdateRequest(_, _) => UpdateTodoRoute
    case DeleteRequest(_) => DeleteTodoRoute
  }

  function Handle(req: Request): Response {
    match req
    case ListRequest(q) => ListTodos(q)
    case DetailRequest(id) => DetailTodo(id)
    case CreateRequest(b) => CreateTodo(b)
    case UpdateRequest(id, b) => UpdateTodo(id, b)
    case DeleteRequest(id) => DeleteTodo(id)
  }

  /** The response's status is declared by the route and its payload passes the schema declared for it. */
  predicate Honours(route: RouteSpec, resp: Response) {
    var s := ResponseSchema(route, resp.status);
    s.Some? && Conforms(resp.body, s.value)
  }

  lemma TodoJsonConforms(t: Todo)
    ensures Conforms(TodoJson(t), TodoObject)
  {
    TodoJsonFields(t);
    TodoObjectShape(TodoJson(t));
  }

  lemma NotFoundConforms()
    ensures Conforms(NotFound().body, NotFoundResponse)
  {
    ErrorBodies(NotFound().body);
  }

  lemma PageConforms(page: int, pageSize: int)
    ensures Conforms(PageJson(page, pageSize), TodoPage)
  {
    var v := PageJson(page, pageSize);
    var items := Get(v, "results").value.items;
    assert forall i :: 0 <= i < |items| ==> Conforms(items[i], TodoObject) by {
      assert items == [TodoJson(FirstTodo), TodoJson(SecondTodo)];
      TodoJsonConforms(FirstTodo);
      TodoJsonConforms(SecondTodo);
    }
    TodoPageShape(v);
  }

  lemma ListHonours(query: ListParams)
    ensures Honours(ListTodoRoute, ListTodos(query))
  {
    SuccessPayloads();
    PageConforms(OrElse(ParseInt(query.page), 1), OrElse(ParseInt(query.pageSize), 10));
  }

  lemma DetailHonours(todoId: string)
    ensures Honours(DetailTodoRoute, DetailTodo(todoId))
  {
    SuccessPayloads();
    ErrorPayloads();
    NotFoundConforms();
    TodoJsonConforms(FirstTodo);
  }

  lemma CreateHonours(payload: TodoInput)
    ensures Honours(CreateTodoRoute, CreateTodo(payload))
  {
    SuccessPayloads();
    TodoJsonConforms(Todo(10, payload.name, payload.isDone));
  }

  lemma UpdateHonours(todoId: string, payload: TodoInput)
    ensures Honours(UpdateTodoRoute, UpdateTodo(todoId, payload))
  {
    SuccessPayloads();
    ErrorPayloads();
    NotFoundConforms();
    if !Falsy(ParseInt(todoId)) {
      TodoJsonConforms(Todo(ParseInt(todoId).value, payload.name, payload.isDone));
    }
  }

  lemma DeleteHonours(todoId: string)
    ensures Honours(DeleteTodoRoute, DeleteTodo(todoId))
  {
    SuccessPayloads();
    ErrorPayloads();
    NotFoundConforms();
  }

  /** Every handler answers only with a status its route declares and a payload that passes its schema. */
  lemma HandlersHonourRoutes(req: Request)
    ensures Handle(req).status in DeclaredStatuses(RouteOf(req))
    ensures Honours(RouteOf(req), Handle(req))
  {
    ResponseSchemaDeclared(RouteOf(req), Handle(req).status);
    match req
    case ListRequest(q) => ListHonours(q);
    case DetailRequest(id) => DetailHonours(id);
    case CreateRequest(b) => CreateHonours(b);
    case UpdateRequest(id, b) => UpdateHonours(id, b);
    case DeleteRequest(id) => DeleteHonours(id);
  }

  /** The list answer does not depend on `search`. */
  lemma ListIgnoresSearch(query: ListParams, search: Option<string>)
    ensures ListTodos(query) == ListTodos(query.(search := search))
  {
  }

  /** Page and page size written as integers come back as those integers, except that 0 falls back to the default. */
  lemma ListEchoesNumerals(page: int, pageSize: int, search: Option<string>)
    ensures var r := ListTodos(ListParams(IntToString(page), IntToString(pageSize), search));
      Get(r.body, "page") == Some(JNumber(if page == 0 then 1 else page))
      && Get(r.body, "page_size") == Some(JNumber(if pageSize == 0 then 10 else pageSize))
  {
    IntToStringRoundTrip(page);
    IntToStringRoundTrip(pageSize);
  }

  /** An id written as an integer reaches the success path exactly when it is not 0; update answers with that id. */
  lemma NumeralIds(n: int, payload: TodoInput)
    ensures DetailTodo(IntToString(n)) == if n == 0 then NotFound() else Response(200, TodoJson(FirstTodo))
    ensures UpdateTodo(IntToString(n), payload)
         == if n == 0 then NotFound() else Response(200, TodoJson(Todo(n, payload.name, payload.isDone)))
    ensures DeleteTodo(IntToString(n)) == if n == 0 then NotFound() else Response(204, JNull)
  {
    IntToStringRoundTrip(n);
  }

  /** An id without digits after its white space and sign (the empty string, "abc", "-x") is not found. */
  lemma NonNumericIdsNotFound(ws: string, sign: string, rest: string, payload: TodoInput)
    requires AllWhiteSpace(ws)
    requires sign == "" || sign == "+" || sign == "-"
    requires rest == [] || !IsDigit(rest[0], 10)
    requires sign == "" && rest != [] ==> !IsStrWhiteSpace(rest[0]) && rest[0] != '+' && rest[0] != '-'
    ensures DetailTodo(ws + sign + rest) == NotFound()
    ensures UpdateTodo(ws + sign + rest, payload) == NotFound()
    ensures DeleteTodo(ws + sign + rest) == NotFound()
  {
    ParseIntNoDigits(ws, sign, rest);
  }

  /** The canned record is an object, hence truthy: the second `!todo` guard never fires. */
  lemma CannedTodoIsTruthy(t: Todo)
    ensures Truthy(TodoJson(t))
  {
  }
}
