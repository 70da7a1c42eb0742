/**
 * The route declarations of the todo resource: for each of the five routes
 * its method, path template, request inputs and, per status code, the
 * declared payload schema. All of it is constant data; the lemmas below
 * state what the declarations promise.
 */
module TodoSchema {
  import opened Wrappers
  import opened Json
  import opened Zod

  datatype Method = GET | POST | PUT | DELETE

  /** A payload: its media type and schema. */
  datatype Content = Content(mediaType: string, schema: Schema)

  /** The validated inputs: query object, path-parameter object, request body. */
  datatype RequestSpec = RequestSpec(query: Option<Schema>, params: Option<Schema>, body: Option<Content>)

  datatype ResponseSpec = ResponseSpec(status: int, content: Content, description: string)

  datatype RouteSpec = RouteSpec(
    verb: Method,
    path: string,
    request: RequestSpec,
    responses: seq<ResponseSpec>,
    tags: seq<string>)

  function AsJson(s: Schema): Content {
    Content("application/json", s)
  }

  // Shared error payloads.
  const BadRequestResponse := ZObject([Field("message", ZString)])
  const UnauthorizedResponse := ZObject([Field("message", ZDefault(ZString, JString("Unauthorized")))])
  const NotFoundResponse := ZObject([Field("message", ZString)])
  const InternalServerErrorResponse := ZObject([Field("error", ZString)])

  /** The todo record as every route returns it. */
  const TodoObject := ZObject([Field("id", ZNumber), Field("name", ZString), Field("is_done", ZBoolean)])

  /** The JSON body of create and update. */
  const TodoBody := ZObject([Field("name", ZString), Field("is_done", ZBoolean)])

  /** The single path parameter of detail, update and delete. */
  const TodoIdParams := ZObject([Field("todo_id", ZString)])

  const ListQuery := ZObject([
    Field("page", ZString),
    Field("page_size", ZString),
    Field("search", ZOptional(ZString))])

  const TodoPage := ZObject([
    Field("page", ZNumber),
    Field("page_size", ZNumber),
    Field("num_page", ZNumber),
    Field("num_data", ZNumber),
    Field("results", ZArray(TodoObject))])

  const ListTodoRoute := RouteSpec(
    GET, "/",
    RequestSpec(Some(ListQuery), None, None),
    [ ResponseSpec(200, AsJson(TodoPage), "list todo"),
      ResponseSpec(401, AsJson(UnauthorizedResponse), "Unautorized"),
      ResponseSpec(500, AsJson(InternalServerErrorResponse), "Internal Server Error")],
    ["Todo"])

  const DetailTodoRoute := RouteSpec(
    GET, "/{todo_id}",
    RequestSpec(None, Some(TodoIdParams), None),
    [ ResponseSpec(200, AsJson(TodoObject), "detail todo"),
      ResponseSpec(404, AsJson(NotFoundResponse), "todo not found"),
      ResponseSpec(500, AsJson(InternalServerErrorResponse), "Internal server error")],
    ["Todo"])

  const CreateTodoRoute := RouteSpec(
    POST, "/",
    RequestSpec(None, None, Some(AsJson(TodoBody))),
    [ ResponseSpec(201, AsJson(TodoObject), "todo created"),
      ResponseSpec(500, AsJson(InternalServerErrorResponse), "Internal server error")],
    ["Todo"])

  const UpdateTodoRoute := RouteSpec(
    PUT, "/{todo_id}",
    RequestSpec(None, Some(TodoIdParams), Some(AsJson(TodoBody))),
    [ ResponseSpec(200, AsJson(TodoObject), "todo created"),
      ResponseSpec(404, AsJson(NotFoundResponse), "todo not found"),
      ResponseSpec(500, AsJson(InternalServerErrorResponse), "Internal server error")],
    ["Todo"])

  const DeleteTodoRoute := RouteSpec(
    DELETE, "/{todo_id}",
    RequestSpec(None, Some(TodoIdParams), None),
    [ ResponseSpec(204, AsJson(ZNull), "detail todo"),
      ResponseSpec(404, AsJson(NotFoundResponse), "todo not found"),
      ResponseSpec(500, AsJson(InternalServerErrorResponse), "Internal server error")],
    ["Todo"])

  /** The routes of the todo sub-application, in registration order. */
  const Routes := [ListTodoRoute, DetailTodoRoute, CreateTodoRoute, UpdateTodoRoute, DeleteTodoRoute]

  function Statuses(responses: seq<ResponseSpec>): set<int> {
    if responses == [] then {} else {responses[0].status} + Statuses(responses[1..])
  }

  /** A status is declared exactly when some response entry carries it. */
  lemma {:induction false} StatusesSpec(responses: seq<ResponseSpec>, status: int)
    ensures status in Statuses(responses) <==> exists i :: 0 <= i < |responses| && responses[i].status == status
  {
    if responses != [] {
      StatusesSpec(responses[1..], status);
      assert forall i :: 0 < i < |responses| ==> responses[1..][i - 1] == responses[i];
      if status in Statuses(responses[1..]) {
        var i :| 0 <= i < |responses[1..]| && responses[1..][i].status == status;
        assert responses[i + 1].status == status;
      }
    }
  }

  function DeclaredStatuses(route: RouteSpec): set<int> {
    Statuses(route.responses)
  }

  /** The payload schema declared for `status`: the first response entry with that code. */
  function SchemaFor(responses: seq<ResponseSpec>, status: int): Option<Schema> {
    if responses == [] then None
    else if responses[0].status == status then Some(responses[0].content.schema)
    else SchemaFor(responses[1..], status)
  }

  /** A schema is found exactly for a status some entry carries, and it is the schema of such an entry. */
  lemma {:induction false} SchemaForSpec(responses: seq<ResponseSpec>, status: int)
    ensures SchemaFor(responses, status).Some?
        <==> exists i :: 0 <= i < |responses| && responses[i].status == status
    ensures SchemaFor(responses, status).Some? ==>
              exists i :: 0 <= i < |responses| && responses[i].status == status
                       && responses[i].content.schema == SchemaFor(responses, status).value
  {
    if responses != [] && responses[0].status != status {
      SchemaForSpec(responses[1..], status);
      assert forall i :: 0 < i < |responses| ==> responses[1..][i - 1] == responses[i];
      if SchemaFor(responses[1..], status).Some? {
        var i :| 0 <= i < |responses[1..]| && responses[1..][i].status == status
                 && responses[1..][i].content.schema == SchemaFor(responses, status).value;
        assert responses[i + 1].status == status;
      }
    }
  }

  /** The schema for a status is the one of its first response entry. */
  lemma {:induction false} SchemaForFirst(responses: seq<ResponseSpec>, status: int, k: nat)
    requires k < |responses| && responses[k].status == status
    requires forall j :: 0 <= j < k ==> responses[j].status != status
    ensures SchemaFor(responses, status) == Some(responses[k].content.schema)
  {
    if k > 0 {
      SchemaForFirst(responses[1..], status, k - 1);
    }
  }

  function ResponseSchema(route: RouteSpec, status: int): Option<Schema> {
    SchemaFor(route.responses, status)
  }

  /** A route has a payload schema for exactly the statuses it declares. */
  lemma ResponseSchemaDeclared(route: RouteSpec, status: int)
    ensures ResponseSchema(route, status).Some? <==> status in DeclaredStatuses(route)
  {
    SchemaForSpec(route.responses, status);
    StatusesSpec(route.responses, status);
  }

  /** Query and path parameters reach their schema as an object of strings. */
  function StringMembers(ps: seq<(string, string)>): (ms: seq<(string, Json)>)
    ensures |ms| == |ps|
  {
    if ps == [] then []
    else StringMembers(ps[..|ps| - 1]) + [(ps[|ps| - 1].0, JString(ps[|ps| - 1].1))]
  }

  function StringObject(ps: seq<(string, string)>): Json {
    JObject(StringMembers(ps))
  }

  function AsStringValue(v: Option<string>): Option<Json> {
    match v
    case None => None
    case Some(s) => Some(JString(s))
  }

  lemma {:induction false} LookupStringMembers(ps: seq<(string, string)>, key: string)
    ensures Lookup(StringMembers(ps), key) == AsStringValue(Lookup(ps, key))
  {
    if ps != [] {
      var n := |ps| - 1;
      var ms := StringMembers(ps);
      assert ms[..n] == StringMembers(ps[..n]);
      assert ms[n] == (ps[n].0, JString(ps[n].1));
      if ps[n].0 != key {
        LookupStringMembers(ps[..n], key);
      }
    }
  }

  predicate HasString(v: Json, key: string) {
    Get(v, key).Some? && Get(v, key).value.JString?
  }

  predicate HasNumber(v: Json, key: string) {
    Get(v, key).Some? && Get(v, key).value.JNumber?
  }

  predicate HasBool(v: Json, key: string) {
    Get(v, key).Some? && Get(v, key).value.JBool?
  }

  /** The statuses each route declares. */
  lemma DeclaredStatusSets()
    ensures DeclaredStatuses(ListTodoRoute) == {200, 401, 500}
    ensures DeclaredStatuses(DetailTodoRoute) == {200, 404, 500}
    ensures DeclaredStatuses(CreateTodoRoute) == {201, 500}
    ensures DeclaredStatuses(UpdateTodoRoute) == {200, 404, 500}
    ensures DeclaredStatuses(DeleteTodoRoute) == {204, 404, 500}
  {
    StatusesOfThree(ListTodoRoute.responses);
    StatusesOfThree(DetailTodoRoute.responses);
    StatusesOfThree(UpdateTodoRoute.responses);
    StatusesOfThree(DeleteTodoRoute.responses);
    var rs := CreateTodoRoute.responses;
    assert rs[1..] == [rs[1]] && [rs[1]][1..] == [];
    assert Statuses([rs[1]]) == {500} + Statuses([]);
    assert Statuses(rs) == {201} + Statuses([rs[1]]);
  }

  lemma StatusesOfThree(rs: seq<ResponseSpec>)
    requires |rs| == 3
    ensures Statuses(rs) == {rs[0].status, rs[1].status, rs[2].status}
  {
    assert rs[1..][1..] == [rs[2]];
    assert Statuses(rs[1..]) == {rs[1].status} + Statuses([rs[2]]);
  }

  /** The method and path of each route; no two routes share both. */
  lemma MethodsAndPaths()
    ensures ListTodoRoute.verb == GET && ListTodoRoute.path == "/"
    ensures DetailTodoRoute.verb == GET && DetailTodoRoute.path == "/{todo_id}"
    ensures CreateTodoRoute.verb == POST && CreateTodoRoute.path == "/"
    ensures UpdateTodoRoute.verb == PUT && UpdateTodoRoute.path == "/{todo_id}"
    ensures DeleteTodoRoute.verb == DELETE && DeleteTodoRoute.path == "/{todo_id}"
    ensures forall i, j :: 0 <= i < j < |Routes| ==>
              Routes[i].verb != Routes[j].verb || Routes[i].path != Routes[j].path
  {
  }

  /** List takes its inputs from the query only; the other routes take no query. */
  lemma RouteInputs()
    ensures ListTodoRoute.request.query == Some(ListQuery)
    ensures ListTodoRoute.request.params.None? && ListTodoRoute.request.body.None?
    ensures DetailTodoRoute.request.params == Some(TodoIdParams) && DetailTodoRoute.request.body.None?
    ensures UpdateTodoRoute.request.params == Some(TodoIdParams)
    ensures DeleteTodoRoute.request.params == Some(TodoIdParams) && DeleteTodoRoute.request.body.None?
    ensures CreateTodoRoute.request.body == Some(Content("application/json", TodoBody))
    ensures UpdateTodoRoute.request.body == Some(Content("application/json", TodoBody))
    ensures CreateTodoRoute.request.params.None?
    ensures forall i :: 1 <= i < |Routes| ==> Routes[i].request.query.None?
  {
  }

  /** The list query passes exactly when `page` and `page_size` are given; `search` may be left out. */
  lemma ListQueryInputs(ps: seq<(string, string)>)
    ensures Conforms(StringObject(ps), ListQuery)
        <==> Lookup(ps, "page").Some? && Lookup(ps, "page_size").Some?
  {
    var v := StringObject(ps);
    LookupStringMembers(ps, "page");
    LookupStringMembers(ps, "page_size");
    LookupStringMembers(ps, "search");
    ConformsObject(v, ListQuery);
    assert FieldConforms(v.members, ListQuery.shape[2], ListQuery);
    assert Conforms(v, ListQuery)
        <==> FieldConforms(v.members, ListQuery.shape[0], ListQuery)
             && FieldConforms(v.members, ListQuery.shape[1], ListQuery);
  }

  /** The path parameters pass exactly when `todo_id` is given; it is the only one declared. */
  lemma TodoIdInputs(ps: seq<(string, string)>)
    ensures |TodoIdParams.shape| == 1 && TodoIdParams.shape[0].name == "todo_id"
    ensures Conforms(StringObject(ps), TodoIdParams) <==> Lookup(ps, "todo_id").Some?
  {
    LookupStringMembers(ps, "todo_id");
    ConformsObject(StringObject(ps), TodoIdParams);
  }

  /** A body passes when it is an object with a string `name` and a boolean `is_done`. */
  lemma TodoBodyInputs(v: Json)
    ensures Conforms(v, TodoBody) <==> v.JObject? && HasString(v, "name") && HasBool(v, "is_done")
  {
  }

  /** A todo record has a numeric `id`, a string `name` and a boolean `is_done`. */
  lemma TodoObjectShape(v: Json)
    ensures Conforms(v, TodoObject)
        <==> v.JObject? && HasNumber(v, "id") && HasString(v, "name") && HasBool(v, "is_done")
  {
  }

  /** The list payload: four numbers and an array of todo records. */
  lemma TodoPageShape(v: Json)
    ensures Conforms(v, TodoPage)
        <==> v.JObject? && HasNumber(v, "page") && HasNumber(v, "page_size")
             && HasNumber(v, "num_page") && HasNumber(v, "num_data")
             && Get(v, "results").Some? && Get(v, "results").value.JArray?
             && forall i :: 0 <= i < |Get(v, "results").value.items| ==>
                  Conforms(Get(v, "results").value.items[i], TodoObject)
  {
    ConformsObject(v, TodoPage);
    if v.JObject? {
      assert Conforms(v, TodoPage)
          <==> FieldConforms(v.members, TodoPage.shape[0], TodoPage)
               && FieldConforms(v.members, TodoPage.shape[1], TodoPage)
               && FieldConforms(v.members, TodoPage.shape[2], TodoPage)
               && FieldConforms(v.members, TodoPage.shape[3], TodoPage)
               && FieldConforms(v.members, TodoPage.shape[4], TodoPage);
    }
  }

  /** The shared error payloads; an unauthorized message may be left out and defaults to "Unauthorized". */
  lemma ErrorBodies(v: Json)
    ensures Conforms(v, NotFoundResponse) <==> v.JObject? && HasString(v, "message")
    ensures Conforms(v, BadRequestResponse) <==> v.JObject? && HasString(v, "message")
    ensures Conforms(v, InternalServerErrorResponse) <==> v.JObject? && HasString(v, "error")
    ensures Conforms(v, UnauthorizedResponse)
        <==> v.JObject? && (Get(v, "message").None? || HasString(v, "message"))
    ensures UnauthorizedResponse.shape[0].schema.default == JString("Unauthorized")
    ensures DefaultsConform(UnauthorizedResponse)
  {
  }

  /** The success payload each route declares. */
  lemma SuccessPayloads()
    ensures ResponseSchema(ListTodoRoute, 200) == Some(TodoPage)
    ensures ResponseSchema(DetailTodoRoute, 200) == Some(TodoObject)
    ensures ResponseSchema(CreateTodoRoute, 201) == Some(TodoObject)
    ensures ResponseSchema(UpdateTodoRoute, 200) == Some(TodoObject)
    ensures ResponseSchema(DeleteTodoRoute, 204) == Some(ZNull)
  {
    SchemaForFirst(ListTodoRoute.responses, 200, 0);
    SchemaForFirst(DetailTodoRoute.responses, 200, 0);
    SchemaForFirst(CreateTodoRoute.responses, 201, 0);
    SchemaForFirst(UpdateTodoRoute.responses, 200, 0);
    SchemaForFirst(DeleteTodoRoute.responses, 204, 0);
  }

  /** The error payloads the routes declare for 401 and 404. */
  lemma ErrorPayloads()
    ensures ResponseSchema(ListTodoRoute, 401) == Some(UnauthorizedResponse)
    ensures ResponseSchema(DetailTodoRoute, 404) == Some(NotFoundResponse)
    ensures ResponseSchema(UpdateTodoRoute, 404) == Some(NotFoundResponse)
    ensures ResponseSchema(DeleteTodoRoute, 404) == Some(NotFoundResponse)
  {
    SchemaForFirst(ListTodoRoute.responses, 401, 1);
    SchemaForFirst(DetailTodoRoute.responses, 404, 1);
    SchemaForFirst(UpdateTodoRoute.responses, 404, 1);
    SchemaForFirst(DeleteTodoRoute.responses, 404, 1);
  }

  /** Every route declares the same internal-error payload for 500. */
  lemma InternalErrorPayloads()
    ensures forall i :: 0 <= i < |Routes| ==> ResponseSchema(Routes[i], 500) == Some(InternalServerErrorResponse)
  {
    SchemaForFirst(ListTodoRoute.responses, 500, 2);
    SchemaForFirst(DetailTodoRoute.responses, 500, 2);
    SchemaForFirst(CreateTodoRoute.responses, 500, 1);
    SchemaForFirst(UpdateTodoRoute.responses, 500, 2);
    SchemaForFirst(DeleteTodoRoute.responses, 500, 2);
  }

  /** No route declares a status twice, so taking its first or its last entry gives the same schema. */
  lemma DistinctStatuses()
    ensures forall k, i, j :: 0 <= k < |Routes| && 0 <= i < j < |Routes[k].responses| ==>
              Routes[k].responses[i].status != Routes[k].responses[j].status
  {
  }

  /** Every payload, in and out, is declared as application/json. */
  lemma AllPayloadsJson()
    ensures forall i, k :: 0 <= i < |Routes| && 0 <= k < |Routes[i].responses| ==>
              Routes[i].responses[k].content.mediaType == "application/json"
  {
  }
}
