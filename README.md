# Todo routes of a Hono/zod OpenAPI service, modelled in Dafny

The service mounts a small todo sub-application under `/todo`. It has five
routes: list, detail, create, update and delete. Each route is declared
with `createRoute` in `src/schema/todo.ts`. The declaration gives the
method, the path template, the zod schemas of the validated inputs, and
the payload schema of every status code. A handler in `src/route/todo.ts`
is registered for each route with `app.openapi`. The handler reads its
validated input and then does three things:

- it coerces the page numbers or the todo id with JavaScript `parseInt`;
- it tests the result for truthiness;
- it answers `c.json(payload, status)` with canned data.

The project has six modules:

- `Wrappers` (`wrappers.dfy`) holds `Option`. `None` stands for a missing
  key and, for numbers, for NaN.
- `JsNumber` (`js_number.dfy`) models the Number coercions the handlers use:
  - `parseInt` with no radix (ECMA-262, section 19.2.5): skip
    StrWhiteSpaceChar, take an optional sign, switch to radix 16 on
    `0x`/`0X`, read the longest run of digits; no digits gives NaN;
  - ToBoolean on a Number (`Falsy`) and the `n || d` default (`OrElse`);
  - the plain decimal numeral of an integer (`IntToString`). This is what
    `Number::toString` writes when |n| < 10^21, and `parseInt` reads it back.
- `Json` (`json.dfy`) holds JSON values. An object is its ordered list of
  properties. A lookup finds the last binding, as object literals, spreads
  and `JSON.parse` do. `Truthy` is ToBoolean on a value.
- `Zod` (`zod.dfy`) holds the schemas the routes use: string, number,
  boolean, null, array, object, `.optional()` and `.default(d)`. `Conforms`
  says when a value passes `parse`. An object passes when every declared
  field is present and conforms, or may be absent. Unknown keys are allowed,
  because zod strips them.
- `TodoSchema` (`todo_schema.dfy`) holds the shared error schemas and the
  five route declarations as constants, plus lemmas about what they declare.
- `TodoRoute` (`todo_route.dfy`) holds the five handlers as functions from
  their validated input to a `Response(status, body)`. `Handle` dispatches a
  request to its handler, and `RouteOf` gives the route each handler is
  registered for. The headline lemma is `HandlersHonourRoutes`: every
  handler answers with a status its route declares, and its payload passes
  the schema declared for that status.

## Model

| member | source | states |
|---|---|---|
| JsNumber.TrimStartSpec | src/route/todo.ts:14-15 | parseInt's first step removes only StrWhiteSpaceChar from the front, and what remains does not start with one |
| JsNumber.TakeDigitsSpec | src/route/todo.ts:14-15 | the digits read are a prefix of the input, and the run stops at the end or at the first character that is not a digit of the radix |
| JsNumber.DigitsValueBound | src/route/todo.ts:14-15 | a run of k digits in radix r denotes a value below r^k |
| JsNumber.NatToDecimal | src/route/todo.ts:14-15 | the decimal numeral of a natural number is non-empty, is all digits, denotes that number and has no leading zero |
| JsNumber.ParseIntDecimal | src/route/todo.ts:14-15 | parseInt of white space, an optional sign, a decimal numeral and any non-digit tail is the signed value of the numeral |
| JsNumber.ParseIntHex | src/route/todo.ts:43 | after white space and a sign, a `0x`/`0X` prefix switches to radix 16; a prefix with no hex digit after it gives NaN |
| JsNumber.ParseIntNoDigits | src/route/todo.ts:43-44 | with no digit after the white space and the sign, parseInt gives NaN, which is falsy |
| JsNumber.NumeralRoundTrip | src/route/todo.ts:14-15 | an optional minus sign followed by the decimal numeral of m parses to the signed m |
| JsNumber.IntToStringRoundTrip | src/route/todo.ts:14-15 | parseInt reads back the plain decimal numeral of every integer |
| JsNumber.FifteenDigitsExact | src/route/todo.ts:14-15 | up to 15 decimal digits denote a value below 2^53, so a JavaScript Number holds it exactly and the integer model agrees with it |
| JsNumber.DecimalDigit | src/route/todo.ts:14-15 | the character written for a digit below 10 is a decimal digit with that value |
| Json.LookupSpec | src/route/todo.ts:76 | a key is missing exactly when no property has it; otherwise the value found is that of the key's last binding, as a spread overrides earlier keys |
| Json.LookupLast | src/route/todo.ts:74-77 | a property with no later binding of its key is the one found |
| Json.LookupDistinct | src/route/todo.ts:19-36 | in an object literal whose keys are distinct, each key finds its own value |
| Zod.FieldsConformAll | src/schema/todo.ts:5-19 | an object value passes the remaining fields when each one of them passes |
| Zod.ConformsObject | src/schema/todo.ts:5-19 | an object schema accepts a value exactly when it is an object and each declared field is present and conforms, or is optional or defaulted and absent |
| TodoSchema.StatusesSpec | src/schema/todo.ts:46-83 | a status is declared exactly when some response entry of the route carries it |
| TodoSchema.SchemaForSpec | src/schema/todo.ts:46-83 | a payload schema is found exactly for a declared status, and it is the schema of an entry with that status |
| TodoSchema.SchemaForFirst | src/schema/todo.ts:46-83 | the payload schema of a status is that of its first entry |
| TodoSchema.ResponseSchemaDeclared | src/schema/todo.ts:46-83 | a route has a payload schema for a status exactly when it declares that status |
| TodoSchema.StringMembers | src/schema/todo.ts:26-44 | the request's string parameters become one JSON string property each |
| TodoSchema.LookupStringMembers | src/schema/todo.ts:26-44 | looking a key up among the parameters as JSON gives the parameter's string value, or nothing when it is absent |
| TodoSchema.DeclaredStatusSets | src/schema/todo.ts:46-277 | list declares {200, 401, 500}, detail {200, 404, 500}, create {201, 500}, update {200, 404, 500} and delete {204, 404, 500} |
| TodoSchema.StatusesOfThree | src/schema/todo.ts:103-132 | a route with three response entries declares exactly their three statuses |
| TodoSchema.MethodsAndPaths | src/schema/todo.ts:22-279 | the routes are GET `/`, GET `/{todo_id}`, POST `/`, PUT `/{todo_id}` and DELETE `/{todo_id}`, and no two of them share a method and path |
| TodoSchema.RouteInputs | src/schema/todo.ts:25-45 | list validates only its query, detail and delete only the `todo_id` parameters, and create and update a JSON body, update with the parameters too |
| TodoSchema.ListQueryInputs | src/schema/todo.ts:26-44 | a list query passes exactly when `page` and `page_size` are given; `search` may be left out |
| TodoSchema.TodoIdInputs | src/schema/todo.ts:92-101 | `todo_id` is the only declared path parameter, and the parameters pass exactly when it is given |
| TodoSchema.TodoBodyInputs | src/schema/todo.ts:144-147 | a create or update body passes exactly when it is an object with a string `name` and a boolean `is_done` |
| TodoSchema.TodoObjectShape | src/schema/todo.ts:107-111 | a todo record passes exactly when it has a numeric `id`, a string `name` and a boolean `is_done` |
| TodoSchema.TodoPageShape | src/schema/todo.ts:50-62 | the list payload passes exactly when it has numeric `page`, `page_size`, `num_page` and `num_data` and `results` is an array of todo records |
| TodoSchema.ErrorBodies | src/schema/todo.ts:5-19 | not-found and bad-request bodies need a string `message` and internal-error bodies a string `error`; the unauthorized `message` may be absent and defaults to the string "Unauthorized" |
| TodoSchema.SuccessPayloads | src/schema/todo.ts:46-256 | the success payload is the page for list, the todo record for detail (200), create (201) and update (200), and null for delete (204) |
| TodoSchema.ErrorPayloads | src/schema/todo.ts:67-123 | list's 401 declares the unauthorized body, and the 404 of detail, update and delete declares the not-found body |
| TodoSchema.InternalErrorPayloads | src/schema/todo.ts:75-82 | every route declares the same internal-error body for 500 |
| TodoSchema.DistinctStatuses | src/schema/todo.ts:46-277 | no route repeats a status key among its responses, so the object literal binds each declared status to exactly one payload schema |
| TodoSchema.AllPayloadsJson | src/schema/todo.ts:46-277 | every declared response payload is `application/json` |
| TodoRoute.TodoJsonFields | src/route/todo.ts:53-57 | a todo record's `id`, `name` and `is_done` properties hold its fields |
| TodoRoute.SpreadIsTodo | src/route/todo.ts:73-77 | `{id, ...payload}` with a validated body is the todo record with that id and the submitted `name` and `is_done` |
| TodoRoute.PageJson | src/route/todo.ts:18-36 | the page envelope carries the given page and page size, `num_page` 1, `num_data` 2 and the two canned todos |
| TodoRoute.ListTodos | src/route/todo.ts:12-39 | list answers 200; `page` is parseInt(page) unless that is NaN or 0, in which case it is 1; `page_size` likewise with 10; then the constant counts and the two canned todos |
| TodoRoute.DetailTodo | src/route/todo.ts:41-68 | detail answers 404 `{message: "todo not found"}` when the id parses to NaN or 0, and otherwise 200 with the canned first todo whatever the id |
| TodoRoute.CreateTodo | src/route/todo.ts:70-80 | create always answers 201 with id 10 and the submitted `name` and `is_done` |
| TodoRoute.UpdateTodo | src/route/todo.ts:82-117 | update answers 404 when the id parses to NaN or 0, and otherwise 200 with the parsed id and the submitted `name` and `is_done` |
| TodoRoute.DeleteTodo | src/route/todo.ts:119-147 | delete answers 404 when the id parses to NaN or 0, and otherwise 204 with a null body |
| TodoRoute.TodoJsonConforms | src/route/todo.ts:53-57 | every todo record the handlers build passes the declared todo schema |
| TodoRoute.NotFoundConforms | src/route/todo.ts:44-51 | the 404 body passes the not-found schema |
| TodoRoute.PageConforms | src/route/todo.ts:18-38 | the list payload passes the declared page schema for any page and page size |
| TodoRoute.ListHonours | src/route/todo.ts:12-39 | list's answer is declared by its route and passes the declared schema |
| TodoRoute.DetailHonours | src/route/todo.ts:41-68 | both of detail's answers are declared by its route and pass the declared schemas |
| TodoRoute.CreateHonours | src/route/todo.ts:70-80 | create's answer is declared by its route and passes the declared schema |
| TodoRoute.UpdateHonours | src/route/todo.ts:82-117 | both of update's answers are declared by its route and pass the declared schemas |
| TodoRoute.DeleteHonours | src/route/todo.ts:119-147 | both of delete's answers are declared by its route and pass the declared schemas |
| TodoRoute.HandlersHonourRoutes | src/route/todo.ts:12-147 | for every request, the handler's status is among those its route declares, and its payload passes the schema declared for that status |
| TodoRoute.ListIgnoresSearch | src/route/todo.ts:13-16 | the list answer does not depend on `search` |
| TodoRoute.ListEchoesNumerals | src/route/todo.ts:14-15 | a page or page size written as an integer comes back as that integer, except that 0 falls back to 1 or 10 |
| TodoRoute.NumeralIds | src/route/todo.ts:43-146 | an id written as an integer reaches the success path of detail, update and delete exactly when it is not 0, and update answers with that id |
| TodoRoute.NonNumericIdsNotFound | src/route/todo.ts:43-51 | an id with no digit after its white space and sign, such as "", "abc" or "-x", gets 404 from detail, update and delete |
| TodoRoute.CannedTodoIsTruthy | src/route/todo.ts:58-65 | the canned record is an object and hence truthy, so the second `!todo` guard of detail, update and delete never fires |

## Left out

- `src/index.ts` is not part of this model. It starts the Node server on port 3000 and serves the OpenAPI document at `/doc` and the Swagger page at `/ui`; all of that is I/O. The one thing it adds to these routes is the `/todo` prefix (src/index.ts:7), which the model's path templates leave off.
- `src/foo.ts` is not part of this model. It is a single constant handler, and it is not mounted.
- Hono's `app.openapi`, `c.req.valid` and `c.json` are framework plumbing. A handler here takes the validated input as its parameters and returns the `(status, payload)` pair `c.json` is given. Validation failures never reach the handlers, so they are described only by the `Conforms` characterisation lemmas. The query and the path parameters are modelled as a list of name/value string pairs in which the last binding wins. A repeated query key (`?page=1&page=2`) is not modelled; there the framework may hand zod an array.
- Zod's `parse` output is left out: stripping unknown keys and filling in defaults. Only its accept/reject decision (`Conforms`) is modelled. The validated body is therefore a `TodoInput` holding just `name` and `is_done`.
- The `.openapi(...)` metadata on the inputs is left out: the declared type "number", the examples, and the parameter names and locations. It only documents the inputs and never changes validation. Route descriptions and tags are kept as data but have no lemmas.
- `console.log(search)` (src/route/todo.ts:16) is a side effect only.
- JsNumber.ParseInt: a JavaScript Number is a double, so parseInt results beyond 2^53 lose precision or become Infinity. The model uses unbounded integers instead, and `FifteenDigitsExact` shows the two agree for numerals of up to 15 digits.
- JsNumber.ParseInt: -0 and +0 both become 0. This is harmless here, since both are falsy and `c.json` writes both as `0`.
- JsNumber.IsStrWhiteSpace: strings are sequences of Dafny `char`s rather than UTF-16 code units. Every white-space code point lies in the Basic Multilingual Plane, so this makes no difference here.
- JsNumber.IntToStringRoundTrip speaks of the plain decimal numeral only. From 10^21 upward, Number::toString writes exponent form ("1e+21"), which parseInt reads as 1. No handler formats a number itself; the numeral exists as the partner that parseInt reads back.
- Response headers, the content type that is actually sent, and the serialisation of the body are left out.

## Notes on the code

- The list defaults apply when the parsed value is NaN and also when it is 0, so a `page` of "0" comes back as 1 (`ListEchoesNumerals`). A missing `page` or `page_size` never reaches the handler, because the query schema requires both (`ListQueryInputs`).
- Delete answers `c.json(null, 204)`: the JSON `null` its route declares with `z.null()`.
- List's 401 body is `{message}`, and its `message` defaults to "Unauthorized".
- `SchemaFor` takes a status's first response entry, whereas an object literal binds a repeated key to its last value. No route repeats a status (`DistinctStatuses`), so the two agree.
