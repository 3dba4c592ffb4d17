# Todo API — a Dafny model of its router and client filter

The repository is a small CRUD todo service: an Express router over a
Mongoose `Todo` collection, and a browser client that calls it. This project
models the logic the repository adds of its own between the HTTP request and
the document store, and proves what that logic promises.

- `options.dfy` — module `Options`: the optional value used for absent
  fields and parameters.
- `todos.dfy` — module `Todos`: the router of `backend/routes/todos.js`.
  - The query-to-filter and query-to-sort translation of `GET /` is modelled as pure functions
    (`BuildFilter`, `BuildSort`).
  - The handlers are methods of the class `TodoRouter`. The class holds the collection as a field
    `todos: map<ObjectId, Todo>` and the database connection state as `connected`.
  - The collection is keyed by ObjectId, as in the store. An `:id` path parameter reaches a
    document through the ObjectId it casts to. Two spellings that cast to the same ObjectId
    therefore name the same document (`GetBySpelling`).
  - Each handler ends in one `Response`, which holds a status code and a JSON body.
  - `Date.now()` and `new Date()` are a `now` parameter.
  - The schema file of the `Todo` model is not part of this model. What the router relies on from
    it, and from the database, is the `Schema` value:
    - the validators `save()` runs on a whole document;
    - the update validators that `runValidators` runs on an update document;
    - the ObjectId an `:id` casts to, or none (a cast error);
    - whether the database accepts a field name as a sort key;
    - the default priority and category.
- `api.dfy` — module `Api`: `todoAPI.getTodos` of
  `frontend/src/services/api.js`, up to the list of query parameters it
  sends. A loop appends every filter entry whose value is not `undefined`,
  `null` or `''`, as `String(value)`.
- `wire.dfy` — module `Wire`: client and router together. It reads the client's
  parameters back as `req.query` and proves what filter the router builds
  from them. For example, an empty-string category means no category
  constraint, and a boolean `completed` filters on that boolean.

Failure handling follows the code. Each store call can raise one of these exceptions (`Fault`):
- a cast error for an `:id` that is not an ObjectId;
- a validation error;
- a lost connection;
- a duplicate key on insert;
- a sort key the database refuses.

Each handler's catch block turns the exception into that route's status (`CatchStatus`):
- 500 for list, get, delete and stats;
- 400 for create, update and toggle.

The exceptions are raised in the order Mongoose raises them. The id cast and the validators come
before any round trip to the database.

Some behaviours of the code are easy to miss. The model follows the code:
- PUT runs `findByIdAndUpdate` with `runValidators`. This validates the update document alone,
  before the lookup.
  - An invalid update of a missing id is therefore 400, not 404.
  - A valid update can leave a stored document that `save()` would reject. A later toggle of that
    document then gets 400.
- Toggle and update stamp `updatedAt` with the current time, with no comparison to the old value
  (backend/routes/todos.js:62 and :83).
- `sortBy` becomes a sort key whatever its value, including `""`, with one exception. A key the
  database refuses ends in the catch block's 500.
  - The exception is `sortBy=__proto__`. `sort['__proto__'] = 1` calls the prototype's setter, which
    ignores a number, so the sort object stays `{}`. The listing is then unsorted and answers 200
    (backend/routes/todos.js:23-26).

How timestamps and defaults behave depends on the schema file. The model assumes plain fields with
defaults; the lines under "## Left out" that start with `Todos.NewTodoDefaults`,
`Todos.TodoRouter.Update` and `Todos.TodoRouter.Toggle` say what that assumption leaves open.

## Model

| member | source | states |
|---|---|---|
| `Todos.CatchStatus` | backend/routes/todos.js:28-133 | the catch blocks of create, update and toggle answer 400; those of list, get, delete and stats answer 500 |
| `Todos.BuildFilter` | backend/routes/todos.js:10-20 | category and priority are constrained exactly when the parameter is present, non-empty and not "all", and then to the parameter itself; completed is constrained exactly when present, to true iff the parameter is the string "true"; no due-date condition |
| `Todos.BuildSort` | backend/routes/todos.js:8-24 | the sort object holds exactly one key, sortBy or createdAt by default, except that it is empty exactly when that key is `__proto__`; every direction in it is 1 iff sortOrder is "asc" and -1 for every other value, absent included |
| `Todos.ListedIff` | backend/routes/todos.js:11-26 | GET / lists a stored todo, unchanged, exactly when each parameter admits it: category/priority absent, empty, "all" or equal to the field, and completed absent or equal to whether the parameter is "true" |
| `Todos.CompletedParamSplits` | backend/routes/todos.js:15-17 | with `completed` present, every listed todo is completed iff the parameter is "true" ("false", "TRUE", "1" all list pending todos) |
| `Todos.NoCompletedParamListsBoth` | backend/routes/todos.js:15-17 | without `completed`, whether a todo is listed does not depend on its completed value |
| `Todos.SelectEverything` | backend/routes/todos.js:11-26 | the filter with no constraint selects the whole collection |
| `Todos.NewTodoDefaults` | backend/routes/todos.js:49-50 | field by field, each field the body omits takes its default: completed false, the default priority and category, title, description and due date absent, createdAt now and updatedAt now |
| `Todos.UpdateMerges` | backend/routes/todos.js:60-64 | the updated record takes every field the body gives, keeps every other field, and has updatedAt equal to now whatever the body says |
| `Todos.UpdateIdempotent` | backend/routes/todos.js:60-64 | repeating the same PUT gives the same record except for updatedAt |
| `Todos.ToggleTwiceRestores` | backend/routes/todos.js:82-83 | toggling twice gives back the original todo except for updatedAt, which holds the second stamp |
| `Todos.StatsConsistent` | backend/routes/todos.js:108-114 | total counts the whole collection, total == completed + pending (complementary filters), and overdue <= pending (overdue adds dueDate < now to the pending filter) |
| `Todos.GroupCountsExact` | backend/routes/todos.js:116-122 | a group-count has an entry exactly for each value present in the field, holding the number of todos with that value, at least 1 |
| `Todos.TodoRouter.SetConnection` | backend/app.js:19-21 | the database connection goes up or down; while it is down every store call fails |
| `Todos.TodoRouter.List` | backend/routes/todos.js:6-31 | connected and with every key of the sort object accepted by the database: 200 with exactly the todos the built filter selects and the built sort object; with `sortBy=__proto__`: 200 with the empty sort object; a refused sort key or a lost connection: 500 |
| `Todos.TodoRouter.Get` | backend/routes/todos.js:34-44 | 200 with the stored todo when the id casts to a stored ObjectId; 404 "Todo not found" when it casts to one that is not stored; 500 on a bad id or lost connection; the collection is never changed |
| `Todos.TodoRouter.Create` | backend/routes/todos.js:47-55 | 201 with the new document stored under the ObjectId the store assigns, exactly when it validates, the connection is up and that ObjectId is free; otherwise 400 with the first failure and the collection unchanged |
| `Todos.TodoRouter.Update` | backend/routes/todos.js:58-72 | 200 with the merged record (body fields, updatedAt = now) stored under the id; 404 when the id is missing; 400 on a bad id, invalid update or lost connection; only that record changes |
| `Todos.TodoRouter.Toggle` | backend/routes/todos.js:75-90 | on a stored id, completed is negated and updatedAt becomes now, all other fields and records unchanged; 404 on a missing id; 400 when the toggled document fails validation, the id is bad or the connection is lost, with the collection unchanged |
| `Todos.TodoRouter.Delete` | backend/routes/todos.js:93-103 | 200 "Todo deleted successfully" and the id removed, all other records unchanged; 404 when missing; 500 on a bad id or lost connection |
| `Todos.TodoRouter.Stats` | backend/routes/todos.js:106-135 | connected: 200 with the counts and group-counts of the collection, with total == completed + pending and overdue <= pending; disconnected: 500 |
| `Todos.GetBySpelling` | backend/routes/todos.js:34-40 | two `:id` strings that cast to the same ObjectId get the same answer; a stored one answers 200 with its document |
| `Todos.CreateThenGet` | backend/routes/todos.js:34-55 | after a successful create, getting any `:id` that casts to the new ObjectId returns exactly the saved document |
| `Todos.ToggleTwice` | backend/routes/todos.js:75-90 | two successful toggles leave the collection as before, except for the toggled record's updatedAt |
| `Todos.DeleteThenGet` | backend/routes/todos.js:34-103 | after a delete that answered 200 or 404, getting the id answers 404 "Todo not found" |
| `Api.Decimal` | frontend/src/services/api.js:18 | the decimal digits of a natural number, without leading zeros, whose value read back is that number |
| `Api.Stringify` | frontend/src/services/api.js:18 | the string `append` stores: a string stays itself, a boolean is "true" or "false" as it is true or false, a safe integer (at most 2^53 - 1 in magnitude) is its decimal digits without leading zeros, with a leading "-" when negative, and the result is empty only for the empty string |
| `Api.GetTodosParams` | frontend/src/services/api.js:14-20 | the loop appends exactly the parameters `Kept` describes |
| `Api.KeptConcat` | frontend/src/services/api.js:16-19 | entries are handled one by one in iteration order: the parameters of a concatenation are the concatenation of the parameters |
| `Api.KeptMembership` | frontend/src/services/api.js:16-19 | a parameter is sent iff some entry with a value other than undefined, null and '' produces it |
| `Api.OmittedNeverSent` | frontend/src/services/api.js:16-18 | the key of an entry whose value is undefined, null or '' never appears among the parameters |
| `Api.KeptUnique` | frontend/src/services/api.js:16-19 | every kept entry is appended exactly once: object keys are unique, so the parameter keys are too |
| `Api.KeptEmpty` | frontend/src/services/api.js:14-21 | no parameter is sent iff every value is undefined, null or '', so an empty filter object gives an empty parameter list |
| `Api.KeptBounds` | frontend/src/services/api.js:17-18 | at most one parameter per entry, and no parameter value is empty |
| `Api.FalsyValuesSent` | frontend/src/services/api.js:17 | the checks are strict inequalities: false, 0 and "all" are sent as "false", "0" and "all" |
| `Wire.LookupKept` | frontend/src/services/api.js:16-21 | for a filter object with plain keys (not empty, no `[`, not `__proto__`, at most 1000 entries), the router reads under a filter key nothing when the value was omitted, and String(value) otherwise |
| `Wire.CategoryRoundTrip` | backend/routes/todos.js:12-14 | with plain keys, a category sent as undefined, null, '' or "all" gives no category constraint; any other value constrains category to its string |
| `Wire.CompletedRoundTrip` | backend/routes/todos.js:15-17 | with plain keys, an omitted completed gives no constraint; a boolean completed gives exactly that boolean as the constraint |
| `Wire.NoFiltersListsAll` | frontend/src/services/api.js:14-21 | a filter object with plain keys and without category, completed or priority makes GET / select the whole collection |

## Left out

- Express setup, CORS, body parsers, `app.listen`, the fallback 500 and 404 middleware, and the root metadata route of `backend/app.js`: framework plumbing. The connection is only the `connected` flag.
- Mongoose internals. The schema file is not part of this model.
  - ObjectId generation: Create receives the ObjectId the store assigns as a parameter.
  - String-to-ObjectId casting, the validators, and which sort keys the database accepts are abstract (`Schema`).
  - `$lt` date comparison and the `$group` pipeline are replaced by the map semantics above.
- Todos.NewTodoDefaults: the defaults other than priority and category are assumed, not taken from a schema:
  - `completed` defaults to false;
  - title, description and due date are absent unless given;
  - `createdAt` and `updatedAt` both default to the current time.
  With Mongoose's `timestamps` option, a new document's `updatedAt` would be set to its `createdAt` whatever the body says; `NewTodo` keeps a body-given `updatedAt`. When the body gives neither timestamp, both are the current time either way.
- Todos.TodoRouter.Update: assumes plain timestamp fields. A body may set `createdAt`, and `updatedAt` is always the route's `now`.
  - With `timestamps`, Mongoose would keep `createdAt` unchanged on update, so `createdAt` would be immutable. In this model it is not.
  - "`updatedAt` >= `createdAt`" is not a property of the model. The route stamps `now` without comparing it to the stored `createdAt` (backend/routes/todos.js:62), and a body can move `createdAt`.
- Todos.TodoRouter.Toggle: "each toggle strictly advances `updatedAt`" is not a property of the model. The route assigns `Date.now()` without comparing it to the stored value (backend/routes/todos.js:83), so a `now` at or before the stored stamp is taken as it is.
- Todos.TodoRouter.List: does not model the order of the results. `Todo.find(filter).sort(sort)` orders by an arbitrary field, with Mongo's handling of missing values. The model returns the selected set together with the sort object the router built (empty for `sortBy=__proto__`, which sorts nothing). Which sort keys the database refuses (`""`, a `$`-prefixed name, ...) is the abstract `Schema.sortable`; a refused key gives 500.
- Todos.TodoRouter.Stats: returns the group-counts as a map from value to count, not as the array of `{ _id, count }` that `aggregate` returns, and not in its order.
- Stored `completed` is always a boolean and `priority`/`category` are always strings, so documents missing these fields are not modelled.
- Bodies and query parameters are typed. Mongoose casting of mistyped body fields is part of the abstract validators. Query values that `qs` turns into arrays or objects (repeated or bracketed keys) are not modelled; the lemmas of `Wire` require unique, plain keys.
- The exception messages themselves. An error body carries the `Fault` that raised it, not its text.
- `async`/`await` and concurrent requests: each handler runs sequentially to completion.
- Api.GetTodosParams: returns the parameter list rather than issuing the request. The axios call, the URL string `/todos?` plus `params.toString()` with its percent-encoding, and the other one-line passthrough methods of `todoAPI` are left out. An empty list stands for the path `/todos?` with nothing after the `?`.
- Api.Stringify: numbers are safe integers only (`Num` holds at most 2^53 - 1 in magnitude). Fractions, `NaN`, the infinities, `-0` (written "0"), integers beyond 2^53 - 1 (which JavaScript rounds) and magnitudes of 10^21 and more (written as "1e+21") are not modelled. Objects and arrays as filter values are not modelled either.
- Wire.LookupKept: reading the query string back assumes that percent-encoding and Express's decoding are inverse to each other. It looks up the first parameter under a key, which is what `qs` yields only for plain keys. The lemmas of `Wire` therefore require `PlainKeys`:
  - an empty key and `__proto__` are dropped by `qs`;
  - a key with `[` is parsed as an array or object path, so `category[]` or `category[$ne]` would set `category`;
  - parameters after the first 1000 are dropped.
  Filter objects outside `PlainKeys` are not modelled.
