/**
 * The todo router (backend/routes/todos.js) with the Mongoose collection
 * replaced by an in-memory map from id to document, `Date.now()` and
 * `new Date()` replaced by a `now` parameter (milliseconds since the epoch),
 * and each async handler run to completion as one sequential method.
 */
module Todos {
  import opened Options

  /** The `:id` path parameter, as the request gives it. */
  type Id = string

  /** The 12 bytes of an ObjectId, the key of a stored document. */
  type ObjectId = b: seq<bv8> | |b| == 12 witness [0, 0, 0, 0, 0, 0, 0, 0, 0, 0, 0, 0]

  /**
   * A stored todo document. Timestamps are milliseconds since the epoch;
   * an optional field is `None` when the document does not hold it.
   */
  datatype Todo = Todo(
    title: Option<string>,
    description: Option<string>,
    completed: bool,
    priority: string,
    category: string,
    dueDate: Option<int>,
    createdAt: int,
    updatedAt: int)

  /**
   * A JSON request body for create and update: every field may be absent.
   * `dueDate := Some(None)` is an explicit `null`, which clears the date.
   */
  datatype Body = Body(
    title: Option<string>,
    description: Option<string>,
    completed: Option<bool>,
    priority: Option<string>,
    category: Option<string>,
    dueDate: Option<Option<int>>,
    createdAt: Option<int>,
    updatedAt: Option<int>)

  /**
   * What the router relies on from the Todo model, whose schema file is not
   * part of this model, and from the database: the validators `save()` runs
   * on a whole document, the update validators `runValidators` runs on an
   * update document alone, the ObjectId an `:id` string casts to (`None` is a
   * CastError), whether the database accepts a field name as a sort key, and
   * the schema's default priority and category.
   */
  datatype Schema = Schema(
    validDoc: Todo -> bool,
    validUpdate: Body -> bool,
    cast: Id -> Option<ObjectId>,
    sortable: string -> bool,
    defaultPriority: string,
    defaultCategory: string)

  // HTTP status codes the router sends.
  const OK: nat := 200
  const Created: nat := 201
  const BadRequest: nat := 400
  const NotFound: nat := 404
  const ServerError: nat := 500

  const NotFoundMessage := "Todo not found"
  const DeletedMessage := "Todo deleted successfully"

  /** The exception a store call raises; its message becomes the error body. */
  datatype Fault =
    | Disconnected   // no connection to the database
    | BadId          // CastError: `:id` is not an ObjectId
    | Invalid        // ValidationError
    | DuplicateId    // E11000 duplicate key on insert
    | BadSort        // the database refuses the sort key

  /** The router's endpoints, each with its own catch block. */
  datatype Route = ListTodos | GetTodo | CreateTodo | UpdateTodo | ToggleTodo | DeleteTodo | GetStats

  /** The status each handler's catch block sends for any exception. */
  function CatchStatus(route: Route): (status: nat)
    ensures status == BadRequest <==> route == CreateTodo || route == UpdateTodo || route == ToggleTodo
    ensures status == ServerError <==> route == ListTodos || route == GetTodo || route == DeleteTodo || route == GetStats
  {
    match route
    case CreateTodo | UpdateTodo | ToggleTodo => BadRequest
    case ListTodos | GetTodo | DeleteTodo | GetStats => ServerError
  }

  // ---------------------------------------------------------------------
  // GET /: query parameters to an equality filter and a sort spec
  // ---------------------------------------------------------------------

  /** `req.query` for GET /: each parameter a string or absent. */
  datatype Query = Query(
    category: Option<string>,
    completed: Option<string>,
    priority: Option<string>,
    sortBy: Option<string>,
    sortOrder: Option<string>)

  /**
   * A store filter: field equalities, plus the `dueDate < dueBefore`
   * condition that only the statistics endpoint uses.
   */
  datatype Filter = Filter(
    category: Option<string>,
    completed: Option<bool>,
    priority: Option<string>,
    dueBefore: Option<int>)

  /** A sort object: each field name it holds maps to 1 (ascending) or -1 (descending). */
  type Sort = map<string, int>

  /**
   * The one property name whose assignment on a plain JavaScript object does not
   * create a property: it is the prototype's setter, and it ignores a number.
   */
  const ProtoKey := "__proto__"

  /** JavaScript truthiness of a query parameter: present and not empty. */
  predicate Truthy(p: Option<string>) {
    p.Some? && p.value != ""
  }

  /** `if (param && param !== 'all') filter[key] = param` as an optional constraint. */
  function Constraint(p: Option<string>): Option<string> {
    if Truthy(p) && p.value != "all" then p else None
  }

  /** The filter GET / builds from its query. */
  function BuildFilter(q: Query): (f: Filter)
    ensures f.category.Some? <==> q.category.Some? && q.category.value != "" && q.category.value != "all"
    ensures f.category.Some? ==> f.category == q.category
    ensures f.completed.Some? <==> q.completed.Some?
    ensures f.completed.Some? ==> (f.completed.value <==> q.completed.value == "true")
    ensures f.priority.Some? <==> q.priority.Some? && q.priority.value != "" && q.priority.value != "all"
    ensures f.priority.Some? ==> f.priority == q.priority
    ensures f.dueBefore.None?
  {
    Filter(
      category := Constraint(q.category),
      completed := if q.completed.Some? then Some(q.completed.value == "true") else None,
      priority := Constraint(q.priority),
      dueBefore := None)
  }

  /**
   * The sort object GET / builds, `sort[sortBy] = direction` on an empty object:
   * `sortBy` defaults to createdAt and `sortOrder` to desc.
   */
  function BuildSort(q: Query): (s: Sort)
    ensures var key := if q.sortBy.Some? then q.sortBy.value else "createdAt";
      && (s == map[] <==> key == ProtoKey)
      && (key != ProtoKey ==> s.Keys == {key})
    ensures forall k :: k in s ==>
      && (s[k] == 1 <==> q.sortOrder == Some("asc"))
      && (s[k] == -1 <==> q.sortOrder != Some("asc"))
  {
    var key := if q.sortBy.Some? then q.sortBy.value else "createdAt";
    var order := if q.sortOrder.Some? then q.sortOrder.value else "desc";
    var sort: Sort := map[];
    if key == ProtoKey then sort
    else
      var keyed := sort[key := if order == "asc" then 1 else -1];
      assert key in keyed;
      keyed
  }

  /** Whether the database accepts every field of a sort object as a sort key. */
  predicate SortAccepted(schema: Schema, s: Sort) {
    forall k :: k in s ==> schema.sortable(k)
  }

  /** Whether a document satisfies every constraint of a filter. */
  predicate Matches(t: Todo, f: Filter) {
    && (f.category.Some? ==> t.category == f.category.value)
    && (f.completed.Some? ==> t.completed == f.completed.value)
    && (f.priority.Some? ==> t.priority == f.priority.value)
    && (f.dueBefore.Some? ==> t.dueDate.Some? && t.dueDate.value < f.dueBefore.value)
  }

  /** The documents of the store a filter selects (their order is not modelled). */
  function Select(m: map<ObjectId, Todo>, f: Filter): map<ObjectId, Todo> {
    map id | id in m && Matches(m[id], f) :: m[id]
  }

  /** The empty filter selects the whole store. */
  lemma SelectEverything(m: map<ObjectId, Todo>)
    ensures Select(m, Everything) == m
  {
    assert Select(m, Everything).Keys == m.Keys;
  }

  /** A category or priority parameter admits a value when it is absent, empty, "all" or that value. */
  predicate Admits(param: Option<string>, value: string) {
    param.None? || param.value == "" || param.value == "all" || param.value == value
  }

  /** GET / lists a document exactly when each query parameter admits it. */
  lemma ListedIff(m: map<ObjectId, Todo>, q: Query, id: ObjectId)
    ensures id in Select(m, BuildFilter(q)) <==>
      && id in m
      && Admits(q.category, m[id].category)
      && (q.completed.Some? ==> (m[id].completed <==> q.completed.value == "true"))
      && Admits(q.priority, m[id].priority)
    ensures id in Select(m, BuildFilter(q)) ==> Select(m, BuildFilter(q))[id] == m[id]
  {
  }

  /** `completed=true` lists only completed todos; any other value only pending ones. */
  lemma CompletedParamSplits(m: map<ObjectId, Todo>, q: Query)
    requires q.completed.Some?
    ensures forall id :: id in Select(m, BuildFilter(q)) ==>
      (Select(m, BuildFilter(q))[id].completed <==> q.completed.value == "true")
  {
  }

  /** Without `completed`, flipping a document's `completed` does not change whether it is listed. */
  lemma NoCompletedParamListsBoth(t: Todo, q: Query)
    requires q.completed.None?
    ensures Matches(t, BuildFilter(q)) <==> Matches(t.(completed := !t.completed), BuildFilter(q))
  {
  }

  // ---------------------------------------------------------------------
  // Documents built by create, update and toggle
  // ---------------------------------------------------------------------

  function Override<T>(given: Option<T>, current: T): T {
    if given.Some? then given.value else current
  }

  /** An optional document field the body may set. */
  function OverrideField<T>(given: Option<T>, current: Option<T>): Option<T> {
    if given.Some? then given else current
  }

  /** A body spread over a document: every field the body gives replaces the stored one. */
  function Apply(t: Todo, body: Body): Todo {
    Todo(
      title := OverrideField(body.title, t.title),
      description := OverrideField(body.description, t.description),
      completed := Override(body.completed, t.completed),
      priority := Override(body.priority, t.priority),
      category := Override(body.category, t.category),
      dueDate := Override(body.dueDate, t.dueDate),
      createdAt := Override(body.createdAt, t.createdAt),
      updatedAt := Override(body.updatedAt, t.updatedAt))
  }

  /**
   * `new Todo(req.body)`: the schema defaults with the body applied. Title,
   * description and due date are absent unless given, and both timestamps
   * default to now.
   */
  function NewTodo(schema: Schema, body: Body, now: int): Todo {
    Apply(Todo(None, None, false, schema.defaultPriority, schema.defaultCategory, None, now, now), body)
  }

  /** The update PUT sends to the store: the body with `updatedAt` forced to now. */
  function Stamped(body: Body, now: int): Body {
    body.(updatedAt := Some(now))
  }

  /** The document after toggle: `completed` flipped, `updatedAt` stamped. */
  function Toggled(t: Todo, now: int): Todo {
    t.(completed := !t.completed, updatedAt := now)
  }

  /** A new todo takes its defaults where the body is silent. */
  lemma NewTodoDefaults(schema: Schema, body: Body, now: int)
    ensures body.completed.None? ==> !NewTodo(schema, body, now).completed
    ensures body.priority.None? ==> NewTodo(schema, body, now).priority == schema.defaultPriority
    ensures body.category.None? ==> NewTodo(schema, body, now).category == schema.defaultCategory
    ensures body.title.None? ==> NewTodo(schema, body, now).title.None?
    ensures body.description.None? ==> NewTodo(schema, body, now).description.None?
    ensures body.dueDate.None? ==> NewTodo(schema, body, now).dueDate.None?
    ensures body.createdAt.None? ==> NewTodo(schema, body, now).createdAt == now
    ensures body.updatedAt.None? ==> NewTodo(schema, body, now).updatedAt == now
  {
  }

  /** An update agrees with its body on every field the body gives and keeps every other field. */
  lemma UpdateMerges(t: Todo, body: Body, now: int)
    ensures var u := Apply(t, Stamped(body, now));
      && u.updatedAt == now
      && u.title == (if body.title.Some? then body.title else t.title)
      && u.description == (if body.description.Some? then body.description else t.description)
      && u.completed == (if body.completed.Some? then body.completed.value else t.completed)
      && u.priority == (if body.priority.Some? then body.priority.value else t.priority)
      && u.category == (if body.category.Some? then body.category.value else t.category)
      && u.dueDate == (if body.dueDate.Some? then body.dueDate.value else t.dueDate)
      && u.createdAt == (if body.createdAt.Some? then body.createdAt.value else t.createdAt)
  {
  }

  /** Sending the same update again changes nothing but `updatedAt`. */
  lemma UpdateIdempotent(t: Todo, body: Body, first: int, second: int)
    ensures Apply(Apply(t, Stamped(body, first)), Stamped(body, second)) == Apply(t, Stamped(body, second))
  {
  }

  /** Toggling twice restores `completed`; only `updatedAt` keeps the second stamp. */
  lemma ToggleTwiceRestores(t: Todo, first: int, second: int)
    ensures Toggled(Toggled(t, first), second) == t.(updatedAt := second)
  {
  }

  // ---------------------------------------------------------------------
  // GET /stats/overview
  // ---------------------------------------------------------------------

  datatype Stats = Stats(
    total: nat,
    completed: nat,
    pending: nat,
    overdue: nat,
    byPriority: map<string, nat>,
    byCategory: map<string, nat>)

  const Everything := Filter(None, None, None, None)

  function CompletedIs(b: bool): Filter {
    Filter(None, Some(b), None, None)
  }

  /** `{ completed: false, dueDate: { $lt: now } }`: a document without a due date never matches. */
  function OverdueAt(now: int): Filter {
    Filter(None, Some(false), None, Some(now))
  }

  /** `countDocuments(filter)`. */
  function CountWhere(m: map<ObjectId, Todo>, f: Filter): nat {
    |set id | id in m && Matches(m[id], f)|
  }

  /** A `$group` on one field with `count: { $sum: 1 }`, as a map from value to count. */
  function GroupCounts(m: map<ObjectId, Todo>, field: Todo -> string): map<string, nat> {
    map v | v in ValuesOf(m, field) :: HoldersOf(m, field, v)
  }

  /** The distinct values a field takes in the store. */
  function ValuesOf(m: map<ObjectId, Todo>, field: Todo -> string): set<string> {
    set id | id in m :: field(m[id])
  }

  /** How many documents hold `v` in a field. */
  function HoldersOf(m: map<ObjectId, Todo>, field: Todo -> string, v: string): nat {
    |set id | id in m && field(m[id]) == v|
  }

  function StatsOf(m: map<ObjectId, Todo>, now: int): Stats {
    Stats(
      total := CountWhere(m, Everything),
      completed := CountWhere(m, CompletedIs(true)),
      pending := CountWhere(m, CompletedIs(false)),
      overdue := CountWhere(m, OverdueAt(now)),
      byPriority := GroupCounts(m, (t: Todo) => t.priority),
      byCategory := GroupCounts(m, (t: Todo) => t.category))
  }

  lemma SubsetSmaller<T>(a: set<T>, b: set<T>)
    requires a <= b
    ensures |a| <= |b|
  {
    assert b == a + (b - a);
  }

  /** The counts of the statistics endpoint: complementary filters split the total, and overdue is part of pending. */
  lemma StatsConsistent(m: map<ObjectId, Todo>, now: int)
    ensures StatsOf(m, now).total == |m|
    ensures StatsOf(m, now).total == StatsOf(m, now).completed + StatsOf(m, now).pending
    ensures StatsOf(m, now).overdue <= StatsOf(m, now).pending
  {
    var all := set id | id in m && Matches(m[id], Everything);
    var done := set id | id in m && Matches(m[id], CompletedIs(true));
    var open := set id | id in m && Matches(m[id], CompletedIs(false));
    var late := set id | id in m && Matches(m[id], OverdueAt(now));
    assert all == m.Keys;
    assert done + open == all;
    assert done !! open;
    SubsetSmaller(late, open);
  }

  /** A group-count has one entry per value present in the store, holding that value's positive count. */
  lemma GroupCountsExact(m: map<ObjectId, Todo>, field: Todo -> string, v: string)
    ensures v in GroupCounts(m, field) <==> exists id :: id in m && field(m[id]) == v
    ensures v in GroupCounts(m, field) ==>
      GroupCounts(m, field)[v] == |set id | id in m && field(m[id]) == v| && GroupCounts(m, field)[v] >= 1
  {
    if v in GroupCounts(m, field) {
      var id :| id in m && field(m[id]) == v;
      var holders := set id | id in m && field(m[id]) == v;
      assert id in holders;
      assert |holders| != 0;
    }
  }

  // ---------------------------------------------------------------------
  // The router over an in-memory collection
  // ---------------------------------------------------------------------

  /** A response: its status code and its JSON body. */
  datatype Response = Response(status: nat, payload: Payload)

  datatype Payload =
    | One(id: ObjectId, todo: Todo)
    | Many(todos: map<ObjectId, Todo>, order: Sort)
    | Note(message: string)
    | Counts(stats: Stats)
    | Failed(fault: Fault)

  /**
   * The routes of backend/routes/todos.js over the Todo collection `todos`,
   * keyed by ObjectId: an `:id` reaches a document through the ObjectId it
   * casts to. `connected` says whether the database connection is up; every
   * store call raises `Disconnected` when it is not.
   */
  class TodoRouter {
    const schema: Schema
    var todos: map<ObjectId, Todo>
    var connected: bool

    constructor (schema: Schema, todos: map<ObjectId, Todo>, connected: bool)
      ensures this.schema == schema && this.todos == todos && this.connected == connected
    {
      this.schema := schema;
      this.todos := todos;
      this.connected := connected;
    }

    /** Whether `:id` names a stored document: it casts, and its ObjectId is a key. */
    predicate Stored(id: Id)
      reads this
    {
      schema.cast(id).Some? && schema.cast(id).value in todos
    }

    /** The database connection comes up or drops. */
    method SetConnection(up: bool)
      modifies this`connected
      ensures connected == up
    {
      connected := up;
    }

    /**
     * GET /: the documents the query's filter selects, to be sent in the
     * order of its sort object; a sort key the database refuses is an error.
     */
    method List(q: Query) returns (r: Response)
      ensures connected && SortAccepted(schema, BuildSort(q)) ==>
        r == Response(OK, Many(Select(todos, BuildFilter(q)), BuildSort(q)))
      ensures connected && !SortAccepted(schema, BuildSort(q)) ==>
        r == Response(CatchStatus(ListTodos), Failed(BadSort))
      ensures connected && q.sortBy == Some(ProtoKey) ==>
        r == Response(OK, Many(Select(todos, BuildFilter(q)), map[]))
      ensures !connected ==> r == Response(CatchStatus(ListTodos), Failed(Disconnected))
    {
      var filter := BuildFilter(q);
      var sort := BuildSort(q);
      if !connected {
        return Response(CatchStatus(ListTodos), Failed(Disconnected));
      }
      if !SortAccepted(schema, sort) {
        return Response(CatchStatus(ListTodos), Failed(BadSort));
      }
      r := Response(OK, Many(Select(todos, filter), sort));
    }

    /** GET /:id. */
    method Get(id: Id) returns (r: Response)
      ensures r.status == OK <==> connected && Stored(id)
      ensures r.status == OK ==> r.payload == One(schema.cast(id).value, todos[schema.cast(id).value])
      ensures r.status == NotFound <==> schema.cast(id).Some? && connected && !Stored(id)
      ensures r.status == NotFound ==> r.payload == Note(NotFoundMessage)
      ensures r.status != OK && r.status != NotFound ==>
        r == Response(CatchStatus(GetTodo), Failed(if schema.cast(id).None? then BadId else Disconnected))
    {
      var key := schema.cast(id);
      if key.None? {
        return Response(CatchStatus(GetTodo), Failed(BadId));
      }
      if !connected {
        return Response(CatchStatus(GetTodo), Failed(Disconnected));
      }
      if key.value !in todos {
        return Response(NotFound, Note(NotFoundMessage));
      }
      r := Response(OK, One(key.value, todos[key.value]));
    }

    /**
     * POST /. `key` is the ObjectId the store assigns to the new document;
     * `save()` validates before it inserts, and an insert under a taken key fails.
     */
    method Create(body: Body, key: ObjectId, now: int) returns (r: Response)
      modifies this`todos
      ensures r.status == Created <==> schema.validDoc(NewTodo(schema, body, now)) && connected && key !in old(todos)
      ensures r.status == Created ==>
        todos == old(todos)[key := NewTodo(schema, body, now)] && r.payload == One(key, NewTodo(schema, body, now))
      ensures r.status != Created ==>
        && todos == old(todos)
        && r.status == CatchStatus(CreateTodo)
        && r.payload == Failed(
             if !schema.validDoc(NewTodo(schema, body, now)) then Invalid
             else if !connected then Disconnected
             else DuplicateId)
    {
      var todo := NewTodo(schema, body, now);
      if !schema.validDoc(todo) {
        return Response(CatchStatus(CreateTodo), Failed(Invalid));
      }
      if !connected {
        return Response(CatchStatus(CreateTodo), Failed(Disconnected));
      }
      if key in todos {
        return Response(CatchStatus(CreateTodo), Failed(DuplicateId));
      }
      todos := todos[key := todo];
      r := Response(Created, One(key, todo));
    }

    /**
     * PUT /:id: `findByIdAndUpdate` with `runValidators`, which checks the
     * update document alone before the lookup, so an invalid update is
     * refused whether or not the id exists.
     */
    method Update(id: Id, body: Body, now: int) returns (r: Response)
      modifies this`todos
      ensures r.status == OK <==>
        schema.validUpdate(Stamped(body, now)) && connected && old(Stored(id))
      ensures r.status == OK ==>
        var key := schema.cast(id).value;
        && todos == old(todos)[key := Apply(old(todos)[key], Stamped(body, now))]
        && r.payload == One(key, todos[key])
      ensures r.status == NotFound <==>
        schema.cast(id).Some? && schema.validUpdate(Stamped(body, now)) && connected && !old(Stored(id))
      ensures r.status == NotFound ==> r.payload == Note(NotFoundMessage)
      ensures r.status != OK ==> todos == old(todos)
      ensures r.status != OK && r.status != NotFound ==>
        && r.status == CatchStatus(UpdateTodo)
        && r.payload == Failed(
             if schema.cast(id).None? then BadId
             else if !schema.validUpdate(Stamped(body, now)) then Invalid
             else Disconnected)
    {
      var update := Stamped(body, now);
      var key := schema.cast(id);
      if key.None? {
        return Response(CatchStatus(UpdateTodo), Failed(BadId));
      }
      if !schema.validUpdate(update) {
        return Response(CatchStatus(UpdateTodo), Failed(Invalid));
      }
      if !connected {
        return Response(CatchStatus(UpdateTodo), Failed(Disconnected));
      }
      if key.value !in todos {
        return Response(NotFound, Note(NotFoundMessage));
      }
      var todo := Apply(todos[key.value], update);
      todos := todos[key.value := todo];
      r := Response(OK, One(key.value, todo));
    }

    /** PATCH /:id/toggle: load, flip `completed`, stamp `updatedAt`, and `save()` (which validates). */
    method Toggle(id: Id, now: int) returns (r: Response)
      modifies this`todos
      ensures r.status == OK <==>
        connected && old(Stored(id)) && schema.validDoc(Toggled(old(todos)[schema.cast(id).value], now))
      ensures r.status == OK ==>
        var key := schema.cast(id).value;
        && todos == old(todos)[key := Toggled(old(todos)[key], now)]
        && r.payload == One(key, todos[key])
      ensures r.status == NotFound <==> schema.cast(id).Some? && connected && !old(Stored(id))
      ensures r.status == NotFound ==> r.payload == Note(NotFoundMessage)
      ensures r.status != OK ==> todos == old(todos)
      ensures r.status != OK && r.status != NotFound ==>
        && r.status == CatchStatus(ToggleTodo)
        && r.payload == Failed(
             if schema.cast(id).None? then BadId
             else if !connected then Disconnected
             else Invalid)
    {
      var key := schema.cast(id);
      if key.None? {
        return Response(CatchStatus(ToggleTodo), Failed(BadId));
      }
      if !connected {
        return Response(CatchStatus(ToggleTodo), Failed(Disconnected));
      }
      if key.value !in todos {
        return Response(NotFound, Note(NotFoundMessage));
      }
      var todo := todos[key.value];
      todo := todo.(completed := !todo.completed);
      todo := todo.(updatedAt := now);
      if !schema.validDoc(todo) {
        return Response(CatchStatus(ToggleTodo), Failed(Invalid));
      }
      todos := todos[key.value := todo];
      r := Response(OK, One(key.value, todo));
    }

    /** DELETE /:id. */
    method Delete(id: Id) returns (r: Response)
      modifies this`todos
      ensures r.status == OK <==> connected && old(Stored(id))
      ensures r.status == OK ==> todos == old(todos) - {schema.cast(id).value} && r.payload == Note(DeletedMessage)
      ensures r.status == NotFound <==> schema.cast(id).Some? && connected && !old(Stored(id))
      ensures r.status == NotFound ==> r.payload == Note(NotFoundMessage)
      ensures r.status != OK ==> todos == old(todos)
      ensures r.status != OK && r.status != NotFound ==>
        r == Response(CatchStatus(DeleteTodo), Failed(if schema.cast(id).None? then BadId else Disconnected))
    {
      var key := schema.cast(id);
      if key.None? {
        return Response(CatchStatus(DeleteTodo), Failed(BadId));
      }
      if !connected {
        return Response(CatchStatus(DeleteTodo), Failed(Disconnected));
      }
      if key.value !in todos {
        return Response(NotFound, Note(NotFoundMessage));
      }
      todos := todos - {key.value};
      r := Response(OK, Note(DeletedMessage));
    }

    /** GET /stats/overview. */
    method Stats(now: int) returns (r: Response)
      ensures connected ==> r == Response(OK, Counts(StatsOf(todos, now)))
      ensures connected ==> r.payload.stats.total == |todos|
      ensures connected ==> r.payload.stats.total == r.payload.stats.completed + r.payload.stats.pending
      ensures connected ==> r.payload.stats.overdue <= r.payload.stats.pending
      ensures !connected ==> r == Response(CatchStatus(GetStats), Failed(Disconnected))
    {
      if !connected {
        return Response(CatchStatus(GetStats), Failed(Disconnected));
      }
      StatsConsistent(todos, now);
      r := Response(OK, Counts(StatsOf(todos, now)));
    }
  }

  // ---------------------------------------------------------------------
  // Sequences of requests, proved from the handlers' contracts alone
  // ---------------------------------------------------------------------

  /** Two spellings of `:id` that cast to one ObjectId get the same answer from GET /:id. */
  method GetBySpelling(router: TodoRouter, a: Id, b: Id) returns (ra: Response, rb: Response)
    ensures router.schema.cast(a) == router.schema.cast(b) ==> ra == rb
    ensures router.connected && router.Stored(a) ==>
      ra == Response(OK, One(router.schema.cast(a).value, router.todos[router.schema.cast(a).value]))
  {
    ra := router.Get(a);
    rb := router.Get(b);
  }

  /** A created todo is then found under any `:id` that casts to its ObjectId, exactly as saved. */
  method CreateThenGet(router: TodoRouter, body: Body, key: ObjectId, id: Id, now: int)
    returns (created: Response, fetched: Response)
    modifies router
    ensures created.status == Created && router.schema.cast(id) == Some(key) ==>
      fetched == Response(OK, One(key, NewTodo(router.schema, body, now)))
  {
    created := router.Create(body, key, now);
    fetched := router.Get(id);
  }

  /** Two successful toggles restore the document but for its last `updatedAt`. */
  method ToggleTwice(router: TodoRouter, id: Id, first: int, second: int) returns (r1: Response, r2: Response)
    modifies router
    ensures r1.status == OK && r2.status == OK ==>
      && router.schema.cast(id).Some?
      && var key := router.schema.cast(id).value;
      && key in old(router.todos)
      && router.todos == old(router.todos)[key := old(router.todos)[key].(updatedAt := second)]
  {
    r1 := router.Toggle(id, first);
    r2 := router.Toggle(id, second);
  }

  /** After a delete that succeeds or finds nothing, fetching the id gives 404. */
  method DeleteThenGet(router: TodoRouter, id: Id) returns (deleted: Response, fetched: Response)
    modifies router
    ensures deleted.status == OK || deleted.status == NotFound ==>
      fetched == Response(NotFound, Note(NotFoundMessage))
    ensures deleted.status == OK ==>
      && router.schema.cast(id).Some?
      && !router.Stored(id)
      && router.todos == old(router.todos) - {router.schema.cast(id).value}
  {
    deleted := router.Delete(id);
    fetched := router.Get(id);
  }
}
