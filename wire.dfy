/**
 * The client's getTodos parameters as the router's GET / reads them: the
 * query string is parsed back into `req.query`, one string per key, and
 * turned into a filter by the router.
 */
module Wire {
  import opened Options
  import Todos
  import Api

  /** The number of parameters the query parser reads; later ones are dropped. */
  const ParameterLimit := 1000

  /**
   * A key the query parser reads back as it is: not empty (an empty key is
   * dropped), without `[` (a bracket makes an array or a nested object, so
   * `category[]` or `category[$ne]` would set `category`), and not `__proto__`
   * (which the parser drops).
   */
  predicate PlainKey(key: string) {
    key != "" && key != "__proto__" && '[' !in key
  }

  /** A filter object whose every entry reaches `req.query` under its own key, as one string. */
  predicate PlainKeys(filters: seq<(string, Api.JsValue)>) {
    && |filters| <= ParameterLimit
    && forall i :: 0 <= i < |filters| ==> PlainKey(filters[i].0)
  }

  /** The value of a query parameter: the first one under that key, or absent. */
  function Lookup(params: seq<Api.Param>, key: string): (v: Option<string>)
    ensures v.Some? ==> (key, v.value) in params
    ensures v.None? ==> forall p :: p in params ==> p.0 != key
  {
    if params == [] then None
    else if params[0].0 == key then Some(params[0].1)
    else Lookup(params[1..], key)
  }

  /** `req.query` for GET / from the parameters the client sent, for plain keys. */
  function ParseQuery(params: seq<Api.Param>): Todos.Query {
    Todos.Query(
      category := Lookup(params, "category"),
      completed := Lookup(params, "completed"),
      priority := Lookup(params, "priority"),
      sortBy := Lookup(params, "sortBy"),
      sortOrder := Lookup(params, "sortOrder"))
  }

  /** In a list with unique keys, the only parameter under a key is the one found. */
  lemma LookupUnique(params: seq<Api.Param>, i: nat)
    requires Api.UniqueKeys(params)
    requires i < |params|
    ensures Lookup(params, params[i].0) == Some(params[i].1)
  {
    var v := Lookup(params, params[i].0);
    assert v.Some? by {
      assert params[i] in params;
    }
    var j :| 0 <= j < |params| && params[j] == (params[i].0, v.value);
    assert j == i;
  }

  /** What the router reads under `key` from the parameters of a filter object whose entry `i` has that key. */
  lemma LookupKept(filters: seq<(string, Api.JsValue)>, i: nat)
    requires Api.UniqueKeys(filters) && PlainKeys(filters)
    requires i < |filters|
    ensures Lookup(Api.Kept(filters), filters[i].0) ==
      if Api.Omitted(filters[i].1) then None else Some(Api.Stringify(filters[i].1))
  {
    var key := filters[i].0;
    var params := Api.Kept(filters);
    if Api.Omitted(filters[i].1) {
      Api.OmittedNeverSent(filters, i);
    } else {
      var p := (key, Api.Stringify(filters[i].1));
      Api.KeptMembership(filters, p);
      Api.KeptUnique(filters);
      var k :| 0 <= k < |params| && params[k] == p;
      LookupUnique(params, k);
    }
  }

  /** A key the filter object lacks is absent from `req.query`. */
  lemma LookupKeptAbsent(filters: seq<(string, Api.JsValue)>, key: string)
    requires forall i :: 0 <= i < |filters| ==> filters[i].0 != key
    ensures Lookup(Api.Kept(filters), key).None?
  {
    forall p | p in Api.Kept(filters)
      ensures p.0 != key
    {
      Api.KeptMembership(filters, p);
    }
  }

  /**
   * A category the client sends as `undefined`, `null`, `''` or "all" puts no
   * category constraint on the listing; any other value is matched as its string.
   */
  lemma CategoryRoundTrip(filters: seq<(string, Api.JsValue)>, i: nat)
    requires Api.UniqueKeys(filters) && PlainKeys(filters)
    requires i < |filters| && filters[i].0 == "category"
    ensures Todos.BuildFilter(ParseQuery(Api.Kept(filters))).category ==
      if Api.Omitted(filters[i].1) || Api.Stringify(filters[i].1) == "all" then None
      else Some(Api.Stringify(filters[i].1))
  {
    LookupKept(filters, i);
  }

  /** A boolean `completed` sent by the client filters on that very boolean; an omitted one does not filter. */
  lemma CompletedRoundTrip(filters: seq<(string, Api.JsValue)>, i: nat)
    requires Api.UniqueKeys(filters) && PlainKeys(filters)
    requires i < |filters| && filters[i].0 == "completed"
    ensures Api.Omitted(filters[i].1) ==> Todos.BuildFilter(ParseQuery(Api.Kept(filters))).completed.None?
    ensures filters[i].1.Bool? ==>
      Todos.BuildFilter(ParseQuery(Api.Kept(filters))).completed == Some(filters[i].1.b)
  {
    LookupKept(filters, i);
  }

  /** A filter object without category, completed or priority lists every todo. */
  lemma NoFiltersListsAll(filters: seq<(string, Api.JsValue)>, m: map<Todos.ObjectId, Todos.Todo>)
    requires PlainKeys(filters)
    requires forall i :: 0 <= i < |filters| ==>
      filters[i].0 != "category" && filters[i].0 != "completed" && filters[i].0 != "priority"
    ensures Todos.Select(m, Todos.BuildFilter(ParseQuery(Api.Kept(filters)))) == m
  {
    LookupKeptAbsent(filters, "category");
    LookupKeptAbsent(filters, "completed");
    LookupKeptAbsent(filters, "priority");
    assert Todos.BuildFilter(ParseQuery(Api.Kept(filters))) == Todos.Everything;
    Todos.SelectEverything(m);
  }
}
