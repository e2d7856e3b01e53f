/**
 * The route registry of api.py: an insertion-ordered list of route records
 * that only ever grows by appending, and never rejects a duplicate.
 */
module Registry {
  import opened Values

  /**
   * One record of the list, the dict
   * `{"API": ..., "func": ..., "method": ..., "auth": ..., "url": ...}`.
   * Nothing checks the kinds of the fields, so each is a Value.
   */
  datatype Route = Route(name: Value, url: Value, httpMethod: Value, auth: Value, func: Value)

  /** The routes among `apis` registered for exactly (url, verb). */
  function Occurrences(apis: seq<Route>, url: Value, verb: Value): nat {
    if apis == [] then 0
    else (if apis[0].url == url && apis[0].httpMethod == verb then 1 else 0)
         + Occurrences(apis[1..], url, verb)
  }

  /** Appending a route adds one occurrence of its own (url, method) pair, however many there were. */
  lemma {:induction false} OccurrencesAppend(apis: seq<Route>, r: Route, url: Value, verb: Value)
    ensures Occurrences(apis + [r], url, verb)
            == Occurrences(apis, url, verb) + (if r.url == url && r.httpMethod == verb then 1 else 0)
  {
    if apis != [] {
      assert (apis + [r])[1..] == apis[1..] + [r];
      OccurrencesAppend(apis[1..], r, url, verb);
    }
  }

  class Api {
    /** The private list `__APIs`. */
    var apis: seq<Route>

    /** A new registry holds no routes. */
    constructor ()
      ensures apis == []
    {
      apis := [];
    }

    /**
     * `register_api(API, url, type="GET", auth=False, func="default")`:
     * appends one record, storing the `type` argument under `method`; it
     * validates nothing and always succeeds.
     */
    method RegisterApi(name: Value, url: Value, verb: Value := Str("GET"),
                       auth: Value := Bool(false), func: Value := Str("default"))
      modifies this
      ensures apis == old(apis) + [Route(name, url, verb, auth, func)]
    {
      apis := apis + [Route(name, url, verb, auth, func)];
    }

    /** `get_apis()`: the registered routes in insertion order; nothing changes. */
    method GetApis() returns (routes: seq<Route>)
      ensures routes == apis
    {
      routes := apis;
    }
  }

  /**
   * A registration that leaves out every optional argument records method
   * "GET", auth False and the STRING "default" as its handler.
   */
  method RegisterWithDefaults(registry: Api, name: Value, url: Value)
    modifies registry
    ensures registry.apis == old(registry.apis) + [Route(name, url, Str("GET"), Bool(false), Str("default"))]
  {
    registry.RegisterApi(name, url);
  }

  /**
   * Registering the same (url, method) pair twice keeps both records, in
   * order, after everything registered before.
   */
  method RegisterTwice(registry: Api, first: Value, second: Value, url: Value, verb: Value)
    modifies registry
    ensures registry.apis == old(registry.apis) + [Route(first, url, verb, Bool(false), Str("default")),
                                                   Route(second, url, verb, Bool(false), Str("default"))]
    ensures Occurrences(registry.apis, url, verb) == Occurrences(old(registry.apis), url, verb) + 2
  {
    ghost var before := registry.apis;
    registry.RegisterApi(first, url, verb);
    OccurrencesAppend(before, Route(first, url, verb, Bool(false), Str("default")), url, verb);
    ghost var middle := registry.apis;
    registry.RegisterApi(second, url, verb);
    OccurrencesAppend(middle, Route(second, url, verb, Bool(false), Str("default")), url, verb);
  }
}
