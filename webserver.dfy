/**
 * The request side of server.py: the dispatcher `HandleRequest`, the
 * status chosen by `do_GET`/`do_POST`, and the startup in `Server.start`
 * that validates the configuration and registers its routes.
 */
module WebServer {
  import opened Values
  import opened Handlers
  import opened Registry

  const NotFound: string := "404 Not Found"
  const MethodNotAllowed: string := "405 Method Not Allowed"
  const ContentType: string := "text/html"

  // ---------------------------------------------------------------------
  // Dispatch
  // ---------------------------------------------------------------------

  /** `url.split("?")[0]`: the part of the URL before its first `?`. */
  function StripQuery(url: string): (path: string)
    ensures path <= url
    ensures '?' !in path
    ensures |path| < |url| ==> url[|path|] == '?'
  {
    if url == [] || url[0] == '?' then [] else [url[0]] + StripQuery(url[1..])
  }

  /** A query string, whatever it holds, never takes part in matching. */
  lemma {:induction false} StripQueryDropsQuery(path: string, query: string)
    requires '?' !in path
    ensures StripQuery(path + "?" + query) == path
    ensures StripQuery(path) == path
  {
    if path != [] {
      assert (path + "?" + query)[1..] == path[1..] + "?" + query;
      StripQueryDropsQuery(path[1..], query);
    }
  }

  predicate UrlMatches(r: Route, path: string) {
    r.url == Str(path)
  }

  predicate FullMatch(r: Route, path: string, verb: string) {
    r.url == Str(path) && r.httpMethod == Str(verb)
  }

  /** Where the scan of the route list ends: at a route, or with an error label. */
  datatype Resolution = Hit(index: nat) | Miss(reason: string)

  /**
   * The scan of `HandleRequest`: the FIRST route matching both path and
   * method wins; without one, the label is 405 when some route had the path
   * and 404 when none had.
   */
  function Resolve(apis: seq<Route>, path: string, verb: string): (res: Resolution)
    ensures res.Hit? <==> exists i :: 0 <= i < |apis| && FullMatch(apis[i], path, verb)
    ensures res.Hit? ==> res.index < |apis| && FullMatch(apis[res.index], path, verb)
                         && forall j :: 0 <= j < res.index ==> !FullMatch(apis[j], path, verb)
    ensures res.Miss? ==> res.reason == if exists i :: 0 <= i < |apis| && UrlMatches(apis[i], path)
                                        then MethodNotAllowed else NotFound
  {
    if apis == [] then Miss(NotFound)
    else if FullMatch(apis[0], path, verb) then Hit(0)
    else
      var rest := Resolve(apis[1..], path, verb);
      assert forall i :: 1 <= i < |apis| ==> apis[i] == apis[1..][i - 1];
      match rest
      case Hit(k) => Hit(k + 1)
      case Miss(reason) => Miss(if UrlMatches(apis[0], path) then MethodNotAllowed else reason)
  }

  /** What `HandleRequest` yields: its result dict, or the exception it lets through. */
  datatype Reply = Reply(error: bool, data: string)
  datatype Dispatched = Returned(reply: Reply) | Raised

  /** `func(ApiHandler, data)`: only a function object can be called; anything else raises TypeError. */
  function Call(func: Value, data: RequestData, io: HandlerIo): Dispatched {
    match func
    case Function(name) =>
      (match Invoke(name, data, io)
       case Some(body) => Returned(Reply(false, body))
       case None => Raised)
    case _ => Raised
  }

  /** The result of `HandleRequest(url, apis, verb, data)`. */
  function Dispatch(url: string, apis: seq<Route>, verb: string, data: RequestData, io: HandlerIo): Dispatched {
    match Resolve(apis, StripQuery(url), verb)
    case Hit(i) => Call(apis[i].func, data, io)
    case Miss(reason) => Returned(Reply(true, reason))
  }

  /** Calling a route's handler returns exactly when it is a function object whose body returns, and yields that body's text. */
  lemma CallSpec(func: Value, data: RequestData, io: HandlerIo)
    ensures Call(func, data, io).Returned? <==> func.Function? && Invoke(func.name, data, io).Some?
    ensures Call(func, data, io).Returned? ==>
              Call(func, data, io).reply == Reply(false, Invoke(func.name, data, io).value)
  {
  }

  /**
   * An error result arises exactly when no route matches both the path and
   * the method, and its data is then the label of the scan; a request that
   * does match is answered by the handler of the first route that does.
   */
  lemma DispatchSpec(url: string, apis: seq<Route>, verb: string, data: RequestData, io: HandlerIo)
    ensures (forall i :: 0 <= i < |apis| ==> !FullMatch(apis[i], StripQuery(url), verb)) ==>
              Dispatch(url, apis, verb, data, io)
              == Returned(Reply(true, if exists i :: 0 <= i < |apis| && UrlMatches(apis[i], StripQuery(url))
                                      then MethodNotAllowed else NotFound))
    ensures Dispatch(url, apis, verb, data, io).Returned? && Dispatch(url, apis, verb, data, io).reply.error ==>
              forall i :: 0 <= i < |apis| ==> !FullMatch(apis[i], StripQuery(url), verb)
  {
    var res := Resolve(apis, StripQuery(url), verb);
    if res.Hit? {
      var i := res.index;
      CallSpec(apis[i].func, data, io);
    }
  }

  /** `HandleRequest`: a scan that remembers a path match and returns at the first full match. */
  method HandleRequest(url: string, apis: seq<Route>, verb: string, data: RequestData, io: HandlerIo)
    returns (out: Dispatched)
    ensures out == Dispatch(url, apis, verb, data, io)
  {
    var error := NotFound;
    var path := StripQuery(url);
    for i := 0 to |apis|
      invariant forall j :: 0 <= j < i ==> !FullMatch(apis[j], path, verb)
      invariant error == if exists j :: 0 <= j < i && UrlMatches(apis[j], path)
                         then MethodNotAllowed else NotFound
    {
      if apis[i].url == Str(path) {
        if apis[i].httpMethod != Str(verb) {
          error := MethodNotAllowed;
          continue;
        }
        out := Call(apis[i].func, data, io);
        return;
      }
    }
    out := Returned(Reply(true, error));
  }

  /** The first route with the request's path and method answers, whatever follows it. */
  lemma FirstFullMatchAnswers(url: string, apis: seq<Route>, verb: string, data: RequestData, io: HandlerIo, i: nat)
    requires i < |apis| && FullMatch(apis[i], StripQuery(url), verb)
    requires forall j :: 0 <= j < i ==> !FullMatch(apis[j], StripQuery(url), verb)
    ensures Dispatch(url, apis, verb, data, io) == Call(apis[i].func, data, io)
  {
    var res := Resolve(apis, StripQuery(url), verb);
    assert res.Hit?;
  }

  /** Routes registered later, duplicates included, never change a request that already resolves. */
  lemma LaterRoutesUnreachable(apis: seq<Route>, later: seq<Route>, path: string, verb: string)
    requires Resolve(apis, path, verb).Hit?
    ensures Resolve(apis + later, path, verb) == Resolve(apis, path, verb)
  {
    var k := Resolve(apis, path, verb).index;
    var res := Resolve(apis + later, path, verb);
    assert (apis + later)[k] == apis[k];
    assert res.Hit?;
    assert forall j :: 0 <= j < k ==> (apis + later)[j] == apis[j];
  }

  /** A route with the right path but the wrong method does not stop the scan. */
  lemma {:induction false} MethodMismatchContinues(before: seq<Route>, r: Route, after: seq<Route>, path: string, verb: string)
    requires forall j :: 0 <= j < |before| ==> !FullMatch(before[j], path, verb)
    requires UrlMatches(r, path) && !FullMatch(r, path, verb)
    requires Resolve(after, path, verb).Hit?
    ensures Resolve(before + [r] + after, path, verb) == Hit(|before| + 1 + Resolve(after, path, verb).index)
  {
    var apis := before + [r] + after;
    var k := Resolve(after, path, verb).index;
    assert apis[|before| + 1 + k] == after[k];
    var res := Resolve(apis, path, verb);
    assert res.Hit?;
    assert forall j :: 0 <= j < |before| ==> apis[j] == before[j];
    assert apis[|before|] == r;
    assert forall j :: |before| < j < |before| + 1 + k ==> apis[j] == after[j - |before| - 1];
  }

  // ---------------------------------------------------------------------
  // The HTTP answer of do_GET / do_POST
  // ---------------------------------------------------------------------

  /** The response written: status, content type and body; NoReply when the handler raised. */
  datatype HttpReply = Sent(status: int, contentType: string, body: string) | NoReply

  /** Every error result is answered with 404, the 405 label included; success with 200. */
  function Transmit(d: Dispatched): HttpReply {
    match d
    case Returned(reply) => Sent(if reply.error then 404 else 200, ContentType, reply.data)
    case Raised => NoReply
  }

  /**
   * A result is written exactly when the dispatch did not raise: an error
   * with status 404, a success with 200, always as text/html carrying the
   * result's data; no other status, 405 in particular, is ever sent.
   */
  lemma TransmitSpec(d: Dispatched)
    ensures Transmit(d).Sent? <==> d.Returned?
    ensures Transmit(d).Sent? ==>
              Transmit(d).status == (if d.reply.error then 404 else 200)
              && Transmit(d).contentType == "text/html" && Transmit(d).body == d.reply.data
    ensures Transmit(d).Sent? ==> Transmit(d).status in {200, 404}
  {
  }

  /** A path no route has is answered 404 with the body "404 Not Found". */
  lemma UnknownPathIs404(url: string, apis: seq<Route>, verb: string, data: RequestData, io: HandlerIo)
    requires forall i :: 0 <= i < |apis| ==> !UrlMatches(apis[i], StripQuery(url))
    ensures Transmit(Dispatch(url, apis, verb, data, io)) == Sent(404, ContentType, NotFound)
  {
    var res := Resolve(apis, StripQuery(url), verb);
    assert forall i :: 0 <= i < |apis| ==> !FullMatch(apis[i], StripQuery(url), verb);
  }

  /** A path that routes have only under other methods is labelled 405, but still answered with status 404. */
  lemma WrongMethodIs404(url: string, apis: seq<Route>, verb: string, data: RequestData, io: HandlerIo, i: nat)
    requires i < |apis| && UrlMatches(apis[i], StripQuery(url))
    requires forall j :: 0 <= j < |apis| ==> !FullMatch(apis[j], StripQuery(url), verb)
    ensures Transmit(Dispatch(url, apis, verb, data, io)) == Sent(404, ContentType, MethodNotAllowed)
  {
  }

  /** A request that reaches a handler which returns is answered 200 with what the handler returned. */
  lemma HandledIs200(url: string, apis: seq<Route>, verb: string, data: RequestData, io: HandlerIo, i: nat, body: string)
    requires i < |apis| && FullMatch(apis[i], StripQuery(url), verb)
    requires forall j :: 0 <= j < i ==> !FullMatch(apis[j], StripQuery(url), verb)
    requires apis[i].func.Function? && Invoke(apis[i].func.name, data, io) == Some(body)
    ensures Transmit(Dispatch(url, apis, verb, data, io)) == Sent(200, ContentType, body)
  {
    FirstFullMatchAnswers(url, apis, verb, data, io, i);
  }

  /**
   * A route whose handler name did not resolve holds a string, so a request
   * reaching it raises instead of being answered "API Handler not found".
   */
  lemma UnresolvedHandlerRaises(url: string, apis: seq<Route>, verb: string, data: RequestData, io: HandlerIo, i: nat, name: string)
    requires i < |apis| && FullMatch(apis[i], StripQuery(url), verb)
    requires forall j :: 0 <= j < i ==> !FullMatch(apis[j], StripQuery(url), verb)
    requires name !in HandlerNames && apis[i].func == HandlerFor(name)
    ensures Transmit(Dispatch(url, apis, verb, data, io)) == NoReply
  {
    FirstFullMatchAnswers(url, apis, verb, data, io, i);
  }

  // ---------------------------------------------------------------------
  // Startup: configuration checks and route registration
  // ---------------------------------------------------------------------

  /** The keys every routing entry must have. */
  const RouteKeys: set<string> := {"API", "url", "method", "auth", "func"}

  /**
   * The route one configuration entry registers; None where the `try` block
   * raises and the entry is logged and skipped.
   */
  function EntryRoute(e: Value): Option<Route> {
    if !e.Dict? then None
    else
      var name := Lookup(e.entries, "API");
      var url := Lookup(e.entries, "url");
      var verb := Lookup(e.entries, "method");
      var auth := Lookup(e.entries, "auth");
      var func := Lookup(e.entries, "func");
      if name.None? || url.None? || verb.None? || auth.None? || func.None? then None
      else if !func.value.Str? then None
      else Some(Route(name.value, url.value, verb.value, auth.value, HandlerFor(func.value.s)))
  }

  /**
   * An entry registers exactly when it is a dict holding every key of a
   * route and its `func` is a string (getattr rejects any other name), and
   * then the route carries the entry's values, its handler looked up by name.
   */
  lemma EntryRouteSpec(e: Value)
    ensures EntryRoute(e).Some? <==>
              (e.Dict? && (forall k :: k in RouteKeys ==> Lookup(e.entries, k).Some?)
               && Lookup(e.entries, "func").value.Str?)
    ensures EntryRoute(e).Some? ==>
              EntryRoute(e).value == Route(Lookup(e.entries, "API").value, Lookup(e.entries, "url").value,
                                           Lookup(e.entries, "method").value, Lookup(e.entries, "auth").value,
                                           HandlerFor(Lookup(e.entries, "func").value.s))
  {
    if e.Dict? && EntryRoute(e).None? && Lookup(e.entries, "func").Some? && Lookup(e.entries, "func").value.Str? {
      assert !forall k :: k in RouteKeys ==> Lookup(e.entries, k).Some? by {
        if Lookup(e.entries, "API").None? { assert "API" in RouteKeys; }
        else if Lookup(e.entries, "url").None? { assert "url" in RouteKeys; }
        else if Lookup(e.entries, "method").None? { assert "method" in RouteKeys; }
        else { assert "auth" in RouteKeys; }
      }
    }
  }

  /** What one turn of the registration loop appends. */
  function Registered(e: Value): seq<Route> {
    match EntryRoute(e)
    case Some(r) => [r]
    case None => []
  }

  /** The routes the registration loop appends for `entries`, in their order. */
  function Registrable(entries: seq<Value>): (routes: seq<Route>)
    ensures |routes| <= |entries|
  {
    if entries == [] then [] else Registered(entries[0]) + Registrable(entries[1..])
  }

  /** Registration of consecutive parts of the configuration concatenates. */
  lemma {:induction false} RegistrableAppend(a: seq<Value>, b: seq<Value>)
    ensures Registrable(a + b) == Registrable(a) + Registrable(b)
  {
    if a == [] {
      assert a + b == b;
    } else {
      assert (a + b)[0] == a[0];
      assert (a + b)[1..] == a[1..] + b;
      RegistrableAppend(a[1..], b);
    }
  }

  /** One more turn of the registration loop appends what that entry registers. */
  lemma RegistrableStep(entries: seq<Value>, i: nat)
    requires i < |entries|
    ensures Registrable(entries[..i + 1]) == Registrable(entries[..i]) + Registered(entries[i])
  {
    assert entries[..i + 1] == entries[..i] + [entries[i]];
    RegistrableAppend(entries[..i], [entries[i]]);
    assert [entries[i]][1..] == [];
    assert Registrable([entries[i]]) == Registered(entries[i]) + Registrable([]);
  }

  /** A malformed entry is skipped without aborting: the entries around it register as if it were absent. */
  lemma SkipsMalformedEntry(before: seq<Value>, bad: Value, after: seq<Value>)
    requires EntryRoute(bad).None?
    ensures Registrable(before + [bad] + after) == Registrable(before) + Registrable(after)
  {
    assert [bad][1..] == [];
    assert Registered(bad) == [];
    assert Registrable([bad]) == Registered(bad) + Registrable([]);
    assert Registrable([bad]) == [];
    RegistrableAppend(before, [bad]);
    assert Registrable(before + [bad]) == Registrable(before);
    RegistrableAppend(before + [bad], after);
  }

  /** When every entry is well formed, entry i becomes route i. */
  lemma {:induction false} RegistrableInOrder(entries: seq<Value>)
    requires forall i :: 0 <= i < |entries| ==> EntryRoute(entries[i]).Some?
    ensures |Registrable(entries)| == |entries|
    ensures forall i :: 0 <= i < |entries| ==> Registrable(entries)[i] == EntryRoute(entries[i]).value
  {
    if entries != [] {
      var rest := entries[1..];
      RegistrableInOrder(rest);
      var first := EntryRoute(entries[0]).value;
      assert Registered(entries[0]) == [first];
      assert Registrable(entries) == [first] + Registrable(rest);
      forall i | 0 <= i < |entries|
        ensures Registrable(entries)[i] == EntryRoute(entries[i]).value
      {
        if i > 0 {
          assert entries[i] == rest[i - 1];
        }
      }
    }
  }

  /** Every registered route comes from an entry of the configuration. */
  lemma {:induction false} RegistrableSound(entries: seq<Value>, r: Route)
    requires r in Registrable(entries)
    ensures exists i :: 0 <= i < |entries| && EntryRoute(entries[i]) == Some(r)
  {
    if EntryRoute(entries[0]) == Some(r) {
      assert EntryRoute(entries[0]) == Some(r);
    } else {
      RegistrableSound(entries[1..], r);
      var i :| 0 <= i < |entries[1..]| && EntryRoute(entries[1..][i]) == Some(r);
      assert entries[i + 1] == entries[1..][i];
    }
  }

  /** How `Server.start` ends before serving, or the address it serves on and the entries it registers. */
  datatype Startup =
    | ConfigNotObject          // `conf.get` raises: the configuration is not an object
    | ServerConfigNotDict      // logged; start returns
    | MissingHostOrPort        // logged; start returns
    | RoutingNotIterable       // the `for` over the routing value raises TypeError
    | Serving(host: Value, port: Value, entries: seq<Value>)

  function RoutingOf(conf: Value): Value
    requires conf.Dict?
  {
    Get(conf.entries, "Routing", List([]))
  }

  function ServerConfigOf(conf: Value): Value
    requires conf.Dict?
  {
    Get(conf.entries, "Server", Dict([]))
  }

  /** What `Server.start` does with the parsed configuration `conf`. */
  function Boot(conf: Value): (out: Startup)
    ensures out.Serving? <==> conf.Dict? && ServerConfigOf(conf).Dict?
                              && Lookup(ServerConfigOf(conf).entries, "host").Some?
                              && Lookup(ServerConfigOf(conf).entries, "port").Some?
                              && Elements(RoutingOf(conf)).Some?
    ensures out.Serving? ==> out.entries == Elements(RoutingOf(conf)).value
                             && Some(out.host) == Lookup(ServerConfigOf(conf).entries, "host")
                             && Some(out.port) == Lookup(ServerConfigOf(conf).entries, "port")
  {
    if !conf.Dict? then ConfigNotObject
    else
      var server := ServerConfigOf(conf);
      if !server.Dict? then ServerConfigNotDict
      else
        var host := Lookup(server.entries, "host");
        var port := Lookup(server.entries, "port");
        if host.None? || port.None? then MissingHostOrPort
        else match Elements(RoutingOf(conf))
          case None => RoutingNotIterable
          case Some(entries) => Serving(host.value, port.value, entries)
  }

  /** Entries of a routing object or string are keys and characters, which all fail to register. */
  lemma {:induction false} NonListRoutingRegistersNothing(conf: Value)
    requires conf.Dict? && !RoutingOf(conf).List? && Boot(conf).Serving?
    ensures Registrable(Boot(conf).entries) == []
  {
    var entries := Boot(conf).entries;
    NothingFromStrings(entries);
  }

  lemma {:induction false} NothingFromStrings(entries: seq<Value>)
    requires forall x :: x in entries ==> x.Str?
    ensures Registrable(entries) == []
  {
    if entries != [] {
      assert entries[0] in entries;
      NothingFromStrings(entries[1..]);
    }
  }

  /**
   * The `for api in cls.api_config` loop of `Server.start`: each entry is
   * registered, or its error logged and the entry skipped.
   */
  method RegisterEntries(api: Api, entries: seq<Value>)
    modifies api
    ensures api.apis == old(api.apis) + Registrable(entries)
  {
    for i := 0 to |entries|
      invariant api.apis == old(api.apis) + Registrable(entries[..i])
    {
      RegistrableStep(entries, i);
      var route := EntryRoute(entries[i]);
      if route.Some? {
        api.RegisterApi(route.value.name, route.value.url, route.value.httpMethod,
                        route.value.auth, route.value.func);
      }
    }
    assert entries[..|entries|] == entries;
  }

  /** The class attributes of `Server` that `start` assigns and the handlers read. */
  class Server {
    var apiConfig: Option<Value>
    var serverConfig: Option<Value>
    var apiHandler: Api?

    /** Before `start`, only `api_handler = None` is defined. */
    constructor ()
      ensures apiConfig == None && serverConfig == None && apiHandler == null
    {
      apiConfig, serverConfig, apiHandler := None, None, null;
    }

    /**
     * `Server.start(api)` up to serving: reads the routing and server
     * configuration, stops on a bad server configuration, registers every
     * well-formed routing entry in order and installs `api` as the handler.
     */
    method Start(api: Api, conf: Value) returns (out: Startup)
      modifies this, api
      ensures out == Boot(conf)
      ensures conf.Dict? ==> apiConfig == Some(RoutingOf(conf)) && serverConfig == Some(ServerConfigOf(conf))
      ensures !conf.Dict? ==> apiConfig == old(apiConfig) && serverConfig == old(serverConfig)
      ensures out.Serving? ==> api.apis == old(api.apis) + Registrable(out.entries) && apiHandler == api
      ensures !out.Serving? ==> api.apis == old(api.apis) && apiHandler == old(apiHandler)
    {
      if !conf.Dict? {
        return ConfigNotObject;
      }
      apiConfig := Some(RoutingOf(conf));
      serverConfig := Some(ServerConfigOf(conf));
      var server := ServerConfigOf(conf);
      if !server.Dict? {
        return ServerConfigNotDict;
      }
      var host := Lookup(server.entries, "host");
      var port := Lookup(server.entries, "port");
      if host.None? || port.None? {
        return MissingHostOrPort;
      }
      var elements := Elements(RoutingOf(conf));
      if elements.None? {
        return RoutingNotIterable;
      }
      var entries := elements.value;
      RegisterEntries(api, entries);
      apiHandler := api;
      out := Serving(host.value, port.value, entries);
    }

    /** `do_GET`: dispatch with no request data, then answer by status. */
    method DoGet(path: string, io: HandlerIo) returns (reply: HttpReply)
      ensures apiHandler == null ==> reply == NoReply
      ensures apiHandler != null ==> reply == Transmit(Dispatch(path, apiHandler.apis, "GET", NoData, io))
    {
      if apiHandler == null {
        // `None.get_apis()` raises
        return NoReply;
      }
      var apis := apiHandler.GetApis();
      var response := HandleRequest(path, apis, "GET", NoData, io);
      reply := Transmit(response);
    }

    /** `do_POST`: dispatch with the connection as request data, then answer by status. */
    method DoPost(path: string, body: string, io: HandlerIo) returns (reply: HttpReply)
      ensures apiHandler == null ==> reply == NoReply
      ensures apiHandler != null ==> reply == Transmit(Dispatch(path, apiHandler.apis, "POST", Connection(body), io))
    {
      if apiHandler == null {
        return NoReply;
      }
      var apis := apiHandler.GetApis();
      var response := HandleRequest(path, apis, "POST", Connection(body), io);
      reply := Transmit(response);
    }
  }

  /** A home page and a submit form, each under one method. */
  function ExampleRoutes(): seq<Route> {
    [Route(Str("Home"), Str("/"), Str("GET"), Bool(false), Function("home")),
     Route(Str("Submit"), Str("/submit"), Str("POST"), Bool(false), Function("send_data"))]
  }

  /** "/" by GET reaches the home handler, with or without a query string. */
  lemma ExampleHome(io: HandlerIo)
    ensures Dispatch("/", ExampleRoutes(), "GET", NoData, io) == Call(Function("home"), NoData, io)
    ensures Dispatch("/?x=1", ExampleRoutes(), "GET", NoData, io) == Call(Function("home"), NoData, io)
  {
    StripQueryDropsQuery("/", "x=1");
    FirstFullMatchAnswers("/", ExampleRoutes(), "GET", NoData, io, 0);
    FirstFullMatchAnswers("/?x=1", ExampleRoutes(), "GET", NoData, io, 0);
  }

  /** "/submit" by GET is labelled 405 and answered with status 404. */
  lemma ExampleWrongMethod(io: HandlerIo)
    ensures Transmit(Dispatch("/submit", ExampleRoutes(), "GET", NoData, io)) == Sent(404, ContentType, MethodNotAllowed)
  {
    StripQueryDropsQuery("/submit", "");
    ExampleSubmitOnlyByPost();
    WrongMethodIs404("/submit", ExampleRoutes(), "GET", NoData, io, 1);
  }

  lemma ExampleSubmitOnlyByPost()
    ensures forall j :: 0 <= j < |ExampleRoutes()| ==> !FullMatch(ExampleRoutes()[j], "/submit", "GET")
  {
    assert "/submit" != "/" by { assert |"/"| == 1; }
    assert "GET" != "POST" by { assert |"GET"| == 3; }
  }

  /** "/missing" is labelled 404 and answered with status 404. */
  lemma ExampleMissing(io: HandlerIo)
    ensures Transmit(Dispatch("/missing", ExampleRoutes(), "GET", NoData, io)) == Sent(404, ContentType, NotFound)
  {
    StripQueryDropsQuery("/missing", "");
    ExampleNoMissingRoute();
    UnknownPathIs404("/missing", ExampleRoutes(), "GET", NoData, io);
  }

  lemma ExampleNoMissingRoute()
    ensures forall j :: 0 <= j < |ExampleRoutes()| ==> !UrlMatches(ExampleRoutes()[j], "/missing")
  {
    assert "/missing" != "/" by { assert |"/"| == 1; }
    assert "/missing" != "/submit" by { assert "/missing"[1] == 'm' && "/submit"[1] == 's'; }
  }
}
