# Python REST API server — a Dafny model

This project models the three core pieces of a small Python REST server:

- **the route registry** (`Api` in api.py);
- **the dispatcher** (server.py), which covers the first-match scan in
  `HandleRequest`, the status that `do_GET`/`do_POST` send, and the
  configuration checks and route registration in `Server.start`;
- **the process supervisor** (`Main` in main.py) with its interactive
  command loop.

Four modules split the work:

- `Values` (values.dfy) holds what Python passes around:
  - the JSON kinds, plus function objects;
  - dict lookup;
  - what a `for` loop visits in each kind of value.
- `Handlers` (handlers.dfy) is the handler table of apihandler.py.
  - `getattr(ApiHandler, name, str(ApiHandler.default))` gives a function
    object for the four handler names, and otherwise a string that cannot be
    called.
  - The handlers `default` and `test` are exact.
  - `home` and `send_data` take their outcome from an I/O oracle.
- `Registry` (registry.dfy) is the class `Api`. Its private list is a
  `seq<Route>` field that `RegisterApi` appends to and `GetApis` returns.
- `WebServer` (webserver.dfy) holds the following:
  - `Resolve` specifies the scan by recursion, and the method `HandleRequest`
    is the source's loop, proved equal to it.
  - `Transmit` maps a result to the HTTP answer.
  - `Boot` and `Registrable` specify `Server.start`.
  - The class `Server` has the class attributes `api_config`,
    `server_config` and `api_handler`. Its methods `Start`, `DoGet` and
    `DoPost` change them or read them.
- `Supervisor` (supervisor.dfy) is the process supervisor.
  - Each command is specified by a function on a `State` record: `StartSpec`,
    `StopSpec` and `RestartSpec`.
  - The class `Main` has the fields `server_process` and `api_config`. Each
    of its methods is proved to move its `Snapshot()` exactly as the
    function says.
  - `CommandLoop` is the `while True` loop over a sequence of input lines. It
    is proved equal to the recursive `Run`.

The outside world enters the model only as parameters:

- the parsed configuration file is a `Value`;
- whether `subprocess.Popen` spawns is a `SpawnResult`;
- a process is `Proc(pid, alive, exitsInGrace)`, where `alive` is what
  `poll()` reports and `exitsInGrace` says whether `wait(timeout=5)` returns
  before the timeout;
- a handler's file or connection I/O is `HandlerIo`;
- the requests made to the operating system are returned as a list of
  `OsCall`s.

The model keeps the source's behaviour even where it is surprising:

- A route is answered by the FIRST registered entry whose path and method
  both match. Later duplicates can never be reached.
- A path that is registered only under other methods produces the label
  "405 Method Not Allowed", but `do_GET`/`do_POST` send every error with
  status 404.
- When `func` names an unknown handler, `getattr` returns a string, so a
  request that reaches that route raises instead of being answered.
- A route registered through `Api.register_api` with the default `func`
  holds the string "default", and calling it raises too.
- A `Routing` value that is a dict or a string is iterated by key or by
  character. Every one of those entries fails to register and is skipped.
- `Main.start` reads `self.api`, which is never assigned.
  - As a result, every start with a non-empty routing configuration reports
    "Failed to start server", although the process was spawned and is
    recorded.
  - The missing `conf["type"]` key is never reached.
- `Main.stop` on a handle whose process has already ended reports "Server is
  not running" and keeps the stale handle.

## Model

| member | source | states |
|---|---|---|
| Values.LookupFinds | server.py:62-66 | `d[key]` finds a value exactly when some entry has the key, and the value found is that entry's |
| Values.Elements | server.py:59 | a `for` loop visits the items of a list, the characters of a string and the keys of a dict, and raises on every other kind; what it visits in a string or a dict is all strings |
| Handlers.HandlerFor | server.py:66 | `getattr` gives a function object exactly for the four handler names, and otherwise the string fallback |
| Handlers.InvokeSpec | apihandler.py:6-32 | what `Invoke` yields per handler: `default` and `test` their constant text, `send_data` a result exactly when it receives a connection and its file write succeeds (then "Data written to file"), `home` the page it reads |
| Handlers.ConstantHandlersIgnoreRequest | apihandler.py:6-9 | `Invoke` of `default` or `test` always returns, and the same text whatever the request and I/O |
| Registry.Api.constructor | api.py:6-11 | a new registry holds no routes |
| Registry.Api.RegisterApi | api.py:13-25 | one record is appended after all earlier ones, `type` is stored as its method, and nothing is validated or rejected |
| Registry.Api.GetApis | api.py:27-34 | returns exactly the registered list, in insertion order |
| Registry.RegisterWithDefaults | api.py:13 | the defaults for the optional arguments are method "GET", auth False and the string "default" |
| Registry.OccurrencesAppend | api.py:24 | appending adds exactly one occurrence of its own (url, method) pair, and duplicates are kept |
| Registry.RegisterTwice | api.py:24 | registering the same pair twice keeps both records, in order, and the pair occurs twice more |
| WebServer.StripQuery | server.py:112 | the path is the prefix of the URL before its first `?`, and it contains no `?` |
| WebServer.StripQueryDropsQuery | server.py:112 | whatever the query string holds, it never takes part in matching |
| WebServer.Resolve | server.py:111-121 | Hit exactly when some route matches both path and method, and then it is the FIRST such route; on a miss the label is 405 exactly when some route has the path, else 404 |
| WebServer.CallSpec | server.py:120 | `Call` returns exactly when the route's handler is a function object whose body returns, with a non-error result carrying that body's text; otherwise it raises |
| WebServer.DispatchSpec | server.py:111-121 | `Dispatch` gives an error result exactly when no route matches both the stripped path and the method, its data then 405 when some route has the path and 404 otherwise |
| WebServer.HandleRequest | server.py:97-121 | the loop with `continue` and its early return gives the same result as the dispatch specification for every input |
| WebServer.FirstFullMatchAnswers | server.py:116-120 | the first route matching path and method calls its handler with the request data |
| WebServer.LaterRoutesUnreachable | server.py:113-120 | routes appended later, duplicates included, never change a request that already resolves |
| WebServer.MethodMismatchContinues | server.py:117-119 | a route with the right path but the wrong method does not stop the scan |
| WebServer.UnknownPathIs404 | server.py:111-136 | a path that no route has is answered with status 404 and the body "404 Not Found" |
| WebServer.WrongMethodIs404 | server.py:116-136 | a path registered only under other methods gets the 405 label but is sent with status 404 |
| WebServer.HandledIs200 | server.py:120-141 | a handler that returns is answered with status 200 and its text |
| WebServer.TransmitSpec | server.py:123-159 | `Transmit` writes a response exactly when dispatch did not raise: status 404 for an error result and 200 otherwise (never 405), as text/html with the result's data |
| WebServer.UnresolvedHandlerRaises | server.py:120 | a route whose handler name did not resolve makes the request raise, so no answer is written |
| WebServer.EntryRouteSpec | server.py:59-70 | an entry registers exactly when it is a dict with all five keys and a string `func`, and then its route carries the entry's values |
| WebServer.Registrable | server.py:59-70 | at most one route per configuration entry |
| WebServer.RegistrableAppend | server.py:59-70 | registering consecutive parts of the configuration concatenates their routes |
| WebServer.RegistrableStep | server.py:59-70 | each turn of the loop appends only what its own entry registers |
| WebServer.SkipsMalformedEntry | server.py:68-70 | a malformed entry is skipped without aborting, and the entries around it register as if it were absent |
| WebServer.RegistrableInOrder | server.py:59-67 | when every entry is well formed, entry i becomes route i |
| WebServer.RegistrableSound | server.py:59-67 | every registered route comes from some entry of the configuration |
| WebServer.Boot | server.py:43-59 | serving starts exactly when the configuration is an object, its server part is a dict with host and port, and its routing value is iterable; those values are then the ones used |
| WebServer.NonListRoutingRegistersNothing | server.py:46-70 | a routing dict or string registers no route at all |
| WebServer.NothingFromStrings | server.py:59-70 | entries that are strings never register |
| WebServer.RegisterEntries | server.py:59-70 | the registration loop appends exactly the routes of the well-formed entries, in their order |
| WebServer.Server.constructor | server.py:29-30 | before `start` there is no API handler |
| WebServer.Server.Start | server.py:32-72 | the startup result is the one `Boot` specifies; the routing and server configuration are stored; the routes are registered and the handler installed only when serving |
| WebServer.Server.DoGet | server.py:123-141 | a GET is dispatched with no data on the registered routes and answered by `Transmit`; without a handler it raises |
| WebServer.Server.DoPost | server.py:143-159 | a POST is dispatched with the connection as data and answered as for GET |
| WebServer.ExampleHome | server.py:111-121 | "/" by GET reaches the home handler, with or without a query string |
| WebServer.ExampleWrongMethod | server.py:111-136 | "/submit", registered for POST only, is answered by GET with status 404 and the 405 label |
| WebServer.ExampleMissing | server.py:111-136 | an unregistered path is answered with status 404 and "404 Not Found" |
| Supervisor.TrimStartSpec | main.py:131 | removes exactly the leading run of whitespace |
| Supervisor.TrimEndSpec | main.py:131 | removes exactly the trailing run of whitespace |
| Supervisor.LowerSpec | main.py:131 | lowers each character and keeps the length |
| Supervisor.TokenIsLetters | main.py:25-29 | each command's value is a non-empty word of lower-case letters |
| Supervisor.RecogniseToken | main.py:132-143 | a text selects a command exactly when it equals that command's value |
| Supervisor.ParseCommandRecognises | main.py:131-145 | a line is read as a command exactly when its stripped, lowered text is that command's value |
| Supervisor.ParseIgnoresSpaceAndCase | main.py:131 | a command is recognised whatever whitespace surrounds it and whatever the case of its letters |
| Supervisor.Initial | main.py:32-43 | a new supervisor has no process; `api_config` exists exactly when the configuration is an object with a "Routing" key, and then it holds that key's value |
| Supervisor.StartSpec | main.py:45-67 | while running, start does nothing; otherwise it asks to spawn the server command, records the process when spawning succeeds, and reports success exactly when spawning succeeds and `api_config` was assigned and iterates nothing |
| Supervisor.StopSpec | main.py:69-91 | while not running, stop does nothing; otherwise it terminates, waits 5 seconds, kills only if the process did not exit, and clears the handle |
| Supervisor.StartTwice | main.py:52-54 | a second start while the first process still runs is a no-op that reports "already running" |
| Supervisor.NothingRunsAfterStop | main.py:79-91 | after stop, no process is recorded as running |
| Supervisor.RestartFromStopped | main.py:93-99 | restarting with nothing running records the new process, which then runs, and asks only for the spawn |
| Supervisor.RestartWhileRunning | main.py:93-99 | restarting while running first terminates the old process and last asks for the new one |
| Supervisor.RestartAlwaysSpawns | main.py:93-99 | `RestartSpec` is the stop followed by the start: never "already running", its requests are the stop's followed by one spawn, and it records the new process exactly when spawning succeeds |
| Supervisor.Main.constructor | main.py:32-43 | the initial state is the one `Initial` specifies |
| Supervisor.Main.Start | main.py:45-67 | the new fields, the outcome and the requests are the ones `StartSpec` specifies |
| Supervisor.Main.Stop | main.py:69-91 | the new fields, the outcome and the requests are the ones `StopSpec` specifies |
| Supervisor.Main.Restart | main.py:93-99 | the new fields, the outcomes and the requests are the ones `RestartSpec` specifies |
| Supervisor.Main.Status | main.py:101-110 | reports running exactly when a process is recorded and alive, and changes nothing |
| Supervisor.ParseAllAppend | main.py:131 | each input line is read on its own: reading two parts of the input is reading one after the other |
| Supervisor.Run | main.py:129-145 | the loop reads lines in order; when it ends by `exit`, that line is an `exit` and no process runs afterwards; otherwise it has read the whole input |
| Supervisor.FirstExit | main.py:141-143 | the first `exit` line from a position on: it is an `exit`, none lies before it, and it is absent exactly when no `exit` lies ahead |
| Supervisor.RunStopsAtFirstExit | main.py:129-145 | the loop ends by `exit` exactly when an `exit` line lies ahead, and then right after the first one, whatever the earlier commands did |
| Supervisor.UnknownLineChangesNothing | main.py:144-145 | an unrecognised line changes nothing |
| Supervisor.StatusLineChangesNothing | main.py:139-140 | `status` changes nothing |
| Supervisor.RunCommandStep | main.py:132-140 | a recognised command other than exit is carried out, and the loop goes on |
| Supervisor.ExecuteSpec | main.py:133-140 | `Execute` never changes `api_config`; `status` changes nothing and asks for nothing, `stop` does not depend on spawning, and `start` and `restart` are `StartSpec` and `RestartSpec` |
| Supervisor.ExitStopsThenEnds | main.py:141-143 | `exit` stops the server and ends the loop at once; later lines are never read |
| Supervisor.Perform | main.py:133-140 | one command is carried out on the supervisor exactly as `Execute` specifies |
| Supervisor.Turn | main.py:131-145 | one turn of the loop steps the session exactly as `Run` specifies |
| Supervisor.CommandLoop | main.py:129-145 | the loop ends in the state, line count, exit flag and request list that `Run` gives for the parsed input |

## Left out

- HTTP transport is not modelled. `HTTPServer`, `serve_forever`, `shutdown`, the request path parser, and writing the headers and body are not modelled. `do_GET`/`do_POST` return the answer instead. A failure to bind the address after the routes are registered is not modelled.
- Reading and parsing the configuration file is not modelled. The parsed JSON value is a parameter. Floats are not modelled. A dict keeps its entries in order, and its keys are meant to be distinct; nothing enforces that, and with a repeated key `Lookup` returns the FIRST value where `json.load` keeps the last.
- Logging and `print` are not modelled. Each message is instead an outcome constructor (`StartOutcome`, `StopOutcome`, `Startup`).
- The real operating system is not modelled. The model has no real processes, no `cmd.exe`, and no timing. A process is the abstract `Proc`, whether spawning succeeds is an input, and the requests are returned as `OsCall`s.
- Handler bodies are not modelled. `home` reads an HTML file. `send_data` parses the posted form and writes `data.txt`. Their I/O is the oracle `HandlerIo`. Only whether they return, and what `home` returns, is modelled.
- `do_PUT` and `do_DELETE` are not modelled: they do nothing.
- The `auth` flag is stored but not modelled further, because nothing in the source reads it.
- Signals are not modelled. The `SIGINT`/`SIGTERM` handler and the `KeyboardInterrupt` clause both stop the server and exit, and that depends on asynchronous interruption.
- CommandLoop: the end of the input ends the model's loop with `exited` false. In the source, `input()` raises `EOFError` there, and nothing catches it.
- Registry.Api.GetApis: returns the list as a value. The source returns the list object itself, so a caller could change the registry through it. No caller does.
- HandlerFor: attributes of `ApiHandler` other than the four handlers are treated as unresolved. These are the inherited dunder attributes such as `__init__`.
- DefaultRepr: the text of `str(ApiHandler.default)` leaves out the memory address it contains. No decision depends on that text.
- LowerSpec / Lower: only `A` to `Z` are lowered, not all of Unicode. That is exact for recognising the five commands. Some non-ASCII letters lower to ASCII, for example KELVIN SIGN to `k`, and no command word contains one of those.
- Process liveness is a fixed flag of each handle, set when it is spawned; nothing in `Run` or `CommandLoop` lets a recorded server exit on its own between two lines. So the model does not capture a server that was running and then exits: the next `status` then reports "not running", the next `start` spawns again, and the stale handle that `stop` keeps arises this way; in the model a stale handle comes only from a process that was already dead when spawned.
