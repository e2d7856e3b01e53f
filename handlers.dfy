/**
 * The handler table of apihandler.py. A route's handler is looked up by name
 * with `getattr(ApiHandler, name, str(ApiHandler.default))`; the two constant
 * handlers are modelled exactly, the two that do I/O through an oracle.
 */
module Handlers {
  import opened Values

  /** The second argument a handler receives: nothing for GET, the connection for POST. */
  datatype RequestData = NoData | Connection(body: string)

  /**
   * What the I/O of a handler yields: for `home` the text of the page
   * (None when reading it fails), for `send_data` Some when parsing the body
   * and writing the data file succeed.
   */
  type HandlerIo = (string, RequestData) -> Option<string>

  /** The handler methods the class defines. */
  const HandlerNames: set<string> := {"default", "test", "send_data", "home"}

  /**
   * The text of `str(ApiHandler.default)`; the real text also holds an
   * address, which plays no part in any decision.
   */
  const DefaultRepr: string := "<function ApiHandler.default>"

  /**
   * `getattr(ApiHandler, name, str(ApiHandler.default))`: the handler of that
   * name, or else a STRING, which is not callable.
   */
  function HandlerFor(name: string): (v: Value)
    ensures v.Function? <==> name in HandlerNames
    ensures v.Function? ==> v.name == name
    ensures !v.Function? ==> v == Str(DefaultRepr)
  {
    if name in HandlerNames then Function(name) else Str(DefaultRepr)
  }

  /** Runs the handler `name` on `data`: Some(body) when it returns, None when it raises. */
  function Invoke(name: string, data: RequestData, io: HandlerIo): Option<string> {
    if name == "default" then Some("API Handler not found")
    else if name == "test" then Some("API Handler test")
    else if name == "send_data" then
      // on GET the connection is None, and reading its body raises
      if data.NoData? then None
      else if io(name, data).Some? then Some("Data written to file")
      else None
    else if name == "home" then io(name, data)
    else None
  }

  /**
   * What each handler yields: `default` and `test` return their constant
   * text whatever the request, `send_data` returns only when it receives a
   * connection and its I/O succeeds, and `home` returns the page it reads.
   */
  lemma InvokeSpec(name: string, data: RequestData, io: HandlerIo)
    requires name in HandlerNames
    ensures name == "default" ==> Invoke(name, data, io) == Some("API Handler not found")
    ensures name == "test" ==> Invoke(name, data, io) == Some("API Handler test")
    ensures name == "send_data" ==>
              (Invoke(name, data, io).Some? <==> data.Connection? && io(name, data).Some?)
              && (Invoke(name, data, io).Some? ==> Invoke(name, data, io) == Some("Data written to file"))
    ensures name == "home" ==> Invoke(name, data, io) == io(name, data)
  {
  }

  /** The two constant handlers neither read the request nor do any I/O. */
  lemma ConstantHandlersIgnoreRequest(name: string, d1: RequestData, io1: HandlerIo, d2: RequestData, io2: HandlerIo)
    requires name == "default" || name == "test"
    ensures Invoke(name, d1, io1).Some? && Invoke(name, d1, io1) == Invoke(name, d2, io2)
  {
  }
}
