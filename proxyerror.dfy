/**
 * The `error` handler both proxies install (typesnipe-ui/ssl-proxy.mjs): answer
 * 502 "Bad gateway" as plain text when no header has gone out yet, always try to
 * finish the response, and swallow whatever the response object raises.
 *
 * The response is Node's `http.ServerResponse`, reduced to what the handler
 * touches.  Whether one of its calls raises for a reason outside this model
 * (a broken socket, or an object that is not an HTTP response at all) is a
 * parameter of the call.
 */
module ProxyError {

  datatype ResponseState = ResponseState(
    headersSent: bool,
    statusCode: int,
    headers: map<string, string>,
    body: string,
    ended: bool)

  const BadGateway: int := 502
  const BadGatewayBody: string := "Bad gateway"

  /**
   * `res.writeHead(code, hdrs)`: fixes the status line and headers, after which
   * `headersSent` holds.  Raises once headers were sent, or when `raises`.
   * Returns whether it raised and the state afterwards.
   */
  function WriteHeadEffect(s: ResponseState, code: int, hdrs: map<string, string>, raises: bool): (bool, ResponseState)
  {
    if s.headersSent || raises then (true, s)
    else (false, s.(headersSent := true, statusCode := code, headers := s.headers + hdrs))
  }

  /** `res.end(data)`: sends `data` and finishes; a finished response ignores it; raises when `raises`. */
  function EndEffect(s: ResponseState, data: string, raises: bool): (bool, ResponseState)
  {
    if s.ended then (false, s)
    else if raises then (true, s)
    else (false, s.(headersSent := true, body := s.body + data, ended := true))
  }

  /** The handler's body under its `try { … } catch {}`: the state at the first raise, or at the end. */
  function AfterProxyError(s: ResponseState, writeHeadRaises: bool, endRaises: bool): ResponseState
  {
    var (raised, s1) :=
      if !s.headersSent then WriteHeadEffect(s, BadGateway, map["Content-Type" := "text/plain"], writeHeadRaises)
      else (false, s);
    if raised then s1 else EndEffect(s1, BadGatewayBody, endRaises).1
  }

  /**
   * The 502 status and the plain-text content type are set exactly when no
   * header was sent and `writeHead` did not raise; headers count as sent
   * afterwards unless that `writeHead` raised.
   */
  lemma StatusOnlyBeforeHeaders(s: ResponseState, writeHeadRaises: bool, endRaises: bool)
    ensures var r := AfterProxyError(s, writeHeadRaises, endRaises);
      && (r.headersSent <==> s.headersSent || !writeHeadRaises)
      && (!s.headersSent && !writeHeadRaises ==>
            r.statusCode == BadGateway && "Content-Type" in r.headers && r.headers["Content-Type"] == "text/plain")
      && (s.headersSent || writeHeadRaises ==> r.statusCode == s.statusCode && r.headers == s.headers)
  {
  }

  /** Unless `writeHead` raised first, `end("Bad gateway")` is attempted, and when it goes through the response is finished with that body. */
  lemma EndAttempted(s: ResponseState, writeHeadRaises: bool, endRaises: bool)
    requires s.headersSent || !writeHeadRaises
    ensures var r := AfterProxyError(s, writeHeadRaises, endRaises);
      && (!s.ended && !endRaises ==> r.ended && r.headersSent && r.body == s.body + BadGatewayBody)
      && (!s.ended && endRaises ==> r.body == s.body && !r.ended)
      && (s.ended ==> r.body == s.body && r.ended)
  {
  }

  /** A raise ends the handler on the spot: nothing after it happens, and nothing escapes it. */
  lemma RaiseStopsHandler(s: ResponseState, endRaises: bool)
    requires !s.headersSent
    ensures AfterProxyError(s, true, endRaises) == s
  {
  }

  /** The handler never sends anything but "Bad gateway", and never un-sends or un-finishes a response. */
  lemma OnlyBadGatewayAppended(s: ResponseState, writeHeadRaises: bool, endRaises: bool)
    ensures var r := AfterProxyError(s, writeHeadRaises, endRaises);
      && (r.body == s.body || r.body == s.body + BadGatewayBody)
      && (s.headersSent ==> r.headersSent)
      && (s.ended ==> r.ended)
  {
  }

  class Response {
    var headersSent: bool
    var statusCode: int
    var headers: map<string, string>
    var body: string
    var ended: bool

    /** A response nothing has been written to: status 200, no headers. */
    constructor ()
      ensures State() == ResponseState(false, 200, map[], "", false)
    {
      headersSent, statusCode, headers, body, ended := false, 200, map[], "", false;
    }

    function State(): ResponseState
      reads this
    {
      ResponseState(headersSent, statusCode, headers, body, ended)
    }

    method WriteHead(code: int, hdrs: map<string, string>, raises: bool) returns (raised: bool)
      modifies this
      ensures (raised, State()) == WriteHeadEffect(old(State()), code, hdrs, raises)
    {
      if headersSent || raises {
        return true;
      }
      headersSent, statusCode, headers := true, code, headers + hdrs;
      raised := false;
    }

    method End(data: string, raises: bool) returns (raised: bool)
      modifies this
      ensures (raised, State()) == EndEffect(old(State()), data, raises)
    {
      if ended {
        return false;
      }
      if raises {
        return true;
      }
      headersSent, body, ended := true, body + data, true;
      raised := false;
    }
  }

  /** The handler installed on both proxies; it has no way to raise. */
  method HandleProxyError(res: Response, writeHeadRaises: bool, endRaises: bool)
    modifies res
    ensures res.State() == AfterProxyError(old(res.State()), writeHeadRaises, endRaises)
  {
    var raised := false;
    if !res.headersSent {
      raised := res.WriteHead(BadGateway, map["Content-Type" := "text/plain"], writeHeadRaises);
    }
    if !raised {
      raised := res.End(BadGatewayBody, endRaises);
    }
    // catch {}: a raised exception is dropped and the response stays as it is
  }
}
