/** The HTTP status codes the filter produces, with their numbers and reason
    phrases as registered in section 15 of RFC 9110 (HTTP Semantics). */
module StatusCodes {

  import opened Wrappers

  /** 400 Bad Request, section 15.5.1 of RFC 9110. */
  const Status400BadRequest: int := 400
  /** 403 Forbidden, section 15.5.4 of RFC 9110. */
  const Status403Forbidden: int := 403
  /** 404 Not Found, section 15.5.5 of RFC 9110. */
  const Status404NotFound: int := 404
  /** 408 Request Timeout, section 15.5.9 of RFC 9110 (not produced by the
      filter; its reason phrase is the title the filter gives to timeouts). */
  const Status408RequestTimeout: int := 408
  /** 500 Internal Server Error, section 15.6.1 of RFC 9110. */
  const Status500InternalServerError: int := 500
  /** 504 Gateway Timeout, section 15.6.5 of RFC 9110. */
  const Status504GatewayTimeout: int := 504

  /** The reason phrase RFC 9110 registers for a status code, for the codes this
      model mentions; `None` for every other code. */
  function ReasonPhrase(code: int): Option<string>
  {
    if code == Status400BadRequest then Some("Bad Request")
    else if code == Status403Forbidden then Some("Forbidden")
    else if code == Status404NotFound then Some("Not Found")
    else if code == Status408RequestTimeout then Some("Request Timeout")
    else if code == Status500InternalServerError then Some("Internal Server Error")
    else if code == Status504GatewayTimeout then Some("Gateway Timeout")
    else None
  }

  /** Status classes of section 15 of RFC 9110. */
  predicate IsClientError(code: int) { 400 <= code < 500 }
  predicate IsServerError(code: int) { 500 <= code < 600 }
}
