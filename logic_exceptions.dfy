/** logic/exceptions.py: the newer error-to-response mapper. A bad request
    becomes a 400 response, an authorization failure a 401 response; any
    other exception is raised again and no response is produced. */
module LogicExceptions {
  import opened PyValues

  const HTTP_400_BAD_REQUEST := 400
  const HTTP_401_UNAUTHORIZED := 401

  function BadRequest(message: string): Exception {
    Exception(LogicBadRequest, [JStr(message)])
  }

  function Unauthorized(message: string): Exception {
    Exception(LogicUnauthorized, [JStr(message)])
  }

  /** `get_exception_response(exception)`. */
  function GetExceptionResponse(e: Exception): (r: Outcome<Response>)
    ensures r.Returned? <==> e.cls == LogicBadRequest || e.cls == LogicUnauthorized
    ensures r.Returned? ==> r.value.data == ErrorData(ExceptionText(e))
    ensures r.Returned? ==> (r.value.status == 400 <==> e.cls == LogicBadRequest)
    ensures r.Returned? ==> (r.value.status == 401 <==> e.cls == LogicUnauthorized)
    ensures r.Raised? ==> r.exc == e
  {
    var data := ErrorData(ExceptionText(e));
    if e.cls == LogicBadRequest then Returned(Response(HTTP_400_BAD_REQUEST, data))
    else if e.cls == LogicUnauthorized then Returned(Response(HTTP_401_UNAUTHORIZED, data))
    else Raised(e)
  }

  /** A one-message exception of either mapped class yields its message as the
      error text. */
  lemma MessageIsErrorText(message: string)
    ensures GetExceptionResponse(BadRequest(message)) == Returned(Response(400, ErrorData(message)))
    ensures GetExceptionResponse(Unauthorized(message)) == Returned(Response(401, ErrorData(message)))
  {
  }
}
