/** utils/exceptions.py: the older error-to-response mapper. A bad request
    becomes a 400 response and every other exception a 500 response; it never
    raises. */
module UtilsExceptions {
  import opened PyValues

  const HTTP_400_BAD_REQUEST := 400
  const HTTP_500_INTERNAL_SERVER_ERROR := 500

  function BadRequest(message: string): Exception {
    Exception(UtilsBadRequest, [JStr(message)])
  }

  /** `get_exception_response(exception)`. */
  function GetExceptionResponse(e: Exception): (r: Response)
    ensures r.data == ErrorData(ExceptionText(e))
    ensures r.status == 400 <==> e.cls == UtilsBadRequest
    ensures r.status == 500 <==> e.cls != UtilsBadRequest
  {
    var data := ErrorData(ExceptionText(e));
    if e.cls == UtilsBadRequest then Response(HTTP_400_BAD_REQUEST, data)
    else Response(HTTP_500_INTERNAL_SERVER_ERROR, data)
  }
}
