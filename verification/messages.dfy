/** The request and response records the engine threads through a chain. */
module Messages {
  import opened Base
  import opened Outcomes

  /** `Response(data, error)`: the payload (an object or array) and the error
      part, which is `NoError` on success. */
  datatype Response = Response(data: Json, error: ApiError)

  /** `Response()` with no arguments. */
  const DefaultResponse: Response := Response(EmptyObject, NoError)

  /** The `Response` constructor: an absent argument takes its default.
      A `data` argument that is JSON `null` is Python's `None`, so it is
      replaced by `{}` just as an omitted one is. */
  function NewResponse(data: Option<Json>, error: Option<ApiError>): (r: Response)
    ensures data.None? || data == Some(JNull) ==> r.data == EmptyObject
    ensures data.Some? && !data.value.JNull? ==> r.data == data.value
    ensures r.data != JNull
    ensures error.None? ==> r.error.code == 0 && r.error.message == ""
    ensures error.Some? ==> r.error == error.value
  {
    Response(if data.Some? && !data.value.JNull? then data.value else EmptyObject,
             if error.Some? then error.value else NoError)
  }

  /** Passing `data=None` is the same as omitting it, and a response whose
      data is not `null` is rebuilt exactly from its own two fields. */
  lemma NewResponseRoundTrip(r: Response, error: Option<ApiError>)
    ensures NewResponse(Some(JNull), error) == NewResponse(None, error)
    ensures !r.data.JNull? ==> NewResponse(Some(r.data), Some(r.error)) == r
  {
  }

  /** An error response as the application builds it: `Response(error=e)`. */
  function ErrorResponse(e: ApiError): (r: Response)
    ensures r.error == e && r.data == EmptyObject
  {
    NewResponse(None, Some(e))
  }

  /** A request: the raw `module`, `function` and `args` values of the body,
      and the response attached once the handler has run. The module is kept
      by its raw name; the engine resolves it before dispatching. */
  datatype Request = Request(moduleName: Json, functionName: Json, args: Json,
                             response: Option<Response>)
}
