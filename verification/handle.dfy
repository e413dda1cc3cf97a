/** The newer endpoint `handle_request`: it checks the content type, then
    the shape of the body, then dispatches, and turns every outcome into
    exactly one reply with a status code. */
module Handling {
  import opened Base
  import opened Outcomes
  import opened Messages
  import opened Chains
  import opened Apps

  /** The status code and the envelope (`formatted` response) sent back. */
  datatype Reply = Reply(status: int, body: Response)

  /** What happens between parsing the body and reading `request.response`:
      building the request, resolving its module and running the module. */
  type Dispatcher = map<string, Json> -> Outcome<Option<Response>>

  const NotJsonMessage: string := "Request content-type must be application/json"
  const InvalidBodyMessage: string := "Invalid JSON body"

  /** `handle_request`. `isJson` says whether the content type is JSON;
      `body` is what the lenient parse returned (`JNull` when the body is
      absent, malformed or `null`). */
  function HandleRequest(isJson: bool, body: Json, dispatch: Dispatcher): (r: Reply)
    ensures r.status == 200 || r.status == 400 || r.status == 500
    ensures r.status == 400 <==> !isJson || !body.JObj?
    ensures !isJson ==> r == Reply(400, ErrorResponse(ApiError(400, NotJsonMessage)))
    ensures isJson && !body.JObj? ==> r == Reply(400, ErrorResponse(ApiError(400, InvalidBodyMessage)))
    ensures r.status == 500 <==> isJson && body.JObj? && dispatch(body.fields).Err?
                                 && dispatch(body.fields).failure.Fault?
    ensures r.status != 200 ==> r.body.error.code == r.status && r.body.data == EmptyObject
    ensures r.status == 500 ==> r.body.error.message == Describe(dispatch(body.fields).failure.cause)
    ensures isJson && body.JObj? && dispatch(body.fields).Err? && dispatch(body.fields).failure.Raised? ==>
              r == Reply(200, ErrorResponse(dispatch(body.fields).failure.error))
    ensures isJson && body.JObj? && dispatch(body.fields).Ok? ==>
              r.status == 200 && r.body == Keep(dispatch(body.fields).value, DefaultResponse)
  {
    if !isJson then Reply(400, ErrorResponse(ApiError(400, NotJsonMessage)))
    else if !body.JObj? then Reply(400, ErrorResponse(ApiError(400, InvalidBodyMessage)))
    else
      match dispatch(body.fields)
      case Ok(resp) => Reply(200, if resp.Some? then resp.value else DefaultResponse)
      case Err(Raised(e)) => Reply(200, ErrorResponse(e))
      case Err(Fault(c)) => Reply(500, ErrorResponse(ApiError(500, Describe(c))))
  }

  /** A request rejected for its content type or body shape never reaches
      dispatch: the reply is the same whatever the dispatcher would do. */
  lemma RejectedBeforeDispatch(isJson: bool, body: Json, d1: Dispatcher, d2: Dispatcher)
    requires !isJson || !body.JObj?
    ensures HandleRequest(isJson, body, d1) == HandleRequest(isJson, body, d2)
  {
  }

  /** The module engine as `handle_request` calls it: build the request with
      `from_dict`, resolve and run its module, and read the response the
      request ends with. */
  function Respond(app: App, fields: map<string, Json>): Outcome<Option<Response>> {
    var req :- Submit(app, fields);
    Ok(req.response)
  }

  /** The endpoint serving an application's modules. */
  function Serve(app: App, isJson: bool, body: Json): Reply {
    HandleRequest(isJson, body, fields => Respond(app, fields))
  }

  /** How the endpoint answers a JSON object body: status 500 exactly when
      the engine raised something other than an application error, with that
      exception's text; 200 with the error when it raised an application
      error; 200 with the request's final response (or the default one)
      when it returned. */
  lemma ServeOutcome(app: App, fields: map<string, Json>)
    ensures Serve(app, true, JObj(fields)).status == 500
            <==> Submit(app, fields).Err? && Submit(app, fields).failure.Fault?
    ensures Submit(app, fields).Err? && Submit(app, fields).failure.Fault? ==>
              Serve(app, true, JObj(fields))
              == Reply(500, ErrorResponse(ApiError(500, Describe(Submit(app, fields).failure.cause))))
    ensures Submit(app, fields).Err? && Submit(app, fields).failure.Raised? ==>
              Serve(app, true, JObj(fields)) == Reply(200, ErrorResponse(Submit(app, fields).failure.error))
    ensures Submit(app, fields).Ok? ==>
              Serve(app, true, JObj(fields)) == Reply(200, Keep(Submit(app, fields).value.response, DefaultResponse))
  {
  }
}
