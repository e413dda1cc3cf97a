/** End-to-end behaviour of the endpoint over the module engine: routing
    failures, and the request flows the repository's tests exercise. */
module Scenarios {
  import opened Base
  import opened Outcomes
  import opened Messages
  import opened Middlewares
  import opened Ordering
  import opened Chains
  import opened Modules
  import opened Apps
  import opened Handling

  /** An envelope naming a module that is not registered is answered with
      status 500 and the `get_module` message, with or without `args`. */
  lemma ServeUnknownModule(app: App, fields: map<string, Json>, name: string)
    requires "module" in fields && "function" in fields
    requires fields["module"] == JStr(name) && name !in app.modules
    ensures Serve(app, true, JObj(fields))
         == Reply(500, ErrorResponse(ApiError(500, name + " not in modules")))
  {
  }

  /** An envelope naming a registered module but a function it does not
      have is answered with status 500, "function not found". */
  lemma ServeUnknownFunction(app: App, fields: map<string, Json>, name: string, fname: string)
    requires "module" in fields && "function" in fields
    requires fields["module"] == JStr(name) && name in app.modules
    requires fields["function"] == JStr(fname) && fname !in app.modules[name].functions
    ensures Serve(app, true, JObj(fields))
         == Reply(500, ErrorResponse(ApiError(500, "function not found")))
  {
    assert Submit(app, fields) == Dispatch(app.modules[name], FromDict(fields).value);
  }

  /** The application of the routing test: one module, `test_request`,
      with no functions. */
  function RoutingApp(): App {
    RegisterModule(EmptyApp, NewModule("test_request"))
  }

  /** The routing test's first envelope, which carries no `args`, names a
      module that is not registered. */
  lemma RoutingUnknownModule()
    ensures Serve(RoutingApp(), true, JObj(map["module" := JStr("test_request_1"), "function" := JStr("demo")]))
         == Reply(500, ErrorResponse(ApiError(500, "test_request_1 not in modules")))
  {
    assert RoutingApp().modules.Keys == {"test_request"};
    assert "test_request_1" != "test_request" by { assert |"test_request_1"| != |"test_request"|; }
    ServeUnknownModule(RoutingApp(), map["module" := JStr("test_request_1"), "function" := JStr("demo")], "test_request_1");
  }

  /** The routing test's second envelope, which carries no `args`, names a
      function the registered module does not have. */
  lemma RoutingUnknownFunction()
    ensures Serve(RoutingApp(), true, JObj(map["module" := JStr("test_request"), "function" := JStr("demo1")]))
         == Reply(500, ErrorResponse(ApiError(500, "function not found")))
  {
    assert RoutingApp().modules["test_request"].functions == map[];
    ServeUnknownFunction(RoutingApp(), map["module" := JStr("test_request"), "function" := JStr("demo1")],
                         "test_request", "demo1");
  }

  /** `hello(word="")`: answers `{"hello": word}`. Python would raise
      `TypeError` for a keyword other than `word`; no envelope used here
      passes one, so that case is not distinguished. */
  function Hello(kwargs: map<string, Json>): Outcome<Option<Response>> {
    Ok(Some(NewResponse(Some(JObj(map["hello" := if "word" in kwargs then kwargs["word"] else JStr("")])), None)))
  }

  /** The application of the example: module `api` with function `hello`.
      The example also registers two untagged request middleware and an
      untagged response middleware that all return `None`, and a request
      middleware tagged `update`, which `hello` does not declare; none of
      them changes the outcome of a `hello` request, so they are omitted.
      The example registers `api` (example/app.py:16) before declaring
      `hello`; the registry here holds module values, so the module is
      registered once it is complete. */
  function HelloApp(): App {
    RegisterModule(EmptyApp, RegisterFunction(NewModule("api"), "hello", Hello, None))
  }

  /** `{"module":"api","function":"hello","args":{"word":"world"}}` is
      answered with status 200, `{"hello":"world"}` and error code 0. */
  lemma HelloWorld()
    ensures Serve(HelloApp(), true,
                  JObj(map["module" := JStr("api"), "function" := JStr("hello"),
                           "args" := JObj(map["word" := JStr("world")])]))
         == Reply(200, Response(JObj(map["hello" := JStr("world")]), NoError))
  {
    var fields := map["module" := JStr("api"), "function" := JStr("hello"),
                      "args" := JObj(map["word" := JStr("world")])];
    var m := HelloApp().modules["api"];
    var req := Request(JStr("api"), JStr("hello"), JObj(map["word" := JStr("world")]), None);
    assert Candidates(m, None) == Ok([]);
    assert ChainFor(m, m.functions["hello"]) == Ok([]);
    assert Dispatch(m, req) == Ok(req.(response := Hello(map["word" := JStr("world")]).value));
    assert Open(HelloApp(), fields) == Dispatch(m, req);
  }

  /** A handler that raises `APIError(code=1, message="Error!")`. */
  function Failing(kwargs: map<string, Json>): Outcome<Option<Response>> {
    Err(Raised(ApiError(1, "Error!")))
  }

  /** A raised application error is answered with status 200 and carries
      the error's code and message; the envelope carries no `args`. */
  lemma HandlerErrorIsDomainData()
    ensures Serve(RegisterModule(EmptyApp, RegisterFunction(NewModule("test_error"), "demo", Failing, None)),
                  true,
                  JObj(map["module" := JStr("test_error"), "function" := JStr("demo")]))
         == Reply(200, Response(EmptyObject, ApiError(1, "Error!")))
  {
    var m := RegisterFunction(NewModule("test_error"), "demo", Failing, None);
    var req := Request(JStr("test_error"), JStr("demo"), EmptyObject, None);
    assert FromDict(map["module" := JStr("test_error"), "function" := JStr("demo")]) == Ok(req);
    assert ChainFor(m, m.functions["demo"]) == Ok([]);
    assert Dispatch(m, req) == Err(Raised(ApiError(1, "Error!")));
  }

  /** Registering middleware, then a function, then the same middleware
      again: the last registration fails, and so does every later one. */
  lemma MiddlewareAfterFunctionFails(mw: Middleware, handler: Handler, later: seq<Registration>)
    ensures var m := NewModule("duplicate_middleware");
            var withMw := RegisterMiddleware(m, mw).value;
            var locked := RegisterFunction(withMw, "demo", handler, None);
            && RegisterMiddleware(locked, mw) == Err(Fault(MiddlewareLocked))
            && forall i :: 0 <= i < |later| && later[i].AddMiddleware? ==>
                 Register(Replay(locked, later[..i]), later[i]) == Err(Fault(MiddlewareLocked))
  {
    var m := NewModule("duplicate_middleware");
    var locked := RegisterFunction(RegisterMiddleware(m, mw).value, "demo", handler, None);
    LockIsPermanent(locked, later);
  }

  /** `lambda req: req`, weight 1, tagged `test`. */
  function EchoRequest(): Middleware {
    Middleware(OnRequest(req => Ok(Some(req))), Some("test"), 1)
  }

  /** `lambda resp: resp` as an untagged response middleware. */
  function EchoResponse(): Middleware {
    Middleware(OnResponse(resp => Ok(resp)), None, 0)
  }

  /** `demo()`: answers `{"result": "ok"}`. Python would raise `TypeError`
      for any keyword argument; the flow's envelope passes none, so that
      case is not distinguished. */
  function Demo(kwargs: map<string, Json>): Outcome<Option<Response>> {
    Ok(Some(NewResponse(Some(JObj(map["result" := JStr("ok")])), None)))
  }

  /** The module `test`: both middleware, then `demo` tagged `test`. */
  function FlowModule(): Module {
    var m := NewModule("test");
    var m1 := RegisterMiddleware(m, EchoRequest()).value;
    var m2 := RegisterMiddleware(m1, EchoResponse()).value;
    RegisterFunction(m2, "demo", Demo, Some(["test"]))
  }

  /** What the registrations of the flow build. */
  lemma FlowModuleShape()
    ensures FlowModule().middleware == map[Untagged := [EchoResponse()], "test" := [EchoRequest()]]
    ensures FlowModule().functions == map["demo" := ModuleFunction(Demo, Some(["test"]))]
  {
    var m0 := NewModule("test");
    assert "test" != Untagged by { assert |"test"| != |Untagged|; }
    assert RegisterMiddleware(m0, EchoRequest()).Ok?;
    var m1 := RegisterMiddleware(m0, EchoRequest()).value;
    assert Bucket(m1, "test") == [EchoRequest()];
    assert Bucket(m1, Untagged) == [];
    assert m1.middleware.Keys == {Untagged, "test"};
    assert !m1.locked;
    var m2 := RegisterMiddleware(m1, EchoResponse()).value;
    assert Bucket(m2, "test") == [EchoRequest()];
    assert Bucket(m2, Untagged) == [EchoResponse()];
    assert m2.middleware.Keys == {Untagged, "test"};
  }

  /** The tagged request middleware sorts ahead of the lighter untagged
      response middleware that precedes it among the candidates. */
  lemma FlowChain()
    ensures Candidates(FlowModule(), Some(["test"])) == Ok([EchoResponse(), EchoRequest()])
    ensures ChainFor(FlowModule(), FlowModule().functions["demo"]) == Ok([EchoRequest(), EchoResponse()])
  {
    FlowModuleShape();
    var m := FlowModule();
    var tags: seq<string> := ["test"];
    assert tags[1..] == [];
    assert TagBuckets(m, tags[1..]) == Ok([]);
    assert m.middleware["test"] + [] == [EchoRequest()];
    assert TagBuckets(m, tags) == Ok([EchoRequest()]);
    var candidates := [EchoResponse(), EchoRequest()];
    assert [EchoResponse()] + [EchoRequest()] == candidates;
    assert Candidates(m, Some(tags)) == Ok(candidates);
    assert candidates[1..] == [EchoRequest()];
    assert SortByWeight(candidates) == [EchoRequest(), EchoResponse()];
  }

  /** Dispatching `demo` leaves the request as it came and attaches the
      handler's response. */
  lemma FlowDispatch()
    ensures var req := Request(JStr("test"), JStr("demo"), EmptyObject, None);
            Dispatch(FlowModule(), req) == Ok(req.(response := Demo(map[]).value))
  {
    FlowModuleShape();
    FlowChain();
    PassThroughDispatch(FlowModule());
  }

  lemma PassThroughDispatch(m: Module)
    requires m.functions == map["demo" := ModuleFunction(Demo, Some(["test"]))]
    requires Candidates(m, Some(["test"])) == Ok([EchoResponse(), EchoRequest()])
    ensures var req := Request(JStr("test"), JStr("demo"), EmptyObject, None);
            Dispatch(m, req) == Ok(req.(response := Demo(map[]).value))
  {
    var f := m.functions["demo"];
    var req := Request(JStr("test"), JStr("demo"), EmptyObject, None);
    var candidates := [EchoResponse(), EchoRequest()];
    assert LookupFunction(m, req.functionName) == Ok(f);
    assert PassesThrough(EchoRequest().step.before(req), req);
    assert KeepsResponse(EchoResponse().step.after(Demo(map[]).value), Demo(map[]).value);
    assert forall x :: x in candidates ==> x == EchoResponse() || x == EchoRequest();
    DispatchPassThrough(m, req, f, candidates);
  }

  /** The request flow: both middleware hand back what they get, and the
      handler's response is answered with status 200. The envelope carries
      no `args`, so the handler is called with none. */
  lemma RequestProcessingFlow()
    ensures Serve(RegisterModule(EmptyApp, FlowModule()), true,
                  JObj(map["module" := JStr("test"), "function" := JStr("demo")]))
         == Reply(200, Response(JObj(map["result" := JStr("ok")]), NoError))
  {
    FlowDispatch();
    var app := RegisterModule(EmptyApp, FlowModule());
    var fields := map["module" := JStr("test"), "function" := JStr("demo")];
    var req := Request(JStr("test"), JStr("demo"), EmptyObject, None);
    assert FromDict(fields) == Ok(req);
    assert GetModule(app, JStr("test")) == Ok(FlowModule());
    assert Submit(app, fields) == Dispatch(FlowModule(), req);
    assert Respond(app, fields) == Ok(Demo(map[]).value);
  }

  /** The legacy endpoint refuses the same envelope: its `Request(req)`
      needs `args`, and the exception escapes `query`. */
  lemma LegacyRefusesFlowEnvelope()
    ensures Query(RegisterModule(EmptyApp, FlowModule()),
                  JObj(map["module" := JStr("test"), "function" := JStr("demo")]))
         == Err(Fault(WrongRequestArguments))
  {
  }
}
