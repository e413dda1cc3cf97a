/** The application: the registry of modules by name, the construction of
    a request from a JSON body (which dispatches it at once), and the legacy
    endpoint's mapping of exceptions to responses. */
module Apps {
  import opened Base
  import opened Outcomes
  import opened Messages
  import opened Modules

  /** The registry of modules, keyed by module name. */
  datatype App = App(modules: map<string, Module>)

  /** An application with no modules yet. */
  const EmptyApp: App := App(map[])

  /** `register_module`: stores the module under its name, replacing any
      module already registered under that name. */
  function RegisterModule(app: App, m: Module): (r: App)
    ensures r.modules.Keys == app.modules.Keys + {m.name}
    ensures r.modules[m.name] == m
    ensures forall n :: n in app.modules && n != m.name ==> r.modules[n] == app.modules[n]
  {
    App(app.modules[m.name := m])
  }

  /** `get_module`: the module registered under `name`, or an exception whose
      text is `"{name} not in modules"`. A list or dict name raises
      `TypeError` instead, as a dict lookup does. */
  function GetModule(app: App, name: Json): (r: Outcome<Module>)
    ensures r.Ok? <==> name.JStr? && name.s in app.modules
    ensures r.Ok? ==> r.value == app.modules[name.s]
    ensures Hashable(name) && r.Err? ==> r == Err(Fault(ModuleNotFound(PyStr(name))))
    ensures !Hashable(name) ==> r == Err(Fault(Unhashable(PyTypeName(name))))
  {
    if !Hashable(name) then Err(Fault(Unhashable(PyTypeName(name))))
    else if name.JStr? && name.s in app.modules then Ok(app.modules[name.s])
    else Err(Fault(ModuleNotFound(PyStr(name))))
  }

  /** A registered module is found under its name, the other names resolve
      as before, and registering a second module of the same name replaces
      the first. */
  lemma RegisterThenGet(app: App, m: Module, name: Json)
    ensures GetModule(RegisterModule(app, m), JStr(m.name)) == Ok(m)
    ensures name != JStr(m.name) ==> GetModule(RegisterModule(app, m), name) == GetModule(app, name)
    ensures forall m': Module :: m'.name == m.name ==> RegisterModule(RegisterModule(app, m'), m) == RegisterModule(app, m)
  {
    forall m': Module | m'.name == m.name
      ensures RegisterModule(RegisterModule(app, m'), m) == RegisterModule(app, m)
    {
      assert app.modules[m.name := m'][m.name := m] == app.modules[m.name := m];
    }
  }

  /** `Request(req)`: requires `module`, `function` and `args`, resolves the
      module, and dispatches the request to it at once. */
  function Open(app: App, body: map<string, Json>): (r: Outcome<Request>)
    ensures !("module" in body && "function" in body && "args" in body) ==> r == Err(Fault(WrongRequestArguments))
    ensures "module" in body && "function" in body && "args" in body && GetModule(app, body["module"]).Err? ==>
              r == GetModule(app, body["module"]).PropagateFailure()
    ensures "module" in body && "function" in body && "args" in body && GetModule(app, body["module"]).Ok? ==>
              r == Dispatch(GetModule(app, body["module"]).value,
                            Request(body["module"], body["function"], body["args"], None))
    ensures r.Ok? ==> "module" in body && body["module"].JStr? && body["module"].s in app.modules
  {
    if !("module" in body && "function" in body && "args" in body) then Err(Fault(WrongRequestArguments))
    else
      var m :- GetModule(app, body["module"]);
      Dispatch(m, Request(body["module"], body["function"], body["args"], None))
  }

  /** `APIRequest.from_dict`, the newer endpoint's construction of a request:
      `module` and `function` are required, `args` defaults to `{}`, and
      nothing is dispatched yet. */
  function FromDict(body: map<string, Json>): (r: Outcome<Request>)
    ensures r.Ok? <==> "module" in body && "function" in body
    ensures "module" !in body ==> r == Err(Fault(MissingField("module")))
    ensures "module" in body && "function" !in body ==> r == Err(Fault(MissingField("function")))
    ensures r.Ok? ==> r.value.moduleName == body["module"] && r.value.functionName == body["function"]
                      && r.value.response.None?
    ensures r.Ok? && "args" in body ==> r.value.args == body["args"]
    ensures r.Ok? && "args" !in body ==> r.value.args == EmptyObject
  {
    if "module" !in body then Err(Fault(MissingField("module")))
    else if "function" !in body then Err(Fault(MissingField("function")))
    else Ok(Request(body["module"], body["function"], if "args" in body then body["args"] else EmptyObject, None))
  }

  /** The newer endpoint's use of the engine: build the request, resolve
      its module, and run the module on it. */
  function Submit(app: App, body: map<string, Json>): (r: Outcome<Request>)
    ensures FromDict(body).Err? ==> r == FromDict(body).PropagateFailure()
    ensures FromDict(body).Ok? && GetModule(app, FromDict(body).value.moduleName).Err? ==>
              r == GetModule(app, FromDict(body).value.moduleName).PropagateFailure()
    ensures FromDict(body).Ok? && GetModule(app, FromDict(body).value.moduleName).Ok? ==>
              r == Dispatch(GetModule(app, FromDict(body).value.moduleName).value, FromDict(body).value)
  {
    var req :- FromDict(body);
    var m :- GetModule(app, req.moduleName);
    Dispatch(m, req)
  }

  /** The two constructions agree on an envelope that names all three keys;
      on one without `args`, the newer one behaves as the legacy one would
      with `args = {}`, where the legacy one refuses. */
  lemma SubmitAgreesWithOpen(app: App, body: map<string, Json>)
    requires "module" in body && "function" in body
    ensures "args" in body ==> Submit(app, body) == Open(app, body)
    ensures "args" !in body ==> Submit(app, body) == Open(app, body["args" := EmptyObject])
                                && Open(app, body) == Err(Fault(WrongRequestArguments))
  {
    var full := body["args" := EmptyObject];
    if "args" !in body {
      assert full["module"] == body["module"] && full["function"] == body["function"];
    }
  }

  /** A request for a module just registered is dispatched to that module,
      by either construction. */
  lemma RegisterThenDispatch(app: App, m: Module, body: map<string, Json>)
    requires "module" in body && "function" in body && body["module"] == JStr(m.name)
    ensures Submit(RegisterModule(app, m), body) == Dispatch(m, FromDict(body).value)
    ensures "args" in body ==>
              Open(RegisterModule(app, m), body)
              == Dispatch(m, Request(body["module"], body["function"], body["args"], None))
  {
    RegisterThenGet(app, m, body["module"]);
  }

  /** The legacy endpoint `App.query`: `Ok` is the response it sends, `Err`
      an exception it lets escape to the web framework. An application error
      is always turned into a response carrying it; any other exception,
      including a body that is not an object and a handler that left the
      response `None`, escapes. */
  function Query(app: App, body: Json): (r: Outcome<Response>)
    ensures r.Err? ==> r.failure.Fault?
    ensures !body.JObj? ==> r == Err(Fault(BodyNotObject(PyTypeName(body))))
    ensures body.JObj? && Open(app, body.fields).Err? && Open(app, body.fields).failure.Raised? ==>
              r == Ok(ErrorResponse(Open(app, body.fields).failure.error))
    ensures body.JObj? && Open(app, body.fields).Err? && Open(app, body.fields).failure.Fault? ==>
              r == Open(app, body.fields).PropagateFailure()
    ensures body.JObj? && Open(app, body.fields).Ok? ==>
              (r.Ok? <==> Open(app, body.fields).value.response.Some?)
    ensures body.JObj? && Open(app, body.fields).Ok? && Open(app, body.fields).value.response.Some? ==>
              r == Ok(Open(app, body.fields).value.response.value)
    ensures body.JObj? && Open(app, body.fields).Ok? && Open(app, body.fields).value.response.None? ==>
              r == Err(Fault(NoResponse))
  {
    if !body.JObj? then Err(Fault(BodyNotObject(PyTypeName(body))))
    else
      match Open(app, body.fields)
      case Ok(req) => if req.response.Some? then Ok(req.response.value) else Err(Fault(NoResponse))
      case Err(Raised(e)) => Ok(ErrorResponse(e))
      case Err(Fault(c)) => Err(Fault(c))
  }
}
