# lazy-flask dispatch engine, modelled in Dafny

lazy-flask is a single-endpoint RPC layer. A client posts a JSON envelope
naming a `module`, a `function` and its `args`. The application finds the
module, and the module builds a chain of middleware for that function. Request
middleware run first, then the function's handler, then response middleware.
The endpoint turns the outcome into one JSON envelope (`data` plus
`error{code, message}`) with a status code.

This project models that engine as pure functions over immutable values:

- `base.dfy` (`Base`): `Option`, parsed JSON values, and Python's `str` of
  scalars, which appears in exception messages.
- `outcomes.dfy` (`Outcomes`): the application error `ApiError`, and the
  `Outcome` type that stands for "returns or raises". Each non-application
  exception the engine can raise has its own `Cause`, and its `str(e)` text is
  given by `Describe`.
- `messages.dfy` (`Messages`): `Response` with its constructor defaults, and
  `Request`.
- `middleware.dfy` (`Middlewares`): middleware (step, tag, weight) and
  filtering by phase.
- `ordering.dfy` (`Ordering`): `list.sort(key=weight, reverse=True)` as a
  stable insertion sort. It is proved to be a permutation, descending and
  stable. It is also proved to be the only sequence with those properties.
  Filtering by phase commutes with it.
- `chain.dfy` (`Chains`): the request and response phases as folds under the
  "a value replaces, `None` keeps" rule.
- `modules.dfy` (`Modules`): middleware buckets, the one-way registration
  lock, function registration, the candidate list, and `Module.request`
  (`Dispatch`).
- `app.dfy` (`Apps`): the module registry, `Request(req)` construction (which
  dispatches at once), and the legacy `App.query` exception mapping.
- `handle.dfy` (`Handling`): the newer `handle_request`, which classifies an
  outcome as status 200, 400 or 500 plus an envelope. `Serve` composes it with
  the engine above.
- `scenarios.dfy` (`Scenarios`): end-to-end lemmas for the flows in the
  repository's tests and example.

Middleware and handlers are opaque total functions. A request step is
`Request -> Outcome<Option<Request>>`. A response step is
`Option<Response> -> Outcome<Option<Response>>`. A handler takes its keyword
arguments as a map: `map<string, Json> -> Outcome<Option<Response>>`.
A Python exception is an `Err`. `Raised(e)` is the application error type
(`Error` / `APIException`); `Fault(cause)` is any other exception.

The newer `src/` tree imports its engine from a package `lazy_core`, which is
not part of this model. The engine modelled is the one written out in
`lazy_flask/__init__.py`. `handle_request` is modelled over an abstract
dispatcher. `Serve` plugs that engine in behind `APIRequest.from_dict` (`FromDict`).
`FromDict` follows what the repository's tests expect of it: `module` and
`function` are required, and `args` defaults to `{}`.

## Model

| member | source | states |
|---|---|---|
| `Base.DecimalRoundTrip` | lazy_flask/__init__.py:169 | the digits `str(n)` produces for a module name that is a number read back as `n` |
| `Base.PyTypeName` | lazy_flask/__init__.py:73 | names the Python type of a JSON value as the `TypeError` for `**args` prints it (also used for unhashable keys at lines 56 and 168 and for a non-object body at line 134); only an array is a `list` and only an object is a `dict` |
| `Messages.NewResponse` | lazy_flask/__init__.py:112-120 | a missing or `None` `data` becomes `{}`, any other `data` is kept, so the data is never `null`; a missing error becomes code 0 with message `''`; a given error is kept |
| `Messages.NewResponseRoundTrip` | lazy_flask/__init__.py:112-120 | `data=None` is the same as omitting it; a response with non-null data is rebuilt exactly from its own data and error |
| `Messages.ErrorResponse` | lazy_flask/__init__.py:178 | `Response(error=e)` carries `e` and empty-object data |
| `Middlewares.OfPhase` | lazy_flask/__init__.py:67-69 | the phase filter keeps exactly the chain's middleware of that phase and never adds one |
| `Middlewares.OfPhaseAppend` | lazy_flask/__init__.py:67-69 | filtering by phase distributes over concatenation, so relative order is kept |
| `Ordering.SortByWeight` | lazy_flask/__init__.py:66 | the sorted chain is a permutation of the candidates, in non-increasing weight, and each weight class keeps its candidate order (stability) |
| `Ordering.PlaceDescending` | lazy_flask/__init__.py:66 | inserting one middleware into a descending sequence keeps it descending |
| `Ordering.PlaceOfWeight` | lazy_flask/__init__.py:66 | an inserted middleware goes to the head of its weight class; other weight classes are unchanged |
| `Ordering.DescendingUnique` | lazy_flask/__init__.py:66 | two descending sequences with the same weight classes are equal |
| `Ordering.SortByWeightCharacterised` | lazy_flask/__init__.py:66 | a sequence is the sorted chain if and only if it is descending and has the candidates' weight classes, each in candidate order (Python's stable `reverse=True` sort) |
| `Ordering.OfPhaseDescending` | lazy_flask/__init__.py:66-69 | the middleware of one phase also run in non-increasing weight |
| `Ordering.SortOfPhase` | lazy_flask/__init__.py:66-69 | the steps of a phase, in chain order, are the stable sort of that phase's candidates |
| `Chains.RunRequestPhase` | lazy_flask/__init__.py:67-72 | with no request steps the request is unchanged; a failure is one that some request step raised |
| `Chains.RunResponsePhase` | lazy_flask/__init__.py:74-79 | with no response steps the response is unchanged; a failure comes from some response step; a present response never becomes `None` |
| `Chains.RequestPhaseAppend` | lazy_flask/__init__.py:67-72 | the request phase is a left fold: a split chain runs its first part, then, on success, its second part from the resulting request |
| `Chains.ResponsePhaseAppend` | lazy_flask/__init__.py:74-79 | the same fold law for the response phase |
| `Chains.RequestPhaseSingle` | lazy_flask/__init__.py:68-72 | one request step: a non-`None` result replaces the request, `None` keeps it, a raise ends the phase; a response step is skipped |
| `Chains.ResponsePhaseSingle` | lazy_flask/__init__.py:75-79 | one response step: a non-`None` result replaces the response, `None` keeps it, a raise ends the phase; a request step is skipped |
| `Chains.RequestPhaseSnoc` | lazy_flask/__init__.py:67-72 | the request phase is the left fold of the one-step rule: one more step at the end acts on the request the rest ended with |
| `Chains.ResponsePhaseSnoc` | lazy_flask/__init__.py:74-79 | the response phase is the left fold of the one-step rule |
| `Chains.RequestPhaseOfPhase` | lazy_flask/__init__.py:67-69 | only request steps affect the request phase, in chain order |
| `Chains.ResponsePhaseOfPhase` | lazy_flask/__init__.py:74-76 | only response steps affect the response phase, in chain order |
| `Chains.RequestPhaseAllKeep` | lazy_flask/__init__.py:70-72 | if every request step returns `None` or the request it got, the request reaches the handler unchanged |
| `Chains.ResponsePhaseAllKeep` | lazy_flask/__init__.py:77-79 | if every response step returns `None` or the response it got, the handler's response is the final one |
| `Modules.NewModule` | lazy_flask/__init__.py:37-43 | a new module is unlocked and has no functions; its only bucket is the empty untagged one |
| `Modules.RegisterMiddleware` | lazy_flask/__init__.py:45-53 | fails exactly when the module is locked (or has lost its untagged bucket); otherwise appends to the end of the tag's bucket (the `''` bucket when untagged), creating it if absent; every other bucket, the functions and the flag are unchanged |
| `Modules.RegisterFunction` | lazy_flask/__init__.py:81-87 | stores handler and tags under the name, overwriting an earlier entry; other functions and all buckets are unchanged; the module is locked |
| `Modules.LockIsPermanent` | lazy_flask/__init__.py:46-47 | once locked (by a function registration, line 83), the module stays locked through any registrations, and every later middleware registration fails |
| `Modules.ReplayValid` | lazy_flask/__init__.py:39-41 | registrations never remove the untagged bucket, so the missing-bucket failure cannot arise for `''` |
| `Modules.TagBuckets` | lazy_flask/__init__.py:62-65 | succeeds if and only if every tag has a bucket; otherwise fails with `KeyError` on the first tag without one; on success holds exactly the members of the tags' buckets |
| `Modules.TagBucketsAppend` | lazy_flask/__init__.py:63-65 | buckets are concatenated in tag declaration order: the list for `a + b` is the list for `a` followed by the list for `b` |
| `Modules.TagBucketsSingle` | lazy_flask/__init__.py:63-64 | one tag contributes exactly its bucket, or raises `KeyError` on itself when it has none |
| `Modules.Candidates` | lazy_flask/__init__.py:58-65 | the candidate list is exactly the untagged bucket followed by the tags' buckets in declaration order; with `tags is None` it is the untagged bucket alone; membership is the untagged bucket or a declared tag's bucket; it fails with the tag buckets' `KeyError` when a tag has no bucket |
| `Modules.ChainFor` | lazy_flask/__init__.py:58-66 | the chain is a permutation of the candidates, in non-increasing weight, stable on ties; it fails exactly when building the candidates fails |
| `Modules.LookupFunction` | lazy_flask/__init__.py:56-57 | succeeds exactly for a registered string name; other hashable names give `function not found`; a list or dict name gives `TypeError` |
| `Modules.Kwargs` | lazy_flask/__init__.py:73 | `**args` succeeds exactly when `args` is an object, whose fields become the keyword arguments |
| `Modules.Around` | lazy_flask/__init__.py:67-79 | the stages run in order (request phase, `f(**args)`, response phase), each only after the previous one succeeded; a failure is that of the first failing stage; success is the final request carrying the response phase's result on the handler's response |
| `Modules.Dispatch` | lazy_flask/__init__.py:55-79 | an unknown function fails with the lookup failure, and a chain that cannot be built fails with its failure, before any middleware runs; otherwise dispatch is the staged pipeline over the sorted chain; on success the attached response is the response phase run on the handler's result, and a response the handler returned is still present |
| `Modules.AroundOfPhase` | lazy_flask/__init__.py:67-79 | running one chain for both phases is running its request steps before the handler and its response steps after |
| `Modules.DispatchByPhases` | lazy_flask/__init__.py:58-79 | dispatch runs the candidates' request steps, stably sorted by descending weight, then the handler, then their response steps sorted the same way |
| `Modules.DispatchMissingTag` | lazy_flask/__init__.py:62-65 | a declared tag without a bucket makes dispatch fail with `KeyError` on the first such tag |
| `Modules.DispatchPassThrough` | lazy_flask/__init__.py:67-79 | with steps that return `None` or their input, the handler receives the request's own args and its result is the attached response |
| `Apps.RegisterModule` | lazy_flask/__init__.py:164-165 | the module is stored under its name, replacing any previous one; other names are unchanged |
| `Apps.GetModule` | lazy_flask/__init__.py:167-170 | succeeds exactly for a registered string name; an unknown name fails with `"{name} not in modules"`; a list or dict name fails with `TypeError` |
| `Apps.RegisterThenGet` | lazy_flask/__init__.py:164-170 | a registered module is found under its name; other lookups are unaffected; registering a same-named module again overwrites the first |
| `Apps.Open` | lazy_flask/__init__.py:133-139 | a request without `module`, `function` or `args` fails with `wrong request arguments`; an unresolvable module fails before dispatch; otherwise the request, with no response yet, is dispatched to the resolved module |
| `Apps.FromDict` | tests/test_function.py:8-14 | succeeds exactly when `module` and `function` are present, copying them; a missing one is a non-application exception; `args` is copied, or `{}` when absent, as the flow tests at lines 42-46 and 55-59 need (they post no `args` and expect 200) |
| `Apps.Submit` | src/lazy_flask/app.py:52-55 | an envelope that cannot be parsed fails before the registry is consulted; an unknown module fails before dispatch; otherwise the parsed request is dispatched to its module |
| `Apps.SubmitAgreesWithOpen` | src/lazy_flask/app.py:52-55 | with all three keys the newer construction behaves as the legacy `Request(req)`; without `args` it behaves as the legacy one would with `args = {}`, where the legacy one fails |
| `Apps.RegisterThenDispatch` | lazy_flask/__init__.py:133-170 | an envelope naming a just-registered module is dispatched to that module, by either construction |
| `Apps.Query` | lazy_flask/__init__.py:172-178 | an application error never escapes and becomes `Response(error=e)`; every other exception escapes unchanged; a non-object body or a `None` response escapes; otherwise the answer is the response of the request built and dispatched |
| `Handling.HandleRequest` | src/lazy_flask/app.py:24-89 | status is 200, 400 or 500; 400 exactly for a non-JSON content type (checked first) or a non-object body; 500 exactly for a non-application exception, with code 500 and `str(e)`; an application error gives 200 with that error; success gives 200 with the response, or the default one if `None` |
| `Handling.RejectedBeforeDispatch` | src/lazy_flask/app.py:26-51 | a request rejected for content type or body shape gets the same reply whatever the dispatcher would do, so nothing is dispatched |
| `Handling.ServeOutcome` | src/lazy_flask/app.py:52-89 | for a JSON object body: 500 exactly when the engine raised a non-application exception, carrying its text; 200 with the error when it raised an application error; 200 with the request's final response, or the default one, when it returned |
| `Scenarios.ServeUnknownModule` | tests/test_function.py:81-88 | an envelope with or without `args` naming an unknown module gets status 500 with code 500 and `"{name} not in modules"` |
| `Scenarios.RoutingUnknownModule` | tests/test_function.py:81-88 | the test's own envelope, without `args`, gets status 500 and `test_request_1 not in modules` |
| `Scenarios.ServeUnknownFunction` | tests/test_function.py:89-93 | an envelope with or without `args` naming an unknown function of a known module gets status 500 with code 500 and `function not found` |
| `Scenarios.RoutingUnknownFunction` | tests/test_function.py:89-93 | the test's own envelope, without `args`, gets status 500 and `function not found` |
| `Scenarios.HelloWorld` | example/app.py:45-47 | the `hello` envelope with `word = "world"` gets status 200, data `{"hello": "world"}` and error code 0 |
| `Scenarios.HandlerErrorIsDomainData` | tests/test_function.py:48-59 | the test's envelope, without `args`, for a handler raising `APIError(1, "Error!")` gets status 200 with that error |
| `Scenarios.MiddlewareAfterFunctionFails` | tests/test_function.py:68-79 | after a function is registered, registering the same middleware again fails, as does every later middleware registration |
| `Scenarios.FlowChain` | tests/test_function.py:30-36 | the weight-1 tagged request middleware sorts ahead of the untagged weight-0 response middleware that comes first among the candidates |
| `Scenarios.RequestProcessingFlow` | tests/test_function.py:28-46 | with both echoing middleware, the test's envelope, without `args`, gets status 200 and the handler's data |
| `Scenarios.LegacyRefusesFlowEnvelope` | lazy_flask/__init__.py:133-135 | the legacy endpoint refuses that same envelope with `wrong request arguments`, which escapes `query` |

## Left out

- HTTP and Flask: routing, `add_url_rule`, mimetypes and the `FlaskResponse` object are not modelled. The transport is reduced to two inputs: a content-type flag and the parsed body. `get_json(silent=True)` gives `None` for an absent, malformed or `null` body, and all three are modelled as `JNull`.
- JSON serialisation (`json.dumps`, `ResponseEncoder`, which writes the message under the key `msg`): the reply carries the `Response` value itself.
- JSON numbers are integers only; floating point is not modelled.
- The process-wide singleton (`__new__`, `_initialized`, `reset`): the application is an explicit `App` value.
- `lazy_core` is an external package and is not part of this model. Its `Module` and `LazyApp.get_module`, which the newer endpoint calls, are taken to behave as `Module` and `App.get_module` in `lazy_flask/__init__.py`. Its rejection of duplicate module names is left out: `RegisterModule` overwrites, as `lazy_flask/__init__.py:165` does.
- `Apps.RegisterModule`: the registry holds the module value as it was when registered, where Python stores a reference to a mutable object. A module that gains middleware or functions after `register_module` must be registered again for `GetModule` to see them.
- `Apps.FromDict`: modelled on what the tests expect of request construction (`APIRequest(data)` at tests/test_function.py:8-14 requires `module` and `function`; the flow tests at lines 42-46 and 55-59 post no `args` and expect 200), since `APIRequest.from_dict` is defined in `lazy_core`. The text of its `ValueError` for a missing key, including the key it names, is a stand-in; only the failure and its kind (not an application error) are promised. Checks it may make on the types of `module`, `function` or `args` are not modelled.
- Object identity: `Dispatch` returns the final request with the response attached. The source attaches the response to whatever object the request phase ended with, but the caller keeps its original object. A request middleware that returns a different object leaves the caller's `response` unset. With the legacy `query`, that object then has no usable `response`. With `handle_request`, the default response is sent. The model agrees with the source when request middleware return `None` or the object they were given, as the tests and example do. In-place mutation of that object is modelled as returning a modified copy.
- The exception classes are abstracted: a raise of `Exception(...)` is a `Fault` with its cause. The repository's tests that expect `RuntimeError` for a late middleware registration or `ValueError` for a duplicate module test `lazy_core`, not `lazy_flask/__init__.py`.
- Middleware callables are typed per phase: the middleware type is the variant of its step. A Python callable that returns an object of the wrong kind is not modelled. The `m_type=Request` constructor default has no counterpart.
- `Modules.Kwargs`: the `TypeError` text omits the handler's own name, which Python puts in front (`demo() argument after ** must be a mapping`). A handler's mismatch between keyword arguments and parameters is part of its opaque behaviour.
- `Outcomes.Describe`: the `KeyError` text for a tag is the tag between single quotes. Python prints `repr(tag)`, which also escapes backslashes, newlines, tabs and other non-printable characters, and uses double quotes for a tag that contains a single quote; none of that escaping is modelled, so the text agrees with Python only for tags of printable characters without a quote or backslash.
