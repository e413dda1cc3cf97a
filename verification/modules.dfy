/** A module: middleware buckets indexed by tag, the registered functions,
    and the one-way flag that closes middleware registration once a function
    is registered. Dispatch builds a chain per request from the untagged
    bucket and the buckets of the function's tags, sorts it, and runs it
    around the function's handler. */
module Modules {
  import opened Base
  import opened Outcomes
  import opened Messages
  import opened Middlewares
  import opened Ordering
  import opened Chains

  /** A registered function, called as `f(**args)`: it receives the keyword
      arguments as a map and returns a response (or `None`) or raises. */
  type Handler = map<string, Json> -> Outcome<Option<Response>>

  /** `_ModuleFunction`: a handler and its tags (`None` when declared without). */
  datatype ModuleFunction = ModuleFunction(handler: Handler, tags: Option<seq<string>>)

  datatype Module = Module(name: string,
                           middleware: map<string, seq<Middleware>>,
                           functions: map<string, ModuleFunction>,
                           locked: bool)

  /** The key of the bucket of untagged middleware. */
  const Untagged: string := ""

  /** The bucket stored under `key`, or nothing. */
  function Bucket(m: Module, key: string): seq<Middleware> {
    if key in m.middleware then m.middleware[key] else []
  }

  /** The bucket a middleware is registered into. */
  function BucketKey(tag: Option<string>): string {
    if tag.None? then Untagged else tag.value
  }

  /** Every module the source can build has an untagged bucket. */
  ghost predicate Valid(m: Module) {
    Untagged in m.middleware
  }

  /** `Module(name)`: no functions, open for middleware, one empty untagged bucket. */
  function NewModule(name: string): (m: Module)
    ensures Valid(m) && !m.locked
    ensures m.name == name && m.functions == map[]
    ensures m.middleware == map[Untagged := []]
    ensures forall key :: Bucket(m, key) == []
  {
    Module(name, map[Untagged := []], map[], false)
  }

  /** `register_middleware`: fails once the module is locked; otherwise
      appends to the end of the middleware's bucket, creating it if needed. */
  function RegisterMiddleware(m: Module, mw: Middleware): (r: Outcome<Module>)
    ensures r.Err? <==> m.locked || (mw.tag.None? && Untagged !in m.middleware)
    ensures m.locked ==> r == Err(Fault(MiddlewareLocked))
    ensures r.Ok? ==>
              && r.value.middleware.Keys == m.middleware.Keys + {BucketKey(mw.tag)}
              && Bucket(r.value, BucketKey(mw.tag)) == Bucket(m, BucketKey(mw.tag)) + [mw]
              && (forall key :: key != BucketKey(mw.tag) ==> Bucket(r.value, key) == Bucket(m, key))
              && r.value.name == m.name && r.value.functions == m.functions && !r.value.locked
  {
    if m.locked then Err(Fault(MiddlewareLocked))
    else match mw.tag
      case None =>
        if Untagged !in m.middleware then Err(Fault(MissingBucket(Untagged)))
        else Ok(m.(middleware := m.middleware[Untagged := m.middleware[Untagged] + [mw]]))
      case Some(tag) =>
        var bucket := if tag in m.middleware then m.middleware[tag] else [];
        Ok(m.(middleware := m.middleware[tag := bucket + [mw]]))
  }

  /** `@module.function(name, tags)`: stores the handler under `name`,
      replacing any earlier one, and locks the module. */
  function RegisterFunction(m: Module, name: string, handler: Handler, tags: Option<seq<string>>): (r: Module)
    ensures r.locked
    ensures r.functions.Keys == m.functions.Keys + {name}
    ensures r.functions[name].tags == tags && r.functions[name].handler == handler
    ensures forall other :: other in m.functions && other != name ==> r.functions[other] == m.functions[other]
    ensures r.name == m.name && r.middleware == m.middleware
  {
    m.(functions := m.functions[name := ModuleFunction(handler, tags)], locked := true)
  }

  /** One registration call made on a module during setup. */
  datatype Registration =
    | AddMiddleware(mw: Middleware)
    | AddFunction(fname: string, handler: Handler, tags: Option<seq<string>>)

  function Register(m: Module, op: Registration): Outcome<Module> {
    match op
    case AddMiddleware(mw) => RegisterMiddleware(m, mw)
    case AddFunction(name, handler, tags) => Ok(RegisterFunction(m, name, handler, tags))
  }

  /** The module after a series of registration calls, where a call that
      raises leaves the module as it was (it raises before changing it). */
  function Replay(m: Module, ops: seq<Registration>): Module
    decreases |ops|
  {
    if ops == [] then m
    else
      var before := Replay(m, ops[..|ops| - 1]);
      match Register(before, ops[|ops| - 1])
      case Ok(after) => after
      case Err(_) => before
  }

  /** Once a module is locked it stays locked, and every later middleware
      registration fails. */
  lemma {:induction false} LockIsPermanent(m: Module, ops: seq<Registration>)
    requires m.locked
    ensures Replay(m, ops).locked
    ensures forall i :: 0 <= i < |ops| && ops[i].AddMiddleware? ==>
              Register(Replay(m, ops[..i]), ops[i]) == Err(Fault(MiddlewareLocked))
    decreases |ops|
  {
    if ops != [] {
      var init := ops[..|ops| - 1];
      LockIsPermanent(m, init);
      forall i | 0 <= i < |ops| && ops[i].AddMiddleware?
        ensures Register(Replay(m, ops[..i]), ops[i]) == Err(Fault(MiddlewareLocked))
      {
        if i < |ops| - 1 {
          assert ops[..i] == init[..i] && ops[i] == init[i];
        } else {
          assert ops[..i] == init;
        }
      }
    }
  }

  /** Registration keeps the untagged bucket, so a module built by the
      source's calls never hits the missing-bucket failure. */
  lemma {:induction false} ReplayValid(m: Module, ops: seq<Registration>)
    requires Valid(m)
    ensures Valid(Replay(m, ops))
    ensures m.name == Replay(m, ops).name
    decreases |ops|
  {
    if ops != [] {
      ReplayValid(m, ops[..|ops| - 1]);
    }
  }

  /** Some tag of `tags` has `x` in its bucket. */
  ghost predicate InSomeTagBucket(m: Module, tags: seq<string>, x: Middleware) {
    exists i :: 0 <= i < |tags| && tags[i] in m.middleware && x in m.middleware[tags[i]]
  }

  /** The buckets of `tags`, concatenated in declaration order; a tag without
      a bucket raises `KeyError(tag)` at the first such tag. */
  function TagBuckets(m: Module, tags: seq<string>): (r: Outcome<seq<Middleware>>)
    ensures r.Ok? <==> forall i :: 0 <= i < |tags| ==> tags[i] in m.middleware
    ensures r.Err? ==> exists k :: 0 <= k < |tags| && tags[k] !in m.middleware
                                   && (forall j :: 0 <= j < k ==> tags[j] in m.middleware)
                                   && r.failure == Fault(MissingBucket(tags[k]))
    ensures r.Ok? ==> forall x :: x in r.value <==> InSomeTagBucket(m, tags, x)
    decreases |tags|
  {
    if tags == [] then Ok([])
    else if tags[0] !in m.middleware then Err(Fault(MissingBucket(tags[0])))
    else
      var rest := TagBuckets(m, tags[1..]);
      assert forall i :: 1 <= i < |tags| ==> tags[i] == tags[1..][i - 1];
      if rest.Err? then
        assert exists k :: 0 <= k < |tags| && tags[k] !in m.middleware
                         && (forall j :: 0 <= j < k ==> tags[j] in m.middleware)
                         && rest.failure == Fault(MissingBucket(tags[k])) by {
          var k :| 0 <= k < |tags[1..]| && tags[1..][k] !in m.middleware
                   && (forall j :: 0 <= j < k ==> tags[1..][j] in m.middleware)
                   && rest.failure == Fault(MissingBucket(tags[1..][k]));
          assert tags[k + 1] == tags[1..][k];
        }
        rest
      else
        var r := m.middleware[tags[0]] + rest.value;
        assert forall x :: x in r <==> InSomeTagBucket(m, tags, x) by {
          forall x ensures x in r <==> InSomeTagBucket(m, tags, x) {
            if x in rest.value {
              var i :| 0 <= i < |tags[1..]| && tags[1..][i] in m.middleware && x in m.middleware[tags[1..][i]];
              assert tags[i + 1] == tags[1..][i];
            }
            if InSomeTagBucket(m, tags, x) && x !in m.middleware[tags[0]] {
              var i :| 0 <= i < |tags| && tags[i] in m.middleware && x in m.middleware[tags[i]];
              assert i != 0;
              assert InSomeTagBucket(m, tags[1..], x) by {
                assert tags[1..][i - 1] == tags[i];
              }
            }
          }
        }
        Ok(r)
  }

  /** Collecting the buckets of two tag lists one after the other is
      collecting the buckets of their concatenation. */
  lemma {:induction false} TagBucketsAppend(m: Module, a: seq<string>, b: seq<string>)
    ensures TagBuckets(m, a + b)
         == match TagBuckets(m, a)
            case Err(f) => Err(f)
            case Ok(x) =>
              match TagBuckets(m, b)
              case Err(f) => Err(f)
              case Ok(y) => Ok(x + y)
    decreases |a|
  {
    if a == [] {
      assert a + b == b;
      if TagBuckets(m, b).Ok? {
        assert [] + TagBuckets(m, b).value == TagBuckets(m, b).value;
      }
    } else {
      assert (a + b)[0] == a[0] && (a + b)[1..] == a[1..] + b;
      TagBucketsAppend(m, a[1..], b);
      if a[0] in m.middleware && TagBuckets(m, a[1..]).Ok? && TagBuckets(m, b).Ok? {
        var x, y := TagBuckets(m, a[1..]).value, TagBuckets(m, b).value;
        assert m.middleware[a[0]] + (x + y) == (m.middleware[a[0]] + x) + y;
      }
    }
  }

  /** A single tag contributes exactly its bucket, or raises `KeyError` on
      itself when it has none. */
  lemma TagBucketsSingle(m: Module, t: string)
    ensures t in m.middleware ==> TagBuckets(m, [t]) == Ok(m.middleware[t])
    ensures t !in m.middleware ==> TagBuckets(m, [t]) == Err(Fault(MissingBucket(t)))
  {
    assert [t][1..] == [];
    assert t in m.middleware ==> m.middleware[t] + [] == m.middleware[t];
  }

  /** The candidate list of a function with `tags`: the untagged bucket, then
      (when tags were declared) the buckets of its tags in declaration order. */
  function Candidates(m: Module, tags: Option<seq<string>>): (r: Outcome<seq<Middleware>>)
    ensures Untagged !in m.middleware ==> r == Err(Fault(MissingBucket(Untagged)))
    ensures Valid(m) && tags.None? ==> r == Ok(m.middleware[Untagged])
    ensures Valid(m) && tags.Some? ==>
              r.Ok? == (forall i :: 0 <= i < |tags.value| ==> tags.value[i] in m.middleware)
    ensures r.Ok? ==> Valid(m) && |r.value| >= |m.middleware[Untagged]|
    ensures r.Ok? ==> r.value[..|m.middleware[Untagged]|] == m.middleware[Untagged]
    ensures r.Ok? ==> forall x :: x in r.value <==>
              x in m.middleware[Untagged] || (tags.Some? && InSomeTagBucket(m, tags.value, x))
    ensures Valid(m) && tags.Some? && TagBuckets(m, tags.value).Ok? ==>
              r == Ok(m.middleware[Untagged] + TagBuckets(m, tags.value).value)
    ensures Valid(m) && tags.Some? && TagBuckets(m, tags.value).Err? ==> r == TagBuckets(m, tags.value)
  {
    if Untagged !in m.middleware then Err(Fault(MissingBucket(Untagged)))
    else
      var untagged := m.middleware[Untagged];
      match tags
      case None => Ok(untagged)
      case Some(ts) =>
        var tagged :- TagBuckets(m, ts);
        assert (untagged + tagged)[..|untagged|] == untagged;
        Ok(untagged + tagged)
  }

  /** The chain of a function: its candidates, stably sorted by descending
      weight. */
  function ChainFor(m: Module, f: ModuleFunction): (r: Outcome<seq<Middleware>>)
    ensures r.Ok? <==> Candidates(m, f.tags).Ok?
    ensures r.Err? ==> r.failure == Candidates(m, f.tags).failure
    ensures r.Ok? ==> var candidates := Candidates(m, f.tags).value;
              && multiset(r.value) == multiset(candidates)
              && Descending(r.value)
              && SameClasses(r.value, candidates)
  {
    var candidates :- Candidates(m, f.tags);
    Ok(SortByWeight(candidates))
  }

  /** The function named by a request, looked up the way a Python dict is:
      a list or dict raises `TypeError`, any other non-string is absent. */
  function LookupFunction(m: Module, name: Json): (r: Outcome<ModuleFunction>)
    ensures r.Ok? <==> name.JStr? && name.s in m.functions
    ensures r.Ok? ==> r.value == m.functions[name.s]
    ensures r.Err? && Hashable(name) ==> r.failure == Fault(FunctionNotFound)
    ensures !Hashable(name) ==> r == Err(Fault(Unhashable(PyTypeName(name))))
  {
    match name
    case JStr(s) => if s in m.functions then Ok(m.functions[s]) else Err(Fault(FunctionNotFound))
    case JArr(_) => Err(Fault(Unhashable(PyTypeName(name))))
    case JObj(_) => Err(Fault(Unhashable(PyTypeName(name))))
    case _ => Err(Fault(FunctionNotFound))
  }

  /** `**args`: only a JSON object expands into keyword arguments. */
  function Kwargs(args: Json): (r: Outcome<map<string, Json>>)
    ensures r.Ok? <==> args.JObj?
    ensures r.Ok? ==> r.value == args.fields
    ensures r.Err? ==> r.failure == Fault(ArgsNotMapping(PyTypeName(args)))
  {
    if args.JObj? then Ok(args.fields) else Err(Fault(ArgsNotMapping(PyTypeName(args))))
  }

  /** The pipeline around a handler: the request phase over `before`, the
      handler called with the final request's arguments, then the response
      phase over `after`; the result is the final request carrying the final
      response. Each stage runs only if the previous one succeeded, and a
      failure is that of the first stage that failed. */
  function Around(before: seq<Middleware>, handler: Handler, after: seq<Middleware>, req: Request): (r: Outcome<Request>)
    ensures RunRequestPhase(before, req).Err? ==> r == RunRequestPhase(before, req).PropagateFailure()
    ensures RunRequestPhase(before, req).Ok? ==>
              var final := RunRequestPhase(before, req).value;
              && (!final.args.JObj? ==> r == Err(Fault(ArgsNotMapping(PyTypeName(final.args)))))
              && (final.args.JObj? && handler(final.args.fields).Err? ==>
                    r == handler(final.args.fields).PropagateFailure())
              && (final.args.JObj? && handler(final.args.fields).Ok? ==>
                    var resp := handler(final.args.fields).value;
                    && (RunResponsePhase(after, resp).Err? ==> r == RunResponsePhase(after, resp).PropagateFailure())
                    && (RunResponsePhase(after, resp).Ok? ==> r == Ok(final.(response := RunResponsePhase(after, resp).value))))
  {
    var final :- RunRequestPhase(before, req);
    var kwargs :- Kwargs(final.args);
    var resp :- handler(kwargs);
    var out :- RunResponsePhase(after, resp);
    Ok(final.(response := out))
  }

  /** `Module.request`: resolves the function, builds and sorts its chain,
      runs the request phase, calls the handler with the final request's
      arguments, runs the response phase, and returns the final request with
      the final response attached. */
  function Dispatch(m: Module, req: Request): (r: Outcome<Request>)
    ensures r.Ok? ==> req.functionName.JStr? && req.functionName.s in m.functions
    ensures LookupFunction(m, req.functionName).Err? ==> r == LookupFunction(m, req.functionName).PropagateFailure()
    ensures LookupFunction(m, req.functionName).Ok? && ChainFor(m, LookupFunction(m, req.functionName).value).Err? ==>
              r == ChainFor(m, LookupFunction(m, req.functionName).value).PropagateFailure()
    ensures LookupFunction(m, req.functionName).Ok? && ChainFor(m, LookupFunction(m, req.functionName).value).Ok? ==>
              var f := LookupFunction(m, req.functionName).value;
              var chain := ChainFor(m, f).value;
              r == Around(chain, f.handler, chain, req)
    ensures r.Ok? ==> Valid(m)
    ensures r.Ok? ==>
              var f := m.functions[req.functionName.s];
              && ChainFor(m, f).Ok?
              && RunRequestPhase(ChainFor(m, f).value, req).Ok?
              && var final := RunRequestPhase(ChainFor(m, f).value, req).value;
              && r.value == final.(response := r.value.response)
              && final.args.JObj?
              && f.handler(final.args.fields).Ok?
              && RunResponsePhase(ChainFor(m, f).value, f.handler(final.args.fields).value).Ok?
              && r.value.response == RunResponsePhase(ChainFor(m, f).value, f.handler(final.args.fields).value).value
              && (f.handler(final.args.fields).value.Some? ==> r.value.response.Some?)
  {
    var f :- LookupFunction(m, req.functionName);
    var chain :- ChainFor(m, f);
    Around(chain, f.handler, chain, req)
  }

  /** Running one chain for both phases is running its request steps, then
      the handler, then its response steps. */
  lemma AroundOfPhase(chain: seq<Middleware>, handler: Handler, req: Request)
    ensures Around(chain, handler, chain, req)
         == Around(OfPhase(chain, RequestPhase), handler, OfPhase(chain, ResponsePhase), req)
  {
    RequestPhaseOfPhase(chain, req);
    var before := OfPhase(chain, RequestPhase);
    if RunRequestPhase(before, req).Ok? {
      var final := RunRequestPhase(before, req).value;
      if final.args.JObj? && handler(final.args.fields).Ok? {
        ResponsePhaseOfPhase(chain, handler(final.args.fields).value);
      }
    }
  }

  /** Dispatch in terms of the candidates alone: the request phase runs the
      candidates' request steps, stably sorted by descending weight, and the
      response phase runs their response steps, sorted the same way. The
      steps of the other phase play no part. */
  lemma DispatchByPhases(m: Module, req: Request, f: ModuleFunction, candidates: seq<Middleware>)
    requires LookupFunction(m, req.functionName) == Ok(f)
    requires Candidates(m, f.tags) == Ok(candidates)
    ensures Dispatch(m, req)
         == Around(SortByWeight(OfPhase(candidates, RequestPhase)), f.handler,
                   SortByWeight(OfPhase(candidates, ResponsePhase)), req)
  {
    var chain := SortByWeight(candidates);
    assert ChainFor(m, f) == Ok(chain);
    assert Dispatch(m, req) == Around(chain, f.handler, chain, req);
    AroundOfPhase(chain, f.handler, req);
    SortOfPhase(candidates, RequestPhase);
    SortOfPhase(candidates, ResponsePhase);
  }

  /** A function whose declared tags include one without a bucket cannot be
      dispatched: the request fails with `KeyError` on the first such tag,
      before any middleware or the handler runs. */
  lemma DispatchMissingTag(m: Module, req: Request)
    requires Valid(m)
    requires LookupFunction(m, req.functionName).Ok?
    requires var tags := LookupFunction(m, req.functionName).value.tags;
             tags.Some? && exists i :: 0 <= i < |tags.value| && tags.value[i] !in m.middleware
    ensures Dispatch(m, req).Err?
    ensures var tags := LookupFunction(m, req.functionName).value.tags.value;
            exists k :: 0 <= k < |tags| && tags[k] !in m.middleware
                        && (forall j :: 0 <= j < k ==> tags[j] in m.middleware)
                        && Dispatch(m, req) == Err(Fault(MissingBucket(tags[k])))
  {
    var tags := LookupFunction(m, req.functionName).value.tags.value;
    var r := TagBuckets(m, tags);
    assert r.Err?;
    var k :| 0 <= k < |tags| && tags[k] !in m.middleware
             && (forall j :: 0 <= j < k ==> tags[j] in m.middleware)
             && r.failure == Fault(MissingBucket(tags[k]));
  }

  /** Middleware that hand back what they were given (or `None`) are
      invisible: the request reaches the handler unchanged and the handler's
      result is the response attached to it. */
  lemma DispatchPassThrough(m: Module, req: Request, f: ModuleFunction, candidates: seq<Middleware>)
    requires LookupFunction(m, req.functionName) == Ok(f)
    requires Candidates(m, f.tags) == Ok(candidates)
    requires forall x :: x in candidates && x.step.OnRequest? ==> PassesThrough(x.step.before(req), req)
    requires req.args.JObj? && f.handler(req.args.fields).Ok?
    requires forall x :: x in candidates && x.step.OnResponse? ==>
               KeepsResponse(x.step.after(f.handler(req.args.fields).value), f.handler(req.args.fields).value)
    ensures Dispatch(m, req) == Ok(req.(response := f.handler(req.args.fields).value))
  {
    var chain := ChainFor(m, f).value;
    var resp := f.handler(req.args.fields).value;
    forall i | 0 <= i < |chain| ensures chain[i] in candidates {
      assert chain[i] in multiset(chain);
    }
    RequestPhaseAllKeep(chain, req);
    ResponsePhaseAllKeep(chain, resp);
  }
}
