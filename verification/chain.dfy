/** Running a sorted chain around a handler. The request phase walks the
    whole chain and calls only request steps; the response phase walks it
    again and calls only response steps. A step's result replaces the current
    value unless it is `None`; a step that raises ends the walk. */
module Chains {
  import opened Base
  import opened Outcomes
  import opened Messages
  import opened Middlewares

  /** `if new is not None: current = new`. */
  function Keep<T>(next: Option<T>, current: T): T {
    if next.Some? then next.value else current
  }

  /** No middleware of the chain is a request step. */
  ghost predicate NoRequestSteps(chain: seq<Middleware>) {
    forall i :: 0 <= i < |chain| ==> !chain[i].step.OnRequest?
  }

  /** No middleware of the chain is a response step. */
  ghost predicate NoResponseSteps(chain: seq<Middleware>) {
    forall i :: 0 <= i < |chain| ==> !chain[i].step.OnResponse?
  }

  /** Some request step of the chain raises `f` on some request. */
  ghost predicate RaisedByRequestStep(chain: seq<Middleware>, f: Failure) {
    exists i, q :: 0 <= i < |chain| && chain[i].step.OnRequest? && chain[i].step.before(q) == Err(f)
  }

  /** The request phase: the final request, or the failure of the first
      request step that raised. */
  function RunRequestPhase(chain: seq<Middleware>, req: Request): (r: Outcome<Request>)
    ensures NoRequestSteps(chain) ==> r == Ok(req)
    ensures r.Err? ==> RaisedByRequestStep(chain, r.failure)
    decreases |chain|
  {
    if chain == [] then Ok(req)
    else
      match chain[0].step
      case OnResponse(_) =>
        RunRequestPhase(chain[1..], req)
      case OnRequest(before) =>
        var next :- before(req);
        var r := RunRequestPhase(chain[1..], Keep(next, req));
        assert r.Err? ==> RaisedByRequestStep(chain, r.failure) by {
          if r.Err? {
            var i, q :| 0 <= i < |chain[1..]| && chain[1..][i].step.OnRequest?
                        && chain[1..][i].step.before(q) == Err(r.failure);
            assert chain[i + 1] == chain[1..][i];
          }
        }
        r
  }

  /** Some response step of the chain raises `f` on some response. */
  ghost predicate RaisedByResponseStep(chain: seq<Middleware>, f: Failure) {
    exists i, q :: 0 <= i < |chain| && chain[i].step.OnResponse? && chain[i].step.after(q) == Err(f)
  }

  /** The response phase: the final response, or the failure of the first
      response step that raised. A response, once present, stays present. */
  function RunResponsePhase(chain: seq<Middleware>, resp: Option<Response>): (r: Outcome<Option<Response>>)
    ensures NoResponseSteps(chain) ==> r == Ok(resp)
    ensures r.Err? ==> RaisedByResponseStep(chain, r.failure)
    ensures r.Ok? && resp.Some? ==> r.value.Some?
    decreases |chain|
  {
    if chain == [] then Ok(resp)
    else
      match chain[0].step
      case OnRequest(_) =>
        RunResponsePhase(chain[1..], resp)
      case OnResponse(after) =>
        var next :- after(resp);
        var r := RunResponsePhase(chain[1..], if next.Some? then next else resp);
        assert r.Err? ==> RaisedByResponseStep(chain, r.failure) by {
          if r.Err? {
            var i, q :| 0 <= i < |chain[1..]| && chain[1..][i].step.OnResponse?
                        && chain[1..][i].step.after(q) == Err(r.failure);
            assert chain[i + 1] == chain[1..][i];
          }
        }
        r
  }

  /** The request phase over a concatenation is the phase over the first
      part followed, on success, by the phase over the second. */
  lemma {:induction false} RequestPhaseAppend(a: seq<Middleware>, b: seq<Middleware>, req: Request)
    ensures RunRequestPhase(a + b, req)
         == match RunRequestPhase(a, req)
            case Ok(mid) => RunRequestPhase(b, mid)
            case Err(f) => Err(f)
    decreases |a|
  {
    if a == [] {
      assert a + b == b;
    } else {
      assert (a + b)[1..] == a[1..] + b;
      match a[0].step
      case OnResponse(_) =>
        RequestPhaseAppend(a[1..], b, req);
      case OnRequest(before) =>
        if before(req).Ok? {
          RequestPhaseAppend(a[1..], b, Keep(before(req).value, req));
        }
    }
  }

  /** The response phase over a concatenation is the phase over the first
      part followed, on success, by the phase over the second. */
  lemma {:induction false} ResponsePhaseAppend(a: seq<Middleware>, b: seq<Middleware>, resp: Option<Response>)
    ensures RunResponsePhase(a + b, resp)
         == match RunResponsePhase(a, resp)
            case Ok(mid) => RunResponsePhase(b, mid)
            case Err(f) => Err(f)
    decreases |a|
  {
    if a == [] {
      assert a + b == b;
    } else {
      assert (a + b)[1..] == a[1..] + b;
      match a[0].step
      case OnRequest(_) =>
        ResponsePhaseAppend(a[1..], b, resp);
      case OnResponse(after) =>
        if after(resp).Ok? {
          var next := after(resp).value;
          ResponsePhaseAppend(a[1..], b, if next.Some? then next else resp);
        }
    }
  }

  /** One middleware on its own: a request step's result replaces the
      request unless it is `None`, and a failure ends the phase; a response
      step leaves the request alone. */
  lemma RequestPhaseSingle(m: Middleware, req: Request)
    ensures RunRequestPhase([m], req)
         == if m.step.OnResponse? then Ok(req)
            else (match m.step.before(req)
                  case Ok(None) => Ok(req)
                  case Ok(Some(q)) => Ok(q)
                  case Err(f) => Err(f))
  {
    assert [m][1..] == [];
  }

  /** One middleware on its own: a response step's result replaces the
      response unless it is `None`, and a failure ends the phase; a request
      step leaves the response alone. */
  lemma ResponsePhaseSingle(m: Middleware, resp: Option<Response>)
    ensures RunResponsePhase([m], resp)
         == if m.step.OnRequest? then Ok(resp)
            else (match m.step.after(resp)
                  case Ok(None) => Ok(resp)
                  case Ok(Some(p)) => Ok(Some(p))
                  case Err(f) => Err(f))
  {
    assert [m][1..] == [];
  }

  /** The request phase is the left fold of the one-step rule: running a
      chain with one more middleware at its end runs the chain, then that
      middleware on the request the chain ended with. */
  lemma {:induction false} RequestPhaseSnoc(chain: seq<Middleware>, m: Middleware, req: Request)
    ensures RunRequestPhase(chain + [m], req)
         == match RunRequestPhase(chain, req)
            case Err(f) => Err(f)
            case Ok(mid) =>
              if m.step.OnResponse? then Ok(mid)
              else (match m.step.before(mid)
                    case Ok(None) => Ok(mid)
                    case Ok(Some(q)) => Ok(q)
                    case Err(f) => Err(f))
  {
    RequestPhaseAppend(chain, [m], req);
    if RunRequestPhase(chain, req).Ok? {
      RequestPhaseSingle(m, RunRequestPhase(chain, req).value);
    }
  }

  /** The response phase is the left fold of the one-step rule. */
  lemma {:induction false} ResponsePhaseSnoc(chain: seq<Middleware>, m: Middleware, resp: Option<Response>)
    ensures RunResponsePhase(chain + [m], resp)
         == match RunResponsePhase(chain, resp)
            case Err(f) => Err(f)
            case Ok(mid) =>
              if m.step.OnRequest? then Ok(mid)
              else (match m.step.after(mid)
                    case Ok(None) => Ok(mid)
                    case Ok(Some(p)) => Ok(Some(p))
                    case Err(f) => Err(f))
  {
    ResponsePhaseAppend(chain, [m], resp);
    if RunResponsePhase(chain, resp).Ok? {
      ResponsePhaseSingle(m, RunResponsePhase(chain, resp).value);
    }
  }

  /** Only request steps take part in the request phase: running the chain
      is running its request steps alone, in chain order. */
  lemma {:induction false} RequestPhaseOfPhase(chain: seq<Middleware>, req: Request)
    ensures RunRequestPhase(chain, req) == RunRequestPhase(OfPhase(chain, RequestPhase), req)
    decreases |chain|
  {
    if chain != [] {
      var tail := OfPhase(chain[1..], RequestPhase);
      match chain[0].step
      case OnResponse(_) =>
        RequestPhaseOfPhase(chain[1..], req);
      case OnRequest(before) =>
        assert ([chain[0]] + tail)[1..] == tail;
        if before(req).Ok? {
          RequestPhaseOfPhase(chain[1..], Keep(before(req).value, req));
        }
    }
  }

  /** Only response steps take part in the response phase. */
  lemma {:induction false} ResponsePhaseOfPhase(chain: seq<Middleware>, resp: Option<Response>)
    ensures RunResponsePhase(chain, resp) == RunResponsePhase(OfPhase(chain, ResponsePhase), resp)
    decreases |chain|
  {
    if chain != [] {
      var tail := OfPhase(chain[1..], ResponsePhase);
      match chain[0].step
      case OnRequest(_) =>
        ResponsePhaseOfPhase(chain[1..], resp);
      case OnResponse(after) =>
        assert ([chain[0]] + tail)[1..] == tail;
        if after(resp).Ok? {
          var next := after(resp).value;
          ResponsePhaseOfPhase(chain[1..], if next.Some? then next else resp);
        }
    }
  }

  /** A step that, given `v`, returns `None` or `v` itself. */
  ghost predicate PassesThrough<T>(result: Outcome<Option<T>>, v: T) {
    result == Ok(None) || result == Ok(Some(v))
  }

  /** A response step that, given `resp`, returns `None` or `resp` itself. */
  ghost predicate KeepsResponse(result: Outcome<Option<Response>>, resp: Option<Response>) {
    result == Ok(None) || result == Ok(resp)
  }

  /** Request steps that all return `None` or the request they were given
      leave the request as it was. */
  lemma {:induction false} RequestPhaseAllKeep(chain: seq<Middleware>, req: Request)
    requires forall i :: 0 <= i < |chain| && chain[i].step.OnRequest? ==> PassesThrough(chain[i].step.before(req), req)
    ensures RunRequestPhase(chain, req) == Ok(req)
    decreases |chain|
  {
    if chain != [] {
      assert forall i :: 0 <= i < |chain[1..]| ==> chain[1..][i] == chain[i + 1];
      RequestPhaseAllKeep(chain[1..], req);
    }
  }

  /** Response steps that all return `None` or the response they were given
      leave the response as it was. */
  lemma {:induction false} ResponsePhaseAllKeep(chain: seq<Middleware>, resp: Option<Response>)
    requires forall i :: 0 <= i < |chain| && chain[i].step.OnResponse? ==> KeepsResponse(chain[i].step.after(resp), resp)
    ensures RunResponsePhase(chain, resp) == Ok(resp)
    decreases |chain|
  {
    if chain != [] {
      assert forall i :: 0 <= i < |chain[1..]| ==> chain[1..][i] == chain[i + 1];
      ResponsePhaseAllKeep(chain[1..], resp);
    }
  }
}
