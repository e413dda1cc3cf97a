/** Middleware: a step that runs before the handler (request phase) or after
    it (response phase), an optional tag naming the bucket it is registered
    into, and an integer weight that orders the chain. */
module Middlewares {
  import opened Base
  import opened Outcomes
  import opened Messages

  /** `MiddlewareType`: which phase a middleware belongs to. */
  datatype Phase = RequestPhase | ResponsePhase

  /** The callable of a middleware. A request step receives the current
      request, a response step the current response (which the handler may
      have left `None`); either may return a replacement, return `None` to
      keep what it was given, or raise. */
  datatype Step =
    | OnRequest(before: Request -> Outcome<Option<Request>>)
    | OnResponse(after: Option<Response> -> Outcome<Option<Response>>)

  datatype Middleware = Middleware(step: Step, tag: Option<string>, weight: int) {
    function Phase(): Phase {
      if step.OnRequest? then RequestPhase else ResponsePhase
    }
  }

  /** The middleware of `chain` that belong to phase `p`, in chain order. */
  function OfPhase(chain: seq<Middleware>, p: Phase): (r: seq<Middleware>)
    ensures |r| <= |chain|
    ensures forall i :: 0 <= i < |r| ==> r[i].Phase() == p
    ensures forall x :: x in r ==> x in chain
    ensures forall x :: x in chain && x.Phase() == p ==> x in r
  {
    if chain == [] then []
    else if chain[0].Phase() == p then [chain[0]] + OfPhase(chain[1..], p)
    else OfPhase(chain[1..], p)
  }

  /** Filtering by phase distributes over concatenation: it keeps the
      relative order of the middleware it keeps. */
  lemma {:induction false} OfPhaseAppend(a: seq<Middleware>, b: seq<Middleware>, p: Phase)
    ensures OfPhase(a + b, p) == OfPhase(a, p) + OfPhase(b, p)
    decreases |a|
  {
    if a != [] {
      assert (a + b)[1..] == a[1..] + b;
      OfPhaseAppend(a[1..], b, p);
    } else {
      assert a + b == b;
    }
  }
}
