/** What a piece of request middleware does, seen from outside: the
    `next(...)` calls it makes, in order, or the exception it throws; and what
    the client is finally sent. Also the intended shape of a validator: an
    ordered list of checks run until the first one fails. */
module Middleware {

  /** One invocation of `next`: a bare `next()` or `next({ status, message })`. */
  datatype NextCall = Continue | Fail(status: int, message: string)

  /** Everything one middleware invocation does: the `next` calls it makes in
      order, or a TypeError thrown before it makes any. */
  datatype Outcome = Calls(calls: seq<NextCall>) | Threw

  /** What the client receives: `res.status(status).json({ data })`, the
      error responder's reply to `next({ status, message })`, the error
      responder's reply to an exception the router caught and passed on as
      `next(err)`, or nothing at all. */
  datatype Reply<T> =
    | Json(status: int, data: T)
    | ErrorReply(status: int, message: string)
    | ThrownToErrorResponder
    | NoReply

  /** One guard of a validator: whether it rejects the request, and the error
      it passes to `next` when it does. */
  datatype Check = Check(fails: bool, status: int, message: string)

  /** Check `k` is the first one that rejects. */
  predicate IsFirstFailure(checks: seq<Check>, k: int)
  {
    && 0 <= k < |checks|
    && checks[k].fails
    && forall j | 0 <= j < k :: !checks[j].fails
  }

  /** A validator that stops at the first failing check: exactly one `next`
      call, bare exactly when no check fails. */
  function Pipeline(checks: seq<Check>): (calls: seq<NextCall>)
    ensures |calls| == 1
    ensures calls[0].Continue? <==> forall i | 0 <= i < |checks| :: !checks[i].fails
  {
    if checks == [] then [Continue]
    else if checks[0].fails then [Fail(checks[0].status, checks[0].message)]
    else
      assert forall i | 1 <= i < |checks| :: checks[i] == checks[1..][i - 1];
      Pipeline(checks[1..])
  }

  /** The pipeline's single call carries the error of the first failing
      check, and no later check is consulted. */
  lemma {:induction false} PipelineStopsAtFirstFailure(checks: seq<Check>, k: int)
    requires IsFirstFailure(checks, k)
    ensures Pipeline(checks) == [Fail(checks[k].status, checks[k].message)]
    decreases k
  {
    if k > 0 {
      assert !checks[0].fails;
      assert IsFirstFailure(checks[1..], k - 1);
      PipelineStopsAtFirstFailure(checks[1..], k - 1);
    }
  }

  /** Running the rest of a route after one middleware: its first `next`
      call decides. A bare `next()` hands over to the rest of the route, an
      error goes to the error responder, and a thrown exception is caught by
      the router and also handed to the error responder. Middleware that
      never calls `next` leaves the request without a reply. */
  function Then<T>(o: Outcome, rest: Reply<T>): (r: Reply<T>)
    ensures o.Threw? ==> r == ThrownToErrorResponder
    ensures o.Calls? && o.calls != [] && o.calls[0].Continue? ==> r == rest
    ensures o.Calls? && o.calls != [] && o.calls[0].Fail? ==>
      r == ErrorReply(o.calls[0].status, o.calls[0].message)
  {
    match o
    case Threw => ThrownToErrorResponder
    case Calls(calls) =>
      if calls == [] then NoReply
      else match calls[0]
        case Continue => rest
        case Fail(status, message) => ErrorReply(status, message)
  }
}
