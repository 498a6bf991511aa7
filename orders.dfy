/** The orders controller: two validators over the request body and the
    `list` handler. None of them writes to the body or to the order
    collection; here they are functions, so they cannot. */
module Orders {
  import opened JsValues
  import opened Middleware

  /** An order record as the order data module holds it; `list` never
      looks inside one. */
  type Order = Value

  const DeliverToRequired := "Order must include a deliverTo"
  const MobileNumberRequired := "Order must include a mobileNumber"
  const DishRequired := "Order must include a dish"
  const DishesNotArray := "The 'dishes' field needs to be an array"
  const StatusRequired := "A 'status' field is required"
  // The spelling "out-for-deliver" is the code's own.
  const StatusInvalid := "Order must have a status of pending, preparing, out-for-deliver, or delivered"
  const DeliveredUnchangeable := "A delivered order cannot be changed"

  /** The statuses `validStatus` lists, in its order. */
  const ValidStatuses: seq<string> := ["pending", "preparing", "out-for-delivery", "delivered"]

  /** `validStatus.includes(status)`: only a string equal to a listed status. */
  predicate IsListedStatus(status: Value)
  {
    status.Str? && status.s in ValidStatuses
  }

  /** `Array.isArray(dishes) && dishes.length !== 0`. */
  predicate IsNonEmptyArray(v: Value)
  {
    v.Arr? && |v.items| != 0
  }

  /** The guards of `validateDataFields` on the destructured `data` object,
      as written: the first falsy field among deliverTo, mobileNumber and
      dishes, then a dishes value that is not a non-empty array, each ends
      the guard with one 400; otherwise one bare `next()`. The line items
      themselves are never looked at. */
  function DataFieldChecks(data: Value): (calls: seq<NextCall>)
    ensures |calls| == 1
    ensures !Truthy(Prop(data, "deliverTo")) ==> calls == [Fail(400, DeliverToRequired)]
    ensures Truthy(Prop(data, "deliverTo")) && !Truthy(Prop(data, "mobileNumber")) ==>
      calls == [Fail(400, MobileNumberRequired)]
    ensures (Truthy(Prop(data, "deliverTo")) && Truthy(Prop(data, "mobileNumber"))
             && !Truthy(Prop(data, "dishes"))) ==>
      calls == [Fail(400, DishRequired)]
    ensures (Truthy(Prop(data, "deliverTo")) && Truthy(Prop(data, "mobileNumber"))
             && Truthy(Prop(data, "dishes")) && !IsNonEmptyArray(Prop(data, "dishes"))) ==>
      calls == [Fail(400, DishesNotArray)]
    ensures calls == [Continue] <==>
      Truthy(Prop(data, "deliverTo")) && Truthy(Prop(data, "mobileNumber"))
      && IsNonEmptyArray(Prop(data, "dishes"))
  {
    var deliverTo := Prop(data, "deliverTo");
    var mobileNumber := Prop(data, "mobileNumber");
    var dishes := Prop(data, "dishes");
    if !Truthy(deliverTo) then [Fail(400, DeliverToRequired)]
    else if !Truthy(mobileNumber) then [Fail(400, MobileNumberRequired)]
    else if !Truthy(dishes) then [Fail(400, DishRequired)]
    else if !IsNonEmptyArray(dishes) then [Fail(400, DishesNotArray)]
    else [Continue]
  }

  /** `validateDataFields(req, res, next)`: destructure the body, then run
      the guards. It throws only when the body is null or undefined or
      `body.data` is null, and otherwise calls `next` exactly once. */
  function ValidateDataFields(body: Value): (o: Outcome)
    ensures o.Threw? <==> DataOf(body).None?
    ensures o.Calls? ==> |o.calls| == 1
    ensures o == Calls([Continue]) <==>
      DataOf(body).Some? && Truthy(Prop(DataOf(body).value, "deliverTo"))
      && Truthy(Prop(DataOf(body).value, "mobileNumber"))
      && IsNonEmptyArray(Prop(DataOf(body).value, "dishes"))
  {
    match DataOf(body)
    case None => Threw
    case Some(data) => Calls(DataFieldChecks(data))
  }

  /** The same guards as a list of checks, in the order the code runs them. */
  function DataFieldGuards(data: Value): seq<Check>
  {
    var deliverTo := Prop(data, "deliverTo");
    var mobileNumber := Prop(data, "mobileNumber");
    var dishes := Prop(data, "dishes");
    [ Check(!Truthy(deliverTo), 400, DeliverToRequired),
      Check(!Truthy(mobileNumber), 400, MobileNumberRequired),
      Check(!Truthy(dishes), 400, DishRequired),
      Check(!IsNonEmptyArray(dishes), 400, DishesNotArray) ]
  }

  /** `validateDataFields` is exactly a validator that stops at its first
      failing check. */
  lemma DataFieldChecksArePipeline(data: Value)
    ensures DataFieldChecks(data) == Pipeline(DataFieldGuards(data))
  {
    var g := DataFieldGuards(data);
    if g[0].fails {
      PipelineStopsAtFirstFailure(g, 0);
    } else if g[1].fails {
      PipelineStopsAtFirstFailure(g, 1);
    } else if g[2].fails {
      PipelineStopsAtFirstFailure(g, 2);
    } else if g[3].fails {
      PipelineStopsAtFirstFailure(g, 3);
    }
  }

  /** The guards of `validateStatus` on the destructured `data` object, as
      written. A falsy status and an unlisted status each end the guard with
      one 400. Because no `return` follows the "delivered" rejection, the
      status "delivered" makes two calls: the 400 and then a bare `next()`.
      The other three listed statuses make one bare `next()`. */
  function StatusChecks(data: Value): (calls: seq<NextCall>)
    ensures !Truthy(Prop(data, "status")) ==> calls == [Fail(400, StatusRequired)]
    ensures Truthy(Prop(data, "status")) && !IsListedStatus(Prop(data, "status")) ==>
      calls == [Fail(400, StatusInvalid)]
    ensures Prop(data, "status") in [Str("pending"), Str("preparing"), Str("out-for-delivery")] ==>
      calls == [Continue]
    ensures Prop(data, "status") == Str("delivered") ==>
      calls == [Fail(400, DeliveredUnchangeable), Continue]
  {
    var status := Prop(data, "status");
    if !Truthy(status) then [Fail(400, StatusRequired)]
    else if !IsListedStatus(status) then [Fail(400, StatusInvalid)]
    else
      (if status == Str("delivered") then [Fail(400, DeliveredUnchangeable)] else [])
      + [Continue]
  }

  /** `validateStatus(req, res, next)`: destructure the body, then run the
      status guards. */
  function ValidateStatus(body: Value): (o: Outcome)
    ensures o.Threw? <==> DataOf(body).None?
    ensures o.Calls? ==> 1 <= |o.calls| <= 2
    ensures o.Calls? && |o.calls| == 2 ==> Prop(DataOf(body).value, "status") == Str("delivered")
  {
    match DataOf(body)
    case None => Threw
    case Some(data) => Calls(StatusChecks(data))
  }

  /** The status guards as intended: "delivered" is a final
      state, so its rejection stops the guard like every other rejection. */
  function StatusGuards(data: Value): seq<Check>
  {
    var status := Prop(data, "status");
    [ Check(!Truthy(status), 400, StatusRequired),
      Check(!IsListedStatus(status), 400, StatusInvalid),
      Check(status == Str("delivered"), 400, DeliveredUnchangeable) ]
  }

  /** The corrected `validateStatus` guards: exactly one call, and a bare
      `next()` only for pending, preparing and out-for-delivery. */
  function StatusChecksHalting(data: Value): (calls: seq<NextCall>)
    ensures |calls| == 1
    ensures !Truthy(Prop(data, "status")) ==> calls == [Fail(400, StatusRequired)]
    ensures Truthy(Prop(data, "status")) && !IsListedStatus(Prop(data, "status")) ==>
      calls == [Fail(400, StatusInvalid)]
    ensures Prop(data, "status") == Str("delivered") ==> calls == [Fail(400, DeliveredUnchangeable)]
    ensures calls == [Continue] <==>
      Prop(data, "status") in [Str("pending"), Str("preparing"), Str("out-for-delivery")]
  {
    var g := StatusGuards(data);
    if g[0].fails then
      PipelineStopsAtFirstFailure(g, 0);
      Pipeline(g)
    else if g[1].fails then
      PipelineStopsAtFirstFailure(g, 1);
      Pipeline(g)
    else if g[2].fails then
      PipelineStopsAtFirstFailure(g, 2);
      Pipeline(g)
    else
      Pipeline(g)
  }

  /** The code as written differs from the corrected guards only for
      "delivered", where one extra bare `next()` follows the rejection. */
  lemma StatusChecksDifferOnlyOnDelivered(data: Value)
    ensures Prop(data, "status") != Str("delivered") ==>
      StatusChecks(data) == StatusChecksHalting(data)
    ensures Prop(data, "status") == Str("delivered") ==>
      StatusChecks(data) == StatusChecksHalting(data) + [Continue]
  {
  }

  /** A concrete request that shows the double call: a body whose status is
      "delivered" makes `validateStatus` call `next` twice, the second time
      without an error. */
  lemma DeliveredCallsNextTwice()
    ensures ValidateStatus(Obj(map["data" := Obj(map["status" := Str("delivered")])]))
      == Calls([Fail(400, DeliveredUnchangeable), Continue])
  {
  }

  /** `list(req, res)`: responds with the order collection itself. */
  function List(orders: seq<Order>): (reply: Reply<seq<Order>>)
    ensures reply.Json? && reply.status == 200 && reply.data == orders
  {
    Json(200, orders)
  }
}
