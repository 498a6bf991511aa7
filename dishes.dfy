/** The dishes controller: the request guards, the in-memory dish
    collection with its handlers, and the three routes built from them. */
module Dishes {
  import opened JsValues
  import opened Middleware

  const NameRequired := "A 'name' field is required"
  const DescriptionRequired := "A 'description' field is required"
  const ImageUrlRequired := "A 'image_url' field is required"
  const PriceRequired := "A 'price' field is required"
  const PriceNotInteger := "The 'price' field needs to be an integer"
  const PriceNotPositive := "The 'price' field needs to be greater than 0"
  const IdMismatchPrefix := "Body id does not match route id: "
  const NotFoundPrefix := "Dish id not found: "

  /** A dish record: the id is a string, the other fields hold whatever the
      request body carried. */
  datatype Dish = Dish(id: string, name: Value, description: Value, price: Value, image_url: Value)

  /** A dish as the data model wants it: every text field present and a
      positive numeric price. */
  predicate WellFormed(dish: Dish)
  {
    && Truthy(dish.name) && Truthy(dish.description) && Truthy(dish.image_url)
    && dish.price.Num? && dish.price.n > 0
  }

  /** The destructured body passes every field check. */
  predicate ValidFields(data: Value)
  {
    && Truthy(Prop(data, "name")) && Truthy(Prop(data, "description"))
    && Truthy(Prop(data, "image_url"))
    && Prop(data, "price").Num? && Prop(data, "price").n > 0
  }

  /** JavaScript's `price <= 0` for a number price; for any other price the
      result of the coercing comparison is supplied by the caller. */
  predicate PriceAtMostZero(price: Value, looseLeqZero: bool)
  {
    if price.Num? then price.n <= 0 else looseLeqZero
  }

  /** The guards of `validateDataFields` on the destructured `data` object,
      as written. The first falsy field among name, description, image_url
      and price ends the guard with one 400 naming it, so a price of 0 is
      reported as missing. A truthy price that is not a number is reported,
      but no `return` follows, so the comparison with 0 still runs and a
      second call follows. A truthy numeric price gives one call: a 400 when
      it is negative, a bare `next()` when it is positive. */
  function DataFieldChecks(data: Value, looseLeqZero: bool): (calls: seq<NextCall>)
    ensures calls != []
    ensures !Truthy(Prop(data, "name")) ==> calls == [Fail(400, NameRequired)]
    ensures (Truthy(Prop(data, "name")) && !Truthy(Prop(data, "description"))) ==>
      calls == [Fail(400, DescriptionRequired)]
    ensures (Truthy(Prop(data, "name")) && Truthy(Prop(data, "description"))
             && !Truthy(Prop(data, "image_url"))) ==>
      calls == [Fail(400, ImageUrlRequired)]
    ensures (Truthy(Prop(data, "name")) && Truthy(Prop(data, "description"))
             && Truthy(Prop(data, "image_url")) && !Truthy(Prop(data, "price"))) ==>
      calls == [Fail(400, PriceRequired)]
    ensures (Truthy(Prop(data, "name")) && Truthy(Prop(data, "description"))
             && Truthy(Prop(data, "image_url")) && Truthy(Prop(data, "price"))
             && !Prop(data, "price").Num?) ==>
      |calls| == 2 && calls[0] == Fail(400, PriceNotInteger)
    ensures (Truthy(Prop(data, "name")) && Truthy(Prop(data, "description"))
             && Truthy(Prop(data, "image_url")) && Prop(data, "price").Num?
             && Prop(data, "price").n < 0) ==>
      calls == [Fail(400, PriceNotPositive)]
    ensures calls[0] == Continue <==> ValidFields(data)
    ensures ValidFields(data) ==> calls == [Continue]
  {
    var name := Prop(data, "name");
    var description := Prop(data, "description");
    var imageUrl := Prop(data, "image_url");
    var price := Prop(data, "price");
    if !Truthy(name) then [Fail(400, NameRequired)]
    else if !Truthy(description) then [Fail(400, DescriptionRequired)]
    else if !Truthy(imageUrl) then [Fail(400, ImageUrlRequired)]
    else if !Truthy(price) then [Fail(400, PriceRequired)]
    else
      (if !price.Num? then [Fail(400, PriceNotInteger)] else [])
      + (if PriceAtMostZero(price, looseLeqZero) then [Fail(400, PriceNotPositive)] else [Continue])
  }

  /** `validateDataFields(req, res, next)`: destructure the body, then run
      the guards; the first call is a bare `next()` exactly when the body's
      fields are valid. */
  function ValidateDataFields(body: Value, looseLeqZero: bool): (o: Outcome)
    ensures o.Threw? <==> DataOf(body).None?
    ensures o.Calls? ==> o.calls != []
    ensures o.Calls? ==> (o.calls[0] == Continue <==> ValidFields(DataOf(body).value))
  {
    match DataOf(body)
    case None => Threw
    case Some(data) => Calls(DataFieldChecks(data, looseLeqZero))
  }

  /** A price of 0 is falsy, so it is reported as missing rather than as not
      greater than 0. */
  lemma ZeroPriceReportedAsMissing(data: Value, looseLeqZero: bool)
    requires Truthy(Prop(data, "name")) && Truthy(Prop(data, "description"))
    requires Truthy(Prop(data, "image_url"))
    requires Prop(data, "price") == Num(0)
    ensures DataFieldChecks(data, looseLeqZero) == [Fail(400, PriceRequired)]
  {
  }

  /** The field guards as intended: a validator that stops at
      its first failing check, the non-numeric price included. */
  function DataFieldGuards(data: Value): seq<Check>
  {
    var price := Prop(data, "price");
    [ Check(!Truthy(Prop(data, "name")), 400, NameRequired),
      Check(!Truthy(Prop(data, "description")), 400, DescriptionRequired),
      Check(!Truthy(Prop(data, "image_url")), 400, ImageUrlRequired),
      Check(!Truthy(price), 400, PriceRequired),
      Check(!price.Num?, 400, PriceNotInteger),
      Check(price.Num? && price.n <= 0, 400, PriceNotPositive) ]
  }

  /** The corrected field guards: exactly one call, a bare `next()` exactly
      when the fields are valid, and a non-numeric price rejected once. */
  function DataFieldChecksHalting(data: Value): (calls: seq<NextCall>)
    ensures |calls| == 1
    ensures calls == [Continue] <==> ValidFields(data)
    ensures (Truthy(Prop(data, "name")) && Truthy(Prop(data, "description"))
             && Truthy(Prop(data, "image_url")) && Truthy(Prop(data, "price"))
             && !Prop(data, "price").Num?) ==>
      calls == [Fail(400, PriceNotInteger)]
  {
    var g := DataFieldGuards(data);
    // The fields are valid exactly when none of the six guards fails.
    assert ValidFields(data) <==> !g[0].fails && !g[1].fails && !g[2].fails && !g[3].fails && !g[4].fails && !g[5].fails;
    // A present, non-numeric price is first rejected by guard 4.
    if g[4].fails && !g[0].fails && !g[1].fails && !g[2].fails && !g[3].fails then
      PipelineStopsAtFirstFailure(g, 4);
      Pipeline(g)
    else
      Pipeline(g)
  }

  /** The code as written agrees with the corrected guards except when every
      field is present and the price is not a number: then the integer error
      is followed by the outcome of the coercing comparison with 0. */
  lemma {:induction false} DataFieldChecksDifferOnlyOnNonNumberPrice(data: Value, looseLeqZero: bool)
    ensures (Truthy(Prop(data, "name")) && Truthy(Prop(data, "description"))
             && Truthy(Prop(data, "image_url")) && Truthy(Prop(data, "price"))
             && !Prop(data, "price").Num?) ==>
      DataFieldChecks(data, looseLeqZero) == DataFieldChecksHalting(data)
        + [if looseLeqZero then Fail(400, PriceNotPositive) else Continue]
    ensures !(Truthy(Prop(data, "name")) && Truthy(Prop(data, "description"))
              && Truthy(Prop(data, "image_url")) && Truthy(Prop(data, "price"))
              && !Prop(data, "price").Num?) ==>
      DataFieldChecks(data, looseLeqZero) == DataFieldChecksHalting(data)
  {
    var g := DataFieldGuards(data);
    if g[0].fails {
      PipelineStopsAtFirstFailure(g, 0);
    } else if g[1].fails {
      PipelineStopsAtFirstFailure(g, 1);
    } else if g[2].fails {
      PipelineStopsAtFirstFailure(g, 2);
    } else if g[3].fails {
      PipelineStopsAtFirstFailure(g, 3);
    } else if g[4].fails {
      PipelineStopsAtFirstFailure(g, 4);
    } else if g[5].fails {
      PipelineStopsAtFirstFailure(g, 5);
    }
  }

  /** A concrete request that shows the double call: price "12" is truthy
      and not a number, and JavaScript evaluates `"12" <= 0` to false, so
      the integer error is followed by a bare `next()`. */
  lemma NonNumberPriceCallsNextTwice()
    ensures ValidateDataFields(
      Obj(map["data" := Obj(map["name" := Str("Soup"), "description" := Str("Hot"),
                                "image_url" := Str("soup.png"), "price" := Str("12")])]),
      false) == Calls([Fail(400, PriceNotInteger), Continue])
  {
  }

  /** `validateId(req, res, next)`: the body's id must be the very string
      the route carries; an absent id fails too. A mismatch is one 400 whose
      message shows the body id and then the route id, unless spelling the
      body id in that message throws. */
  function ValidateId(dishId: string, body: Value): (o: Outcome)
    ensures o.Threw? <==>
      DataOf(body).None? || Display(Prop(DataOf(body).value, "id")).None?
    ensures o.Calls? ==> |o.calls| == 1
    ensures o.Calls? ==> (o.calls == [Continue] <==> Prop(DataOf(body).value, "id") == Str(dishId))
    ensures o.Calls? && o.calls[0].Fail? ==>
      && o.calls[0].status == 400
      && Contains(o.calls[0].message, Display(Prop(DataOf(body).value, "id")).value)
      && Contains(o.calls[0].message, dishId)
  {
    match DataOf(body)
    case None => Threw
    case Some(data) =>
      var id := Prop(data, "id");
      if id == Str(dishId) then
        Calls([Continue])
      else
        match Display(id)
        case None => Threw
        case Some(shown) =>
          var message := IdMismatchPrefix + shown + ", " + dishId;
          assert OccursAt(message, shown, |IdMismatchPrefix|);
          assert OccursAt(message, dishId, |IdMismatchPrefix| + |shown| + 2);
          Calls([Fail(400, message)])
  }

  /** A concrete request that shows the throw: a body id that is an object
      with its own `toString` key never equals the route id, and spelling it
      in the mismatch message throws a TypeError instead of the 400. */
  lemma ObjectIdWithToStringThrows()
    ensures ValidateId("5", Obj(map["data" := Obj(map["id" := Obj(map["toString" := Num(0)])])]))
      == Threw
  {
  }

  /** `dishes.find((dish) => dish.id === dishId)`: the first dish in
      collection order with that id, if any. */
  function FindDish(dishes: seq<Dish>, dishId: string): (r: Option<Dish>)
    ensures r.None? <==> forall i | 0 <= i < |dishes| :: dishes[i].id != dishId
    ensures r.Some? ==> exists k :: IsFirstWithId(dishes, dishId, k) && r.value == dishes[k]
  {
    if dishes == [] then None
    else if dishes[0].id == dishId then
      assert IsFirstWithId(dishes, dishId, 0);
      Some(dishes[0])
    else
      var r := FindDish(dishes[1..], dishId);
      assert forall i | 1 <= i < |dishes| :: dishes[i] == dishes[1..][i - 1];
      if r.Some? then
        var k :| IsFirstWithId(dishes[1..], dishId, k) && r.value == dishes[1..][k];
        assert IsFirstWithId(dishes, dishId, k + 1);
        r
      else
        r
  }

  /** Dish `k` has the id, and no earlier dish has it. */
  predicate IsFirstWithId(dishes: seq<Dish>, dishId: string, k: int)
  {
    && 0 <= k < |dishes|
    && dishes[k].id == dishId
    && forall j | 0 <= j < k :: dishes[j].id != dishId
  }

  /** The record `create` builds from the destructured body and a fresh id. */
  function NewDish(id: string, data: Value): (dish: Dish)
    ensures dish.id == id
    ensures WellFormed(dish) <==> ValidFields(data)
  {
    Dish(id, Prop(data, "name"), Prop(data, "description"), Prop(data, "price"), Prop(data, "image_url"))
  }

  ghost predicate AllWellFormed(dishes: seq<Dish>)
  {
    forall i | 0 <= i < |dishes| :: WellFormed(dishes[i])
  }

  /** `res.locals` of one request: where `dishExists` leaves the dish it found. */
  class Locals {
    var dish: Option<Dish>

    constructor ()
      ensures dish == None
    {
      dish := None;
    }
  }

  /** The module-level `dishes` array and the handlers that use it. The
      initial contents come from the dish data module, and fresh ids from
      the id generator; both are parameters here. */
  class DishStore {
    var dishes: seq<Dish>

    constructor (initial: seq<Dish>)
      ensures dishes == initial
    {
      dishes := initial;
    }

    /** `list(req, res)`: the whole collection, in order. */
    method List() returns (reply: Reply<seq<Dish>>)
      ensures reply.Json? && reply.status == 200 && reply.data == dishes
    {
      reply := Json(200, dishes);
    }

    /** `dishExists(req, res, next)`: one call either way. Not found is a
        404 naming the id; found leaves the first dish with that id in
        `locals`. The collection is never changed. */
    method DishExists(dishId: string, locals: Locals) returns (calls: seq<NextCall>)
      modifies locals
      ensures unchanged(this)
      ensures FindDish(dishes, dishId).None? ==>
        calls == [Fail(404, NotFoundPrefix + dishId)] && locals.dish == old(locals.dish)
      ensures FindDish(dishes, dishId).Some? ==>
        calls == [Continue] && locals.dish == FindDish(dishes, dishId)
    {
      var found := FindDish(dishes, dishId);
      if found.None? {
        calls := [Fail(404, NotFoundPrefix + dishId)];
        return;
      }
      locals.dish := found;
      calls := [Continue];
    }

    /** `create(req, res)`: append a new dish built from the body and the
        fresh id, and reply 201 with it. Earlier entries stay as they were.
        A null or missing body makes the destructuring throw first. */
    method Create(body: Value, freshId: string) returns (reply: Reply<Dish>)
      modifies this
      ensures DataOf(body).None? ==> reply == ThrownToErrorResponder && dishes == old(dishes)
      ensures DataOf(body).Some? ==>
        && |dishes| == |old(dishes)| + 1
        && dishes[..|old(dishes)|] == old(dishes)
        && dishes[|dishes| - 1] == NewDish(freshId, DataOf(body).value)
        && reply == Json(201, dishes[|dishes| - 1])
    {
      match DataOf(body)
      case None =>
        reply := ThrownToErrorResponder;
      case Some(data) =>
        var dish := NewDish(freshId, data);
        dishes := dishes + [dish];
        reply := Json(201, dish);
    }

    /** `read(req, res)`: reply with the dish `dishExists` left behind. */
    method Read(locals: Locals) returns (reply: Reply<Option<Dish>>)
      ensures reply.Json? && reply.status == 200 && reply.data == locals.dish
    {
      reply := Json(200, locals.dish);
    }

    /** `update(req, res)`: its body is empty, so it changes nothing and
        sends no reply. */
    method Update(body: Value, locals: Locals) returns (reply: Reply<Dish>)
      ensures reply.NoReply?
    {
      reply := NoReply;
    }

    /** The create route, `[validateDataFields, create]`. A dish is appended
        exactly when the body's fields are valid, so a collection of
        well-formed dishes stays well-formed. */
    method PostDish(body: Value, freshId: string, looseLeqZero: bool) returns (reply: Reply<Dish>)
      modifies this
      ensures DataOf(body).None? ==> reply == ThrownToErrorResponder && dishes == old(dishes)
      ensures DataOf(body).Some? && !ValidFields(DataOf(body).value) ==>
        && dishes == old(dishes)
        && reply.ErrorReply? && reply.status == 400
        && Fail(400, reply.message) == DataFieldChecks(DataOf(body).value, looseLeqZero)[0]
      ensures DataOf(body).Some? && ValidFields(DataOf(body).value) ==>
        && dishes == old(dishes) + [NewDish(freshId, DataOf(body).value)]
        && reply == Json(201, NewDish(freshId, DataOf(body).value))
      ensures AllWellFormed(old(dishes)) ==> AllWellFormed(dishes)
    {
      var checked := ValidateDataFields(body, looseLeqZero);
      if checked.Threw? {
        reply := ThrownToErrorResponder;
      } else if checked.calls[0] == Continue {
        reply := Create(body, freshId);
        assert dishes == old(dishes) + [NewDish(freshId, DataOf(body).value)];
      } else {
        reply := Then(checked, NoReply);
      }
    }

    /** The read route, `[dishExists, read]`: 404 for an unknown id,
        otherwise 200 with the first dish carrying it. */
    method GetDish(dishId: string, locals: Locals) returns (reply: Reply<Option<Dish>>)
      modifies locals
      ensures unchanged(this)
      ensures FindDish(dishes, dishId).None? ==> reply == ErrorReply(404, NotFoundPrefix + dishId)
      ensures FindDish(dishes, dishId).Some? ==> reply == Json(200, FindDish(dishes, dishId))
      ensures FindDish(dishes, dishId).None? ==> locals.dish == old(locals.dish)
      ensures FindDish(dishes, dishId).Some? ==> locals.dish == FindDish(dishes, dishId)
    {
      var calls := DishExists(dishId, locals);
      if calls[0] == Continue {
        reply := Read(locals);
      } else {
        reply := ErrorReply(404, NotFoundPrefix + dishId);
      }
    }

    /** The update route, `[dishExists, validateId, validateDataFields,
        update]`: the first failing or throwing stage answers; when all pass,
        the empty handler leaves the request without a reply. The collection
        is never changed. */
    method PutDish(dishId: string, body: Value, looseLeqZero: bool, locals: Locals)
      returns (reply: Reply<Dish>)
      modifies locals
      ensures unchanged(this)
      ensures FindDish(dishes, dishId).None? ==> reply == ErrorReply(404, NotFoundPrefix + dishId)
      ensures FindDish(dishes, dishId).None? ==> locals.dish == old(locals.dish)
      ensures FindDish(dishes, dishId).Some? ==> locals.dish == FindDish(dishes, dishId)
      ensures FindDish(dishes, dishId).Some? && DataOf(body).None? ==> reply == ThrownToErrorResponder
      ensures (FindDish(dishes, dishId).Some? && DataOf(body).Some?
               && Prop(DataOf(body).value, "id") != Str(dishId)
               && Display(Prop(DataOf(body).value, "id")).None?) ==>
        reply == ThrownToErrorResponder
      ensures (FindDish(dishes, dishId).Some? && DataOf(body).Some?
               && Prop(DataOf(body).value, "id") != Str(dishId)
               && Display(Prop(DataOf(body).value, "id")).Some?) ==>
        && reply.ErrorReply? && reply.status == 400
        && Contains(reply.message, Display(Prop(DataOf(body).value, "id")).value)
        && Contains(reply.message, dishId)
      ensures (FindDish(dishes, dishId).Some? && DataOf(body).Some?
               && Prop(DataOf(body).value, "id") == Str(dishId)
               && !ValidFields(DataOf(body).value)) ==>
        && reply.ErrorReply? && reply.status == 400
        && Fail(400, reply.message) == DataFieldChecks(DataOf(body).value, looseLeqZero)[0]
      ensures (FindDish(dishes, dishId).Some? && DataOf(body).Some?
               && Prop(DataOf(body).value, "id") == Str(dishId)
               && ValidFields(DataOf(body).value)) ==>
        reply == NoReply
    {
      var calls := DishExists(dishId, locals);
      if calls[0] != Continue {
        reply := ErrorReply(404, NotFoundPrefix + dishId);
        return;
      }
      var idChecked := ValidateId(dishId, body);
      if idChecked.Threw? || idChecked.calls[0] != Continue {
        reply := Then(idChecked, NoReply);
        return;
      }
      var fieldsChecked := ValidateDataFields(body, looseLeqZero);
      if fieldsChecked.Threw? || fieldsChecked.calls[0] != Continue {
        reply := Then(fieldsChecked, NoReply);
        return;
      }
      reply := Update(body, locals);
    }
  }
}
