# GrubDash request validation core

A Dafny model of the two controllers of the GrubDash restaurant API: the
dishes controller (`src/dishes/dishes.controller.js`) and the orders
controller (`src/orders/orders.controller.js`).

- **Guards.** Each piece of Express middleware is modelled by what it does
  seen from outside: the `next(...)` calls it makes, in order (`Continue` for
  a bare `next()`, `Fail(status, message)` for `next({ status, message })`),
  or `Threw` when destructuring the body throws before any call. Keeping the
  whole sequence of calls exposes the two guards that call `next` twice.
- **Request bodies** are JavaScript values (`JsValues.Value`). `Truthy`
  follows JavaScript, `DataOf` models `const { data: { ... } = {} } = req.body`,
  and `Display` spells a value inside a template literal, or throws.
- **Dish collection.** The module-level `dishes` array is the `seq<Dish>`
  field of the `Dishes.DishStore` class. `create` appends to it. `dishExists`
  writes the dish it finds into `res.locals`, which is the `Dishes.Locals`
  class.
- **Routes.** The three middleware chains in the dishes controller's
  `module.exports` are methods on the store: `PostDish`, `GetDish` and `PutDish`.
- **Reference pipeline.** `Middleware.Pipeline` is a validator that runs an
  ordered list of checks and stops at the first one that fails. Each field
  and status validator is proved equal to it, or shown to differ from it
  exactly where a `return` is missing.

Modules: `JsValues` (js_values.dfy), `Middleware` (middleware.dfy),
`Dishes` (dishes.dfy) and `Orders` (orders.dfy).

Where the intended behaviour of the service and the code differ, the model
follows the code:
- The dish `validateId` rejects a body with no `id`, although a body that
  asserts no id is meant to be accepted.
- The order `validateDataFields` does not store the dishes array in
  `res.locals`.
- The dish `update` handler is empty, although it is meant to replace the
  dish's fields and reply 200 with the updated record.
- The order line-item quantity check, order lookup, the delete-eligibility
  check and the order create, read, update and delete handlers are
  intended for the service but are not in the code. The orders controller
  exports only `list`, and its `create` is a commented-out stub.
- A price that is not a number does not stop the dish validator, and
  "delivered" does not stop the status validator. Both are modelled as
  written and listed under Findings.

## Model

| member | source | states |
|---|---|---|
| JsValues.DataOf | src/dishes/dishes.controller.js:12 | The destructuring throws exactly when the body is null or undefined, or `body.data` is null. An absent (undefined) `data` reads as an empty object. Otherwise the fields are read from `body.data`. |
| JsValues.Display | src/dishes/dishes.controller.js:71 | The template-literal spelling of a value. Primitives never throw. An object throws exactly when it has its own `toString` key, and an array throws exactly when one of its elements does. |
| Middleware.Pipeline | src/orders/orders.controller.js:13-37 | An early-return guard chain makes exactly one `next` call. That call is a bare `next()` exactly when no check fails. |
| Middleware.PipelineStopsAtFirstFailure | src/orders/orders.controller.js:13-36 | The single call carries the status and message of the first failing check. Later checks are not consulted. |
| Middleware.Then | src/dishes/dishes.controller.js:102-104 | In a route, a stage's first call decides. `next()` runs the rest of the route. `next(err)` answers with that error. A thrown exception is caught by the router and answered by the error responder. |
| Dishes.DataFieldChecks | src/dishes/dishes.controller.js:13-49 | Name, then description, then image_url, then price: the first falsy one gives exactly one 400 naming that field. A truthy non-number price gives two calls, the first a 400 "needs to be an integer". A negative number gives exactly one 400 "greater than 0". The first call is a bare `next()` exactly when all three text fields are truthy and the price is a positive number, and then it is the only call. |
| Dishes.ValidateDataFields | src/dishes/dishes.controller.js:11-50 | Throws only for a null or undefined body, or a null `data`. Otherwise it calls `next` at least once, and the first call is a bare `next()` exactly when the fields are valid. |
| Dishes.ZeroPriceReportedAsMissing | src/dishes/dishes.controller.js:31-36 | A price of 0 with all other fields present is reported as "A 'price' field is required", not as "greater than 0". |
| Dishes.DataFieldChecksHalting | src/dishes/dishes.controller.js:37-48 | The corrected guard: exactly one call, a bare `next()` exactly when the fields are valid, and a non-number price rejected once with the integer message. |
| Dishes.DataFieldChecksDifferOnlyOnNonNumberPrice | src/dishes/dishes.controller.js:37-49 | The code as written equals the corrected guard for every input except a truthy non-number price with all other fields present. For that input, the outcome of `price <= 0` adds one more call. |
| Dishes.NonNumberPriceCallsNextTwice | src/dishes/dishes.controller.js:37-49 | For the body price "12", `validateDataFields` calls `next` with the integer error and then calls a bare `next()`. |
| Dishes.ValidateId | src/dishes/dishes.controller.js:65-75 | Throws exactly when the destructuring throws, or when the body id differs from the route id and spelling it in the message throws (an object with its own `toString` key, or an array holding one). Otherwise exactly one call. It is a bare `next()` exactly when the body id is the very string of the route id, so an absent id fails. A failure is a 400 whose message contains both the body id's spelling and the route id. |
| Dishes.ObjectIdWithToStringThrows | src/dishes/dishes.controller.js:68-72 | For route id "5" and the body id `{ toString: 0 }`, `validateId` throws instead of answering 400. |
| Dishes.FindDish | src/dishes/dishes.controller.js:54 | Nothing is found exactly when no dish has the id. Otherwise the result is the first dish in collection order with that id. |
| Dishes.NewDish | src/dishes/dishes.controller.js:83-89 | The new record carries the fresh id. It is well-formed (text fields present, positive number price) exactly when the body's fields pass validation. |
| Dishes.Locals.constructor | src/dishes/dishes.controller.js:61 | A request's `res.locals` starts with no dish. |
| Dishes.DishStore.constructor | src/dishes/dishes.controller.js:4 | The collection starts as the given initial data. |
| Dishes.DishStore.List | src/dishes/dishes.controller.js:77-79 | Replies 200 with the whole collection, in order. |
| Dishes.DishStore.DishExists | src/dishes/dishes.controller.js:52-63 | Exactly one call. An unknown id gives a 404 "Dish id not found: " followed by the id, and `locals` is untouched. Otherwise the call is a bare `next()` and `locals.dish` is the first dish with that id. The collection never changes. |
| Dishes.DishStore.Create | src/dishes/dishes.controller.js:81-92 | The collection grows by exactly one and earlier entries are unchanged. The last entry has the fresh id and the body's name, description, price and image_url. The reply is 201 with that record. A null or undefined body, or a null `data`, throws and changes nothing. |
| Dishes.DishStore.Read | src/dishes/dishes.controller.js:94-96 | Replies 200 with the dish left in `locals`. |
| Dishes.DishStore.Update | src/dishes/dishes.controller.js:98 | Changes nothing and sends no reply. |
| Dishes.DishStore.PostDish | src/dishes/dishes.controller.js:102 | A dish is appended, with a 201, exactly when the body's fields are valid. Otherwise the collection is unchanged and the reply is the validator's first 400. So a collection of well-formed dishes stays well-formed. |
| Dishes.DishStore.GetDish | src/dishes/dishes.controller.js:103 | An unknown id gives a 404 naming it. Otherwise `locals.dish` is set to the first dish carrying the id and the reply is 200 with it. An unknown id leaves `locals` untouched. The collection never changes. |
| Dishes.DishStore.PutDish | src/dishes/dishes.controller.js:104 | An unknown id gives a 404 and leaves `locals` untouched; a known id sets `locals.dish` to its first dish. Then a body id mismatch gives a 400 naming both ids, or is answered by the error responder when spelling the body id throws. Then invalid fields give the validator's first 400. A request that passes every stage gets no reply, because the handler is empty. The collection never changes. |
| Orders.DataFieldChecks | src/orders/orders.controller.js:13-37 | deliverTo, then mobileNumber, then dishes: the first falsy one gives exactly one 400 with its "Order must include a ..." message. A truthy dishes value that is not an array, or is an empty array, gives one 400 "needs to be an array". Otherwise there is exactly one bare `next()`. Line items are never inspected. |
| Orders.ValidateDataFields | src/orders/orders.controller.js:11-38 | Throws only for a null or undefined body, or a null `data`. Otherwise it makes exactly one call, a bare `next()` exactly when deliverTo and mobileNumber are truthy and dishes is a non-empty array. |
| Orders.DataFieldChecksArePipeline | src/orders/orders.controller.js:11-38 | The order field guard equals the halting pipeline of its four checks, in source order, for every input. |
| Orders.StatusChecks | src/orders/orders.controller.js:42-62 | A falsy status gives one 400 "A 'status' field is required". A truthy status outside the four listed gives one 400 with the enumerated message (spelled "out-for-deliver"). Pending, preparing and out-for-delivery give one bare `next()`. "delivered" gives a 400 "A delivered order cannot be changed" and then a bare `next()`. |
| Orders.ValidateStatus | src/orders/orders.controller.js:40-63 | Throws only for a null or undefined body, or a null `data`. Otherwise it makes one or two calls, and two only for "delivered". |
| Orders.StatusChecksHalting | src/orders/orders.controller.js:56-61 | The corrected guard: exactly one call, a bare `next()` exactly for pending, preparing and out-for-delivery, and a single 400 for "delivered". |
| Orders.StatusChecksDifferOnlyOnDelivered | src/orders/orders.controller.js:56-62 | The code as written equals the corrected guard for every status except "delivered". There it adds one trailing bare `next()`. |
| Orders.DeliveredCallsNextTwice | src/orders/orders.controller.js:56-62 | For the body status "delivered", `validateStatus` calls `next` with the 400 and then calls a bare `next()`. |
| Orders.List | src/orders/orders.controller.js:65-67 | Replies 200 with the order collection unchanged. |

## Findings

| source | as written | input that shows it | evidently intended | confidence | as-written member | corrected member |
|---|---|---|---|---|---|---|
| src/dishes/dishes.controller.js:37-42 | no `return` after the "needs to be an integer" error, so the guard goes on to `price <= 0` and calls `next` again | body `{ data: { name: "Soup", description: "Hot", image_url: "soup.png", price: "12" } }` gives the 400 and then a bare `next()` | a non-number price ends the guard with one 400 | high; not executed | Dishes.NonNumberPriceCallsNextTwice | Dishes.DataFieldChecksHalting |
| src/orders/orders.controller.js:56-61 | no `return` after "A delivered order cannot be changed", so a bare `next()` follows the error | body `{ data: { status: "delivered" } }` gives the 400 and then a bare `next()` | "delivered" is a final state: one 400 and nothing more | high; not executed | Orders.DeliveredCallsNextTwice | Orders.StatusChecksHalting |

The route methods act on each stage's first call. The corrected guards make
that same first call on every input (`Dishes.DataFieldChecksDifferOnlyOnNonNumberPrice`,
`Orders.StatusChecksDifferOnlyOnDelivered`), so the routes behave as the
corrected guards would.

## Left out

- Dishes.DishStore.PostDish, GetDish and PutDish: only the first `next` call of each stage is followed. A second call from the same stage belongs to the framework's router and is not modelled.
- Dishes.DataFieldChecks: JavaScript's `price <= 0` for a price that is not a number (string-to-number coercion, NaN) is not computed. Its result is the `looseLeqZero` parameter. That comparison can also throw, after the integer error has been passed to `next`: a price that is an object with its own `toString` key, or an array holding one, has no primitive value. The model then gives the second call from `looseLeqZero` instead of the throw. The routes follow only the first call, so their replies are unaffected.
- Numbers are unbounded integers. Fractional prices, NaN and -0 are not modelled, nor are the double range and the exponent spelling JavaScript uses for large numbers (a huge numeric body id is spelled in full decimal in the `validateId` message).
- The id generator `nextId` and the dish and order data modules are not part of this model. The fresh id is a parameter, and the initial collections are inputs.
- `req`, `res`, `res.status().json()` and the central error responder are framework plumbing. A reply is a `Middleware.Reply` value: JSON data, the error responder's answer to `next(err)`, the error responder's answer to an exception the router caught, or no reply. The error responder itself is not part of this model, so the status and message it gives a thrown TypeError are not modelled.
- JsValues.Prop reads only an object's own keys. None of the fields the controllers read is a property of a primitive or an array.
- `list` hands out the live `dishes` array. Here it is a copy of the sequence, so aliasing between the reply and later appends is not modelled.
- The orders controller's validators are not wired into any route, because its exports hold only `list`. They are modelled on their own.
- Order quantity validation, order lookup, the delete-eligibility check and the order create, update and delete handlers are absent from the code, so they are not modelled.
- Concurrent requests are not modelled. Each method runs one request's stage to completion.
