# GrubDash controllers in Dafny

A model of the two Express controllers of GrubDash, a small restaurant
ordering backend: `src/dishes/dishes.controller.js` and
`src/orders/orders.controller.js`. Each controller exports chains of
middleware over a module-level array: validators that either call `next()`
or `next({status, message})`, an existence stage that looks a record up by
the route id, and a terminal action that lists, creates, reads, updates or
deletes.

The model:

- `js.dfy` (module `Js`): the JSON values a request body can hold
  (`undefined` for a missing property, `null`, booleans, integers, a single
  variant for non-integer numbers, strings, arrays, objects), JavaScript
  truthiness, `Number.isInteger`, and property reads, which throw a
  TypeError on `undefined` and `null`. `Readable(body)` says that
  `const { data: { … } = {} } = req.body` can be evaluated.
- `chain.dfy` (module `Chain`): the failure messages, a stage's outcome
  (`Pass`, `Fail(status, message)` or `Throw`), the response datatype, the
  first-failure runner `Run`, and the two stages both controllers share:
  `bodyDataHas(field)` and the `.length` checks.
- `orders.dfy` (module `Orders`): `dishesIsValid`, `statusIsValid`, the
  create and update chains, `orderExists`, the effect of each exported
  chain as a pure function from the old store to the new store and the
  response (`CreateStep`, `UpdateStep`, `DeleteStep`), and the class
  `OrderStore`, whose methods change the `orders` sequence in place and are
  proved equal to those functions.
- `dishes.dfy` (module `Dishes`): the same for dishes; the create and
  update chains run the same eight validators.
- `orders_properties.dfy`, `dishes_properties.dfy`: what the controllers
  guarantee, proved over the model.

Each chain is modelled by the sequence of its stages' outcomes. Stages are
pure, so running them all and taking the first that does not pass gives
what the middleware does when it stops at the first failure.

Three behaviours of the code are modelled as written:

- `destroy` locates its order with `orders.findIndex((order) => (order.id
  = orderId))` (src/orders/orders.controller.js:158). The callback assigns
  instead of comparing. It renames the first order to the route id and
  returns that id, so the search always stops at index 0. `destroy` then
  looks at the first order's status and removes the first order, whichever
  order `orderExists` found. `DeleteRemovesFirstOrderInstead` and
  `DeleteDuplicatesIdOnFailure` show what this does on two orders. With an
  empty route id every order is renamed and the request throws
  (`DeleteWithEmptyIdThrows`). Express never routes an empty `:orderId` to
  `destroy` (a route parameter matches at least one character), and the
  handler also needs an order whose id is `""` to get past `orderExists`,
  so this path is reached only when the handler is called directly.
- Within the model, two inputs make a stage throw a TypeError rather than
  fail with 400: a
  body whose `data` is `null` (the destructuring default at
  src/orders/orders.controller.js:19 and src/dishes/dishes.controller.js:17
  applies only to `undefined`), and a `dishes` array holding a `null` line
  item ahead of any invalid one (`dish.quantity` at
  src/orders/orders.controller.js:57-59). The model reports this as
  `Throw` / `Thrown`. A `null` field is not such a case: its presence
  stage fails with 400 before its `.length` stage is reached
  (`Chain.PresentFieldHasLengthOrFails`). The code can also throw while
  converting an object to a primitive, which the model does not capture
  (see "Left out").
- The delivered guard of order update looks at the SUBMITTED status, not
  the stored one (`DeliveredOrderCanStillBeEdited`), and create stores
  whatever status it is sent (`CreateAcceptsAnyStatus`).

Inputs that come from outside are parameters: the request body (a `Value`),
the route id (a `string`), the id `nextId()` would hand out, and the seed
data a store starts from.

## Model

| member | source | states |
|---|---|---|
| Js.NonZeroLengthCases | src/dishes/dishes.controller.js:26-59 | a string or an array has a truthy `length` exactly when it is non-empty; numbers, booleans, `null` and `undefined` never do |
| Js.MissingDataReadsUndefined | src/orders/orders.controller.js:19 | a body without `data` destructures to `{}`, so every field reads as `undefined` and nothing throws |
| Chain.FirstFailing | src/orders/orders.controller.js:183-194 | the position returned is the first stage that does not pass; every stage before it passes |
| Chain.Run | src/orders/orders.controller.js:171-196 | a chain passes exactly when all its stages pass; otherwise its outcome is that of a failing stage all of whose predecessors passed |
| Chain.RunReportsFirstFailure | src/dishes/dishes.controller.js:128-154 | whichever stage fails first decides the chain's outcome |
| Chain.BodyDataHas | src/orders/orders.controller.js:17-24 | passes iff `data[field]` is truthy, fails with 400 "must include <field>" otherwise, throws iff the body or its `data` is `null` |
| Chain.BodyDataHasWithoutData | src/dishes/dishes.controller.js:15-23 | with `data` absent every presence stage fails with 400 naming the field; with `data: null` it throws |
| Chain.HasLength | src/orders/orders.controller.js:28-49 | the `.length` stages pass iff the field has a non-zero length, fail with 400 "must include <field>" otherwise, and throw iff the field is `null` or `undefined` |
| Chain.IdConflicts | src/orders/orders.controller.js:134 | a missing or falsy body id, or one equal to the route id, never conflicts; `!==` is strict, so a non-zero numeric id always conflicts; a string id conflicts iff it is non-empty and differs from the route id (the same guard as src/dishes/dishes.controller.js:113) |
| Chain.PresentFieldHasLengthOrFails | src/dishes/dishes.controller.js:26-59 | after its presence stage passed, a `.length` stage never throws |
| Orders.QuantityIsBad | src/orders/orders.controller.js:57-61 | the callback flags a line item exactly when its quantity is not a positive integer |
| Orders.ScanQuantities | src/orders/orders.controller.js:57-62 | the search finds no item iff every item is valid; otherwise it stops at the first invalid item, reporting its index, or throwing when that item is `null` |
| Orders.DishesIsValid | src/orders/orders.controller.js:52-74 | passes iff `dishes` is a non-empty array of valid line items; fails with "at least one dish" iff it is not a non-empty array; otherwise names the smallest invalid index, or throws on a `null` item |
| Orders.StatusIsValid | src/orders/orders.controller.js:77-91 | passes exactly the four status strings; everything else fails with 400 |
| Orders.CreateChain | src/orders/orders.controller.js:173-181 | the create chain passes only bodies that can be destructured |
| Orders.UpdateChain | src/orders/orders.controller.js:183-194 | the update chain passes only bodies that can be destructured |
| Orders.FindOrder | src/orders/orders.controller.js:108-119 | finds the first order whose id equals the route id, or reports that no order has it |
| Orders.CreateStep | src/orders/orders.controller.js:94-105 | an accepted create pushes exactly one order carrying the new id and answers 201 with it; any refusal leaves the store unchanged (contents and status: `CreateAppendsOneOrder`, `CreatePreservesWellFormed`) |
| Orders.UpdateStep | src/orders/orders.controller.js:127-153 | update keeps the store's length and every id; a success changes only the found order and answers 200 with it; every refusal leaves the store unchanged (which refusal: `UnknownIdIsNotFound`, `UpdateReportsChainFailure`, `UpdateRejectsOtherId`, `UpdateRejectsDelivered`, `DeliveredIsNeverApplied`, `UpdateOverwritesFoundOrder`) |
| Orders.DeleteStep | src/orders/orders.controller.js:156-169 | delete answers 404, 400 "not pending", 204 or a thrown TypeError; only 204 removes an order, and exactly one; an unknown id leaves the store unchanged (which order: `DeleteInspectsFirstOrder`, `DeleteWithEmptyIdThrows`, `DeletePreservesWellFormed`) |
| Orders.FindIndexAssigning | src/orders/orders.controller.js:158 | the search leaves as many orders as it found and returns -1 or a position in range |
| Orders.OrderStore.constructor | src/orders/orders.controller.js:4 | the store starts from the seed orders |
| Orders.OrderStore.List | src/orders/orders.controller.js:12-14 | returns all orders, in order, and changes nothing |
| Orders.OrderStore.Create | src/orders/orders.controller.js:94-105 | the new store and the response are those of `CreateStep` |
| Orders.OrderStore.Read | src/orders/orders.controller.js:121-124 | returns the found order with 200, or 404 naming the id, and changes nothing |
| Orders.OrderStore.Update | src/orders/orders.controller.js:127-153 | the new store and the response are those of `UpdateStep` |
| Orders.OrderStore.FindIndexRenaming | src/orders/orders.controller.js:158 | the loop leaves the store and the index that `FindIndexAssigning` describes |
| Orders.OrderStore.Delete | src/orders/orders.controller.js:156-169 | the new store and the response are those of `DeleteStep` |
| Js.NonZeroLengthIsTruthy | src/orders/orders.controller.js:28-49 | a value of non-zero length is truthy, so it has passed its presence stage |
| OrdersProperties.FalsyFieldIsReportedMissing | src/orders/orders.controller.js:20-23 | a field equal to 0, "", false or null is reported missing with 400 |
| OrdersProperties.CreateChainAccepts | src/orders/orders.controller.js:173-181 | the create chain passes exactly the payloads with deliverTo and mobileNumber of non-zero length and valid line items |
| OrdersProperties.CreateReportsFirstMissing | src/orders/orders.controller.js:173-181 | with several fields missing, create reports the first in the order deliverTo, mobileNumber, dishes |
| OrdersProperties.CreateIgnoresStatus | src/orders/orders.controller.js:173-181 | two create payloads that differ only in `status` get the same outcome |
| OrdersProperties.CreateAppendsOneOrder | src/orders/orders.controller.js:94-105 | an accepted create appends exactly one order (new id, submitted fields) and answers 201 with it; earlier orders are unchanged; a rejected one leaves the store unchanged |
| OrdersProperties.UnknownIdIsNotFound | src/orders/orders.controller.js:108-119 | an id no order carries gets 404 on update and delete, whatever the body, before any 400, with the store unchanged |
| OrdersProperties.UpdateChainAccepts | src/orders/orders.controller.js:183-194 | the update chain passes exactly the valid create payloads that also carry one of the four statuses |
| OrdersProperties.UpdateReportsFirstMissing | src/orders/orders.controller.js:183-194 | on an existing order, the first missing field in the order deliverTo, mobileNumber, status, dishes is reported before any validity error, with the store unchanged |
| OrdersProperties.UpdateReportsChainFailure | src/orders/orders.controller.js:183-194 | on an existing order, a payload the update chain refuses gets the chain's own answer (400 or a TypeError), with the store unchanged |
| OrdersProperties.UpdateRejectsOtherId | src/orders/orders.controller.js:134-138 | on a payload the chain accepts, a truthy body id other than the route id gives 400 naming both, with the store unchanged |
| OrdersProperties.UpdateRejectsDelivered | src/orders/orders.controller.js:139-144 | on a payload the chain accepts and with no id conflict, a submitted status "delivered" gives 400, with the store unchanged |
| OrdersProperties.DeliveredIsNeverApplied | src/orders/orders.controller.js:127-153 | whatever the other fields and the route id, a submitted status "delivered" is never stored: the update is refused (404, 400 or a TypeError) and the store is unchanged |
| OrdersProperties.UpdateOverwritesFoundOrder | src/orders/orders.controller.js:145-152 | otherwise exactly the four fields of the found order are overwritten, its id and all other orders kept, the store's length kept, and the stored order is valid with a status other than "delivered" |
| OrdersProperties.DeliveredOrderCanStillBeEdited | src/orders/orders.controller.js:139 | an order already stored as delivered is edited by a payload whose status is "pending" |
| OrdersProperties.FindIndexStopsAtFirstOrder | src/orders/orders.controller.js:158 | with a non-empty route id the search renames the first order to the route id and returns 0 |
| OrdersProperties.FindIndexRenamesAllOnEmptyId | src/orders/orders.controller.js:158 | with an empty route id the search renames every order and returns -1 |
| OrdersProperties.DeleteInspectsFirstOrder | src/orders/orders.controller.js:156-169 | on an existing id, delete removes the first order (length - 1, 204) when it is pending, and otherwise fails with 400, keeps the length and leaves the first order renamed to the route id |
| OrdersProperties.DeleteWithEmptyIdThrows | src/orders/orders.controller.js:158-160 | with an empty route id delete renames every order and throws on `orders[-1].status` |
| OrdersProperties.DeleteRemovesFirstOrderInstead | src/orders/orders.controller.js:158-162 | deleting the second of two orders removes the pending first one and keeps the one asked for |
| OrdersProperties.DeleteDuplicatesIdOnFailure | src/orders/orders.controller.js:158-167 | a failed delete leaves two orders with the same id |
| OrdersProperties.FindIndexOnlyRenames | src/orders/orders.controller.js:158 | the search changes nothing but ids |
| OrdersProperties.CreatePreservesWellFormed | src/orders/orders.controller.js:173-181 | create keeps every stored order with deliverTo and mobileNumber of non-zero length and valid line items |
| OrdersProperties.UpdatePreservesWellFormed | src/orders/orders.controller.js:183-194 | update keeps every stored order well formed in that sense |
| OrdersProperties.RenamingKeepsWellFormed | src/orders/orders.controller.js:158 | the renaming search of `destroy` keeps every order well formed |
| OrdersProperties.SpliceKeepsWellFormed | src/orders/orders.controller.js:161 | removing one order with `splice` keeps the remaining orders well formed |
| OrdersProperties.DeletePreservesWellFormed | src/orders/orders.controller.js:156-169 | delete keeps every stored order well formed in that sense: it only renames and removes orders |
| OrdersProperties.CreateAcceptsAnyStatus | src/orders/orders.controller.js:94-105 | a valid create payload with a missing or unknown status is stored with that status |
| Dishes.PricePropertyIsValid | src/dishes/dishes.controller.js:62-71 | passes iff the price is an integer above zero; every other value fails with 400 |
| Dishes.ValidatorChain | src/dishes/dishes.controller.js:130-151 | both chains' validators pass only bodies that can be destructured |
| Dishes.FindDish | src/dishes/dishes.controller.js:88-99 | finds the first dish whose id equals the route id, or reports that no dish has it |
| Dishes.CreateStep | src/dishes/dishes.controller.js:74-85 | an accepted create pushes exactly one dish carrying the new id and answers 201 with it; any refusal leaves the store unchanged (contents: `CreateAppendsOneDish`) |
| Dishes.UpdateStep | src/dishes/dishes.controller.js:107-126 | update keeps the store's length and every id; a success changes only the found dish and answers 200 with it; every refusal leaves the store unchanged (which refusal: `UnknownDishIsNotFound`, `UpdateReportsChainFailure`, `UpdateRejectsOtherId`, `UpdateOverwritesFoundDish`) |
| Dishes.DishStore.constructor | src/dishes/dishes.controller.js:4 | the store starts from the seed dishes |
| Dishes.DishStore.List | src/dishes/dishes.controller.js:10-12 | returns all dishes, in order, and changes nothing |
| Dishes.DishStore.Create | src/dishes/dishes.controller.js:74-85 | the new store and the response are those of `CreateStep` |
| Dishes.DishStore.Read | src/dishes/dishes.controller.js:102-104 | returns the found dish with 200, or 404 naming the id, and changes nothing |
| Dishes.DishStore.Update | src/dishes/dishes.controller.js:107-126 | the new store and the response are those of `UpdateStep` |
| DishesProperties.ValidatorChainAccepts | src/dishes/dishes.controller.js:130-151 | both chains pass exactly the payloads with name, description and image_url of non-zero length and a positive integer price |
| DishesProperties.ReportsFirstMissing | src/dishes/dishes.controller.js:130-138 | with several fields missing, the first in the order name, description, price, image_url is reported |
| DishesProperties.ZeroPriceIsReportedMissing | src/dishes/dishes.controller.js:15-23 | a price of 0 fails the presence stage ("must include a price") before the price stage runs |
| DishesProperties.BadPriceIsRejected | src/dishes/dishes.controller.js:62-71 | a truthy price that is not a positive integer fails with the price message once the earlier stages pass |
| DishesProperties.NameWithoutLengthIsRejected | src/dishes/dishes.controller.js:26-35 | a truthy name without a length (a number, true) passes presence and fails the name stage |
| DishesProperties.CreateAppendsOneDish | src/dishes/dishes.controller.js:74-85 | an accepted create appends exactly one dish (new id, submitted fields) and answers 201 with it; earlier dishes are unchanged; a rejected one leaves the store unchanged |
| DishesProperties.UnknownDishIsNotFound | src/dishes/dishes.controller.js:88-99 | an id no dish carries gets 404 on update, whatever the body, with the store unchanged |
| DishesProperties.UpdateReportsChainFailure | src/dishes/dishes.controller.js:142-152 | on an existing dish, an invalid payload gets the chain's error and the store is unchanged |
| DishesProperties.UpdateRejectsOtherId | src/dishes/dishes.controller.js:113-117 | on a payload the chain accepts, a truthy body id other than the route id gives 400 naming both, with the store unchanged |
| DishesProperties.UpdateOverwritesFoundDish | src/dishes/dishes.controller.js:118-125 | otherwise exactly the four fields of the found dish are overwritten, its id and all other dishes kept |
| DishesProperties.RequestsPreserveInvariants | src/dishes/dishes.controller.js:128-154 | create and update keep every stored dish well formed, update keeps ids unique, and create does too when the new id is not taken |

## Left out

- Express itself: `req`, `res`, `next`, routing, `res.json`, `res.sendStatus`, the `{ data: … }` envelope, and the application's error handler that turns a forwarded failure or a thrown TypeError into an HTTP reply. A thrown TypeError is modelled only as `Throw` / `Thrown`, without a status code.
- `nextId` (src/utils/nextId is not part of this model): the new id is a parameter, and no uniqueness is assumed of it; `RequestsPreserveInvariants` takes freshness as a hypothesis.
- The seed data modules (src/data/*-data are not part of this model): a store starts from any sequence.
- The unused `ordersData` and `express` imports of the orders controller.
- Message strings are kept only as the field, index or ids they embed; the "Order" or "Dish" prefix is implied by the controller.
- Numbers: JavaScript numbers are doubles; integers are unbounded here, and all non-integer numbers are one value, so two different fractions in a stored record are not told apart.
- Property reads: only named keys are modelled. Array indices, string indices and inherited members (`constructor`, `toString`, …) are not; the controllers read none of them directly, but converting an object to a primitive reads `valueOf` and `toString` (next line).
- Dishes.PricePropertyIsValid, OrdersProperties.UpdateRejectsOtherId, DishesProperties.UpdateRejectsOtherId: converting an object to a primitive is not modelled at `price <= 0` (src/dishes/dishes.controller.js:64) or at the `${id}` of the id-mismatch messages (src/orders/orders.controller.js:137, src/dishes/dishes.controller.js:116). That conversion calls the object's `valueOf` and `toString`, and a JSON body can make both non-callable (`{"valueOf": 0, "toString": 0}`). The code then throws a TypeError where the model answers 400 `PriceInvalid` or 400 `IdMismatch`.
- Records are values: `res.locals.order` and `res.locals.dish` are references to stored objects in the code; the model uses the record's position, and the aliasing between a response body and the stored record is not modelled.
- Concurrency: requests are handled one at a time.
- Orders.CreateChain, Orders.UpdateChain, Dishes.ValidatorChain: their own contracts state only that a passing body can be destructured; which payloads pass is stated by CreateChainAccepts, UpdateChainAccepts and ValidatorChainAccepts.
