/** The orders controller: its validation stages, its chains, the effect of
    each exported chain on the order store, and the store itself. */
module Orders {
  import opened Js
  import opened Chain

  /** An order as the store holds it. Every field but the id is whatever
      the request that created or last updated the order carried. */
  datatype Order = Order(id: string, deliverTo: Value, mobileNumber: Value, status: Value, dishes: Value)

  // ---------------------------------------------------------------------
  // dishesIsValid

  /** A line item whose `quantity` is an integer greater than zero. */
  predicate ValidLineItem(dish: Value) {
    Coercible(dish) && PositiveInteger(Member(dish, "quantity"))
  }

  /** A non-empty array of valid line items. */
  predicate ValidDishes(dishes: Value) {
    dishes.Arr? && |dishes.items| > 0 &&
    forall j :: 0 <= j < |dishes.items| ==> ValidLineItem(dishes.items[j])
  }

  /** `k` is the first line item that is not valid. */
  predicate FirstInvalidAt(items: seq<Value>, k: nat) {
    k < |items| && !ValidLineItem(items[k]) &&
    forall j :: 0 <= j < k ==> ValidLineItem(items[j])
  }

  /** The `findIndex` callback of dishesIsValid: a falsy quantity, a
      non-integer one or one not above zero marks the line item as bad. */
  function QuantityIsBad(dish: Value): (bad: bool)
    requires Coercible(dish)
    ensures bad <==> !ValidLineItem(dish)
  {
    var quantity := Member(dish, "quantity");
    !Truthy(quantity) || !IsInteger(quantity) || quantity.i <= 0
  }

  /** How `dishes.findIndex(...)` ends: no bad item, the index of the first
      bad one, or a TypeError on a `null` item reached before any bad one. */
  datatype Scan = AllValid | BadAt(index: nat) | ThrowsAt(index: nat)

  /** `findIndex` from position `from` on. */
  function ScanQuantities(items: seq<Value>, from: nat): (r: Scan)
    requires from <= |items|
    decreases |items| - from
    ensures r.AllValid? <==> forall j :: from <= j < |items| ==> ValidLineItem(items[j])
    ensures !r.AllValid? ==> from <= r.index < |items| && !ValidLineItem(items[r.index]) &&
                             forall j :: from <= j < r.index ==> ValidLineItem(items[j])
    ensures r.BadAt? ==> Coercible(items[r.index])
    ensures r.ThrowsAt? ==> !Coercible(items[r.index])
  {
    if from == |items| then AllValid
    else if !Coercible(items[from]) then ThrowsAt(from)
    else if QuantityIsBad(items[from]) then BadAt(from)
    else ScanQuantities(items, from + 1)
  }

  /** dishesIsValid: `dishes` must be a non-empty array; otherwise the first
      line item with a bad quantity is named by its index. */
  function DishesIsValid(body: Value): (r: Outcome)
    ensures r.Pass? <==> Readable(body) && ValidDishes(Field(body, "dishes"))
    ensures r == Fail(400, AtLeastOneDish) <==>
              Readable(body) && !(Field(body, "dishes").Arr? && |Field(body, "dishes").items| > 0)
    ensures r.Fail? && r.message.QuantityInvalid? ==>
              Readable(body) && Field(body, "dishes").Arr? &&
              FirstInvalidAt(Field(body, "dishes").items, r.message.index) &&
              Coercible(Field(body, "dishes").items[r.message.index])
    ensures r.Fail? ==> r.status == 400 && (r.message == AtLeastOneDish || r.message.QuantityInvalid?)
    ensures r.Throw? && Readable(body) ==>
              Field(body, "dishes").Arr? &&
              exists k: nat :: FirstInvalidAt(Field(body, "dishes").items, k) && !Coercible(Field(body, "dishes").items[k])
  {
    if !Readable(body) then Throw
    else
      var dishes := Field(body, "dishes");
      if dishes.Arr? && Truthy(Member(dishes, "length")) then
        match ScanQuantities(dishes.items, 0)
        case BadAt(k) => Fail(400, QuantityInvalid(k))
        case ThrowsAt(k) => Throw
        case AllValid => Pass
      else Fail(400, AtLeastOneDish)
  }

  // ---------------------------------------------------------------------
  // statusIsValid

  const Statuses: seq<string> := ["pending", "preparing", "out-for-delivery", "delivered"]

  predicate ValidStatus(status: Value) {
    status.Str? && status.s in Statuses
  }

  /** statusIsValid: exactly the four status strings pass. */
  function StatusIsValid(body: Value): (r: Outcome)
    ensures r.Pass? <==> Readable(body) && ValidStatus(Field(body, "status"))
    ensures r.Throw? <==> !Readable(body)
    ensures r.Fail? ==> r == Fail(400, StatusInvalid)
  {
    if !Readable(body) then Throw
    else
      var status := Field(body, "status");
      if status == Str("pending") || status == Str("preparing") ||
         status == Str("out-for-delivery") || status == Str("delivered")
      then Pass
      else Fail(400, StatusInvalid)
  }

  // ---------------------------------------------------------------------
  // The exported chains, without their existence stage and terminal action

  /** What each validator of the create chain does with the request, in
      the declared order. */
  function CreateStages(body: Value): seq<Outcome> {
    [ BodyDataHas(body, "deliverTo"),
      BodyDataHas(body, "mobileNumber"),
      BodyDataHas(body, "dishes"),
      HasLength(body, "deliverTo"),
      HasLength(body, "mobileNumber"),
      DishesIsValid(body) ]
  }

  /** The create chain up to its terminal action. */
  function CreateChain(body: Value): (r: Outcome)
    ensures r.Pass? ==> Readable(body)
  {
    assert CreateStages(body)[0] == BodyDataHas(body, "deliverTo");
    Run(CreateStages(body))
  }

  /** What each validator of the update chain does with the request, in
      the declared order. */
  function UpdateStages(body: Value): seq<Outcome> {
    [ BodyDataHas(body, "deliverTo"),
      BodyDataHas(body, "mobileNumber"),
      BodyDataHas(body, "status"),
      BodyDataHas(body, "dishes"),
      HasLength(body, "deliverTo"),
      HasLength(body, "mobileNumber"),
      DishesIsValid(body),
      StatusIsValid(body) ]
  }

  /** The update chain after orderExists, up to its terminal action. */
  function UpdateChain(body: Value): (r: Outcome)
    ensures r.Pass? ==> Readable(body)
  {
    assert UpdateStages(body)[0] == BodyDataHas(body, "deliverTo");
    Run(UpdateStages(body))
  }

  // ---------------------------------------------------------------------
  // orderExists

  /** `orders.find(order => order.id === orderId)`, as the position of the
      order it returns. */
  function FindOrder(orders: seq<Order>, orderId: string): (r: Option<nat>)
    ensures r.Some? ==> r.value < |orders| && orders[r.value].id == orderId &&
                        forall j :: 0 <= j < r.value ==> orders[j].id != orderId
    ensures r.None? <==> forall j :: 0 <= j < |orders| ==> orders[j].id != orderId
  {
    if |orders| == 0 then None
    else if orders[0].id == orderId then Some(0)
    else match FindOrder(orders[1..], orderId)
      case None => None
      case Some(k) => Some(k + 1)
  }

  // ---------------------------------------------------------------------
  // Terminal actions, as what each exported chain leaves behind

  /** The order create builds: the new id and the four submitted fields. */
  function NewOrder(body: Value, newId: string): Order
    requires Readable(body)
  {
    Order(newId, Field(body, "deliverTo"), Field(body, "mobileNumber"), Field(body, "status"), Field(body, "dishes"))
  }

  /** POST /orders: an accepted payload is pushed as one new order carrying
      the new id and answered with 201 and that order; anything else leaves
      the store as it was. */
  function CreateStep(orders: seq<Order>, body: Value, newId: string): (r: Step<Order>)
    ensures r.response.Ok? ==>
              |r.store| == |orders| + 1 && r.store[..|orders|] == orders &&
              r.store[|orders|].id == newId && r.response == Ok(201, One(r.store[|orders|]))
    ensures !r.response.Ok? ==> r.store == orders
  {
    var outcome := CreateChain(body);
    if !outcome.Pass? then Step(orders, Reject(outcome))
    else
      var order := NewOrder(body, newId);
      Step(orders + [order], Ok(201, One(order)))
  }

  /** The four fields update assigns on the found order. */
  function Revise(order: Order, body: Value): Order
    requires Readable(body)
  {
    order.(deliverTo := Field(body, "deliverTo"),
           mobileNumber := Field(body, "mobileNumber"),
           status := Field(body, "status"),
           dishes := Field(body, "dishes"))
  }

  /** PUT /orders/:orderId: the store keeps its length and every id; a
      successful update changes only the order the route id found and answers
      200 with it, and every refusal leaves the store as it was. */
  function UpdateStep(orders: seq<Order>, orderId: string, body: Value): (r: Step<Order>)
    ensures |r.store| == |orders|
    ensures forall j :: 0 <= j < |orders| ==> r.store[j].id == orders[j].id
    ensures r.response.Ok? ==>
              FindOrder(orders, orderId).Some? &&
              r.response == Ok(200, One(r.store[FindOrder(orders, orderId).value])) &&
              forall j :: 0 <= j < |orders| && j != FindOrder(orders, orderId).value ==> r.store[j] == orders[j]
    ensures !r.response.Ok? ==> r.store == orders
  {
    match FindOrder(orders, orderId)
    case None => Step(orders, Error(404, IdNotFound(orderId)))
    case Some(k) =>
      var outcome := UpdateChain(body);
      if !outcome.Pass? then Step(orders, Reject(outcome))
      else if IdConflicts(body, orderId) then Step(orders, Error(400, IdMismatch(Field(body, "id"), orderId)))
      else if Field(body, "status") == Str("delivered") then Step(orders, Error(400, DeliveredOrder))
      else
        var order := Revise(orders[k], body);
        Step(orders[k := order], Ok(200, One(order)))
  }

  /** `orders.findIndex((order) => (order.id = orderId))` from position
      `from` on: the callback ASSIGNS the route id to each order it visits
      and returns that id, so the search stops at the first order visited
      when the id is non-empty, and visits (and renames) every order and
      finds none when it is empty. */
  function FindIndexAssigning(orders: seq<Order>, orderId: string, from: nat): (r: (seq<Order>, int))
    requires from <= |orders|
    decreases |orders| - from
    ensures |r.0| == |orders|
    ensures r.1 == -1 || from <= r.1 < |orders|
  {
    if from == |orders| then (orders, -1)
    else
      var visited := orders[from := orders[from].(id := orderId)];
      if Truthy(Str(orderId)) then (visited, from)
      else FindIndexAssigning(visited, orderId, from + 1)
  }

  /** DELETE /orders/:orderId: the answer is 404, 400 "not pending", 204 or
      a thrown TypeError; only a 204 removes an order, and then exactly
      one. An unknown id leaves the store as it was. */
  function DeleteStep(orders: seq<Order>, orderId: string): (r: Step<Order>)
    ensures r.response == Error(404, IdNotFound(orderId)) || r.response == Error(400, NotPending) ||
            r.response == Ok(204, NoBody) || r.response == Thrown
    ensures r.response.Ok? ==> |r.store| == |orders| - 1
    ensures !r.response.Ok? ==> |r.store| == |orders|
    ensures FindOrder(orders, orderId).None? ==> r.store == orders
  {
    match FindOrder(orders, orderId)
    case None => Step(orders, Error(404, IdNotFound(orderId)))
    case Some(_) =>
      var (visited, index) := FindIndexAssigning(orders, orderId, 0);
      if index < 0 then Step(visited, Thrown)  // orders[-1].status throws
      else if visited[index].status == Str("pending") then
        Step(visited[..index] + visited[index + 1..], Ok(204, NoBody))
      else Step(visited, Error(400, NotPending))
  }

  // ---------------------------------------------------------------------
  // The module-level `orders` array and the handlers that act on it

  class OrderStore {
    var orders: seq<Order>

    /** The store starts from the seed data. */
    constructor (seed: seq<Order>)
      ensures orders == seed
    {
      orders := seed;
    }

    /** GET /orders. */
    method List() returns (r: Response<Order>)
      ensures r == Ok(200, Many(orders))
    {
      r := Ok(200, Many(orders));
    }

    /** POST /orders: the create chain, then `orders.push(newOrder)`. */
    method Create(body: Value, newId: string) returns (r: Response<Order>)
      modifies this
      ensures Step(orders, r) == CreateStep(old(orders), body, newId)
    {
      var outcome := CreateChain(body);
      if !outcome.Pass? {
        r := Reject(outcome);
        return;
      }
      var order := NewOrder(body, newId);
      orders := orders + [order];
      r := Ok(201, One(order));
    }

    /** GET /orders/:orderId: the found order, or 404 naming the id. */
    method Read(orderId: string) returns (r: Response<Order>)
      ensures FindOrder(orders, orderId).None? ==> r == Error(404, IdNotFound(orderId))
      ensures FindOrder(orders, orderId).Some? ==> r == Ok(200, One(orders[FindOrder(orders, orderId).value]))
    {
      var found := FindOrder(orders, orderId);
      if found.None? {
        r := Error(404, IdNotFound(orderId));
      } else {
        r := Ok(200, One(orders[found.value]));
      }
    }

    /** PUT /orders/:orderId: the update chain, then the id and delivered
        guards, then four field assignments on the found order. */
    method Update(orderId: string, body: Value) returns (r: Response<Order>)
      modifies this
      ensures Step(orders, r) == UpdateStep(old(orders), orderId, body)
    {
      var found := FindOrder(orders, orderId);
      if found.None? {
        r := Error(404, IdNotFound(orderId));
        return;
      }
      var outcome := UpdateChain(body);
      if !outcome.Pass? {
        r := Reject(outcome);
        return;
      }
      var id := Field(body, "id");
      var status := Field(body, "status");
      if Truthy(id) && id != Str(orderId) {
        r := Error(400, IdMismatch(id, orderId));
      } else if status == Str("delivered") {
        r := Error(400, DeliveredOrder);
      } else {
        var k := found.value;
        var order := orders[k];
        order := order.(deliverTo := Field(body, "deliverTo"));
        order := order.(mobileNumber := Field(body, "mobileNumber"));
        order := order.(status := status);
        order := order.(dishes := Field(body, "dishes"));
        orders := orders[k := order];
        r := Ok(200, One(order));
      }
    }

    /** The `findIndex` of destroy, with its assigning callback. */
    method FindIndexRenaming(orderId: string) returns (index: int)
      modifies this
      ensures (orders, index) == FindIndexAssigning(old(orders), orderId, 0)
    {
      var i := 0;
      while i < |orders|
        invariant 0 <= i <= |orders|
        invariant FindIndexAssigning(orders, orderId, i) == FindIndexAssigning(old(orders), orderId, 0)
        decreases |orders| - i
      {
        orders := orders[i := orders[i].(id := orderId)];
        if Truthy(Str(orderId)) {
          index := i;
          return;
        }
        i := i + 1;
      }
      index := -1;
    }

    /** DELETE /orders/:orderId: orderExists, then destroy. */
    method Delete(orderId: string) returns (r: Response<Order>)
      modifies this
      ensures Step(orders, r) == DeleteStep(old(orders), orderId)
    {
      var found := FindOrder(orders, orderId);
      if found.None? {
        r := Error(404, IdNotFound(orderId));
        return;
      }
      var index := FindIndexRenaming(orderId);
      if index < 0 {
        r := Thrown;
      } else if orders[index].status == Str("pending") {
        orders := orders[..index] + orders[index + 1..];
        r := Ok(204, NoBody);
      } else {
        r := Error(400, NotPending);
      }
    }
  }
}
