/** The dishes controller: its validation stages, its chains, the effect of
    each exported chain on the dish store, and the store itself. */
module Dishes {
  import opened Js
  import opened Chain

  /** A dish as the store holds it. Every field but the id is whatever the
      request that created or last updated the dish carried. */
  datatype Dish = Dish(id: string, name: Value, description: Value, price: Value, imageUrl: Value)

  /** pricePropertyIsValid: the price must be an integer above zero. */
  function PricePropertyIsValid(body: Value): (r: Outcome)
    ensures r.Pass? <==> Readable(body) && PositiveInteger(Field(body, "price"))
    ensures r.Throw? <==> !Readable(body)
    ensures r.Fail? ==> r == Fail(400, PriceInvalid)
  {
    if !Readable(body) then Throw
    else
      var price := Field(body, "price");
      // `price <= 0 || !Number.isInteger(price)`: every non-number fails the
      // second test, so the comparison is only spelled out for integers;
      // converting an object price to a primitive for `<=` (which calls its
      // `valueOf` or `toString` and can throw) is not modelled
      if (price.Int? && price.i <= 0) || !IsInteger(price) then Fail(400, PriceInvalid)
      else Pass
  }

  /** What each validator does with the request, in the declared order.
      The create chain and the update chain (after dishExists) run the same
      eight validators. */
  function Validators(body: Value): seq<Outcome> {
    [ BodyDataHas(body, "name"),
      BodyDataHas(body, "description"),
      BodyDataHas(body, "price"),
      BodyDataHas(body, "image_url"),
      HasLength(body, "name"),
      HasLength(body, "description"),
      PricePropertyIsValid(body),
      HasLength(body, "image_url") ]
  }

  /** The validators of either chain, up to its terminal action. */
  function ValidatorChain(body: Value): (r: Outcome)
    ensures r.Pass? ==> Readable(body)
  {
    assert Validators(body)[0] == BodyDataHas(body, "name");
    Run(Validators(body))
  }

  /** `dishes.find(dish => dish.id === dishId)`, as the position of the dish
      it returns. */
  function FindDish(dishes: seq<Dish>, dishId: string): (r: Option<nat>)
    ensures r.Some? ==> r.value < |dishes| && dishes[r.value].id == dishId &&
                        forall j :: 0 <= j < r.value ==> dishes[j].id != dishId
    ensures r.None? <==> forall j :: 0 <= j < |dishes| ==> dishes[j].id != dishId
  {
    if |dishes| == 0 then None
    else if dishes[0].id == dishId then Some(0)
    else match FindDish(dishes[1..], dishId)
      case None => None
      case Some(k) => Some(k + 1)
  }

  /** The dish create builds: the new id and the four submitted fields. */
  function NewDish(body: Value, newId: string): Dish
    requires Readable(body)
  {
    Dish(newId, Field(body, "name"), Field(body, "description"), Field(body, "price"), Field(body, "image_url"))
  }

  /** POST /dishes: an accepted payload is pushed as one new dish carrying
      the new id and answered with 201 and that dish; anything else leaves
      the store as it was. */
  function CreateStep(dishes: seq<Dish>, body: Value, newId: string): (r: Step<Dish>)
    ensures r.response.Ok? ==>
              |r.store| == |dishes| + 1 && r.store[..|dishes|] == dishes &&
              r.store[|dishes|].id == newId && r.response == Ok(201, One(r.store[|dishes|]))
    ensures !r.response.Ok? ==> r.store == dishes
  {
    var outcome := ValidatorChain(body);
    if !outcome.Pass? then Step(dishes, Reject(outcome))
    else
      var dish := NewDish(body, newId);
      Step(dishes + [dish], Ok(201, One(dish)))
  }

  /** The four fields update assigns on the found dish. */
  function Revise(dish: Dish, body: Value): Dish
    requires Readable(body)
  {
    dish.(name := Field(body, "name"),
          description := Field(body, "description"),
          price := Field(body, "price"),
          imageUrl := Field(body, "image_url"))
  }

  /** PUT /dishes/:dishId: the store keeps its length and every id; a
      successful update changes only the dish the route id found and answers
      200 with it, and every refusal leaves the store as it was. */
  function UpdateStep(dishes: seq<Dish>, dishId: string, body: Value): (r: Step<Dish>)
    ensures |r.store| == |dishes|
    ensures forall j :: 0 <= j < |dishes| ==> r.store[j].id == dishes[j].id
    ensures r.response.Ok? ==>
              FindDish(dishes, dishId).Some? &&
              r.response == Ok(200, One(r.store[FindDish(dishes, dishId).value])) &&
              forall j :: 0 <= j < |dishes| && j != FindDish(dishes, dishId).value ==> r.store[j] == dishes[j]
    ensures !r.response.Ok? ==> r.store == dishes
  {
    match FindDish(dishes, dishId)
    case None => Step(dishes, Error(404, IdNotFound(dishId)))
    case Some(k) =>
      var outcome := ValidatorChain(body);
      if !outcome.Pass? then Step(dishes, Reject(outcome))
      else if IdConflicts(body, dishId) then Step(dishes, Error(400, IdMismatch(Field(body, "id"), dishId)))
      else
        var dish := Revise(dishes[k], body);
        Step(dishes[k := dish], Ok(200, One(dish)))
  }

  // ---------------------------------------------------------------------
  // The module-level `dishes` array and the handlers that act on it

  class DishStore {
    var dishes: seq<Dish>

    /** The store starts from the seed data. */
    constructor (seed: seq<Dish>)
      ensures dishes == seed
    {
      dishes := seed;
    }

    /** GET /dishes. */
    method List() returns (r: Response<Dish>)
      ensures r == Ok(200, Many(dishes))
    {
      r := Ok(200, Many(dishes));
    }

    /** POST /dishes: the create chain, then `dishes.push(newDish)`. */
    method Create(body: Value, newId: string) returns (r: Response<Dish>)
      modifies this
      ensures Step(dishes, r) == CreateStep(old(dishes), body, newId)
    {
      var outcome := ValidatorChain(body);
      if !outcome.Pass? {
        r := Reject(outcome);
        return;
      }
      var dish := NewDish(body, newId);
      dishes := dishes + [dish];
      r := Ok(201, One(dish));
    }

    /** GET /dishes/:dishId: the found dish, or 404 naming the id. */
    method Read(dishId: string) returns (r: Response<Dish>)
      ensures FindDish(dishes, dishId).None? ==> r == Error(404, IdNotFound(dishId))
      ensures FindDish(dishes, dishId).Some? ==> r == Ok(200, One(dishes[FindDish(dishes, dishId).value]))
    {
      var found := FindDish(dishes, dishId);
      if found.None? {
        r := Error(404, IdNotFound(dishId));
      } else {
        r := Ok(200, One(dishes[found.value]));
      }
    }

    /** PUT /dishes/:dishId: the update chain, then the id guard, then four
        field assignments on the found dish. */
    method Update(dishId: string, body: Value) returns (r: Response<Dish>)
      modifies this
      ensures Step(dishes, r) == UpdateStep(old(dishes), dishId, body)
    {
      var found := FindDish(dishes, dishId);
      if found.None? {
        r := Error(404, IdNotFound(dishId));
        return;
      }
      var outcome := ValidatorChain(body);
      if !outcome.Pass? {
        r := Reject(outcome);
        return;
      }
      var id := Field(body, "id");
      if Truthy(id) && id != Str(dishId) {
        r := Error(400, IdMismatch(id, dishId));
      } else {
        var k := found.value;
        var dish := dishes[k];
        dish := dish.(name := Field(body, "name"));
        dish := dish.(description := Field(body, "description"));
        dish := dish.(price := Field(body, "price"));
        dish := dish.(imageUrl := Field(body, "image_url"));
        dishes := dishes[k := dish];
        r := Ok(200, One(dish));
      }
    }
  }
}
