/** What the dishes controller guarantees, stated over the model in
    dishes.dfy: which payloads its chains accept, which error a bad payload
    gets, and what each request does to the store. */
module DishesProperties {
  import opened Js
  import opened Chain
  import opened Dishes

  /** What a payload must carry for a dish to be stored: a name, a
      description and an image_url of non-zero length and a price that is an
      integer above zero. */
  predicate ValidDishPayload(body: Value) {
    Readable(body) &&
    HasNonZeroLength(Field(body, "name")) &&
    HasNonZeroLength(Field(body, "description")) &&
    PositiveInteger(Field(body, "price")) &&
    HasNonZeroLength(Field(body, "image_url"))
  }

  /** The presence stages, in their declared order. */
  const Fields: seq<string> := ["name", "description", "price", "image_url"]

  /** The invariant the chains are there to keep: every stored dish has a
      name, a description and an image_url of non-zero length and a price
      that is a positive integer. */
  predicate WellFormed(dish: Dish) {
    HasNonZeroLength(dish.name) && HasNonZeroLength(dish.description) &&
    PositiveInteger(dish.price) && HasNonZeroLength(dish.imageUrl)
  }

  predicate AllWellFormed(dishes: seq<Dish>) {
    forall j :: 0 <= j < |dishes| ==> WellFormed(dishes[j])
  }

  predicate UniqueIds(dishes: seq<Dish>) {
    forall i, j :: 0 <= i < j < |dishes| ==> dishes[i].id != dishes[j].id
  }

  /** Both chains pass exactly the valid dish payloads. */
  lemma ValidatorChainAccepts(body: Value)
    ensures ValidatorChain(body).Pass? <==> ValidDishPayload(body)
  {
    var outcomes := Validators(body);
    if ValidatorChain(body).Pass? {
      assert outcomes[4].Pass? && outcomes[5].Pass? && outcomes[6].Pass? && outcomes[7].Pass?;
    }
    if ValidDishPayload(body) {
      NonZeroLengthIsTruthy(Field(body, "name"));
      NonZeroLengthIsTruthy(Field(body, "description"));
      NonZeroLengthIsTruthy(Field(body, "image_url"));
      assert forall j :: 0 <= j < |outcomes| ==> outcomes[j].Pass?;
    }
  }

  /** A payload missing several fields is told about the first one, in the
      order name, description, price, image_url, before any validity stage
      runs. */
  lemma ReportsFirstMissing(body: Value, k: nat)
    requires Readable(body) && k < |Fields|
    requires !Truthy(Field(body, Fields[k]))
    requires forall j :: 0 <= j < k ==> Truthy(Field(body, Fields[j]))
    ensures ValidatorChain(body) == Fail(400, MustInclude(Fields[k]))
  {
    var outcomes := Validators(body);
    forall j | 0 <= j < k
      ensures outcomes[j].Pass?
    {
      assert outcomes[j] == BodyDataHas(body, Fields[j]);
    }
    assert outcomes[k] == BodyDataHas(body, Fields[k]);
    RunReportsFirstFailure(outcomes, k);
  }

  /** Presence is truthiness, so a price of 0 is reported as a missing price
      by the presence stage, before pricePropertyIsValid could say why. */
  lemma ZeroPriceIsReportedMissing(body: Value)
    requires Readable(body)
    requires Truthy(Field(body, "name")) && Truthy(Field(body, "description"))
    requires Field(body, "price") == Int(0)
    ensures ValidatorChain(body) == Fail(400, MustInclude("price"))
  {
    ReportsFirstMissing(body, 2);
  }

  /** A price that is there but not a positive integer (a negative number,
      a fraction, a string, true) fails pricePropertyIsValid once every
      earlier stage has passed. */
  lemma BadPriceIsRejected(body: Value)
    requires Readable(body)
    requires HasNonZeroLength(Field(body, "name")) && HasNonZeroLength(Field(body, "description"))
    requires Truthy(Field(body, "price")) && !PositiveInteger(Field(body, "price"))
    requires Truthy(Field(body, "image_url"))
    ensures ValidatorChain(body) == Fail(400, PriceInvalid)
  {
    var outcomes := Validators(body);
    NonZeroLengthIsTruthy(Field(body, "name"));
    NonZeroLengthIsTruthy(Field(body, "description"));
    assert forall j :: 0 <= j < 6 ==> outcomes[j].Pass?;
    RunReportsFirstFailure(outcomes, 6);
  }

  /** A name that is truthy but has no length (a number, true) passes its
      presence stage and fails namePropertyIsValid. */
  lemma NameWithoutLengthIsRejected(body: Value)
    requires Readable(body)
    requires Field(body, "name").Int? || Field(body, "name").NonInteger? || Field(body, "name").Bool?
    requires Truthy(Field(body, "name")) && Truthy(Field(body, "description"))
    requires Truthy(Field(body, "price")) && Truthy(Field(body, "image_url"))
    ensures ValidatorChain(body) == Fail(400, MustInclude("name"))
  {
    var outcomes := Validators(body);
    NonZeroLengthCases(Field(body, "name"));
    assert forall j :: 0 <= j < 4 ==> outcomes[j].Pass?;
    RunReportsFirstFailure(outcomes, 4);
  }

  /** POST /dishes appends exactly one dish, built from the new id and the
      payload's four fields, and leaves the earlier dishes as they were; a
      rejected payload leaves the store unchanged. */
  lemma CreateAppendsOneDish(dishes: seq<Dish>, body: Value, newId: string)
    ensures var s := CreateStep(dishes, body, newId);
      if ValidDishPayload(body) then
        |s.store| == |dishes| + 1 && s.store[..|dishes|] == dishes &&
        s.store[|dishes|] == Dish(newId, Field(body, "name"), Field(body, "description"),
                                  Field(body, "price"), Field(body, "image_url")) &&
        s.response == Ok(201, One(s.store[|dishes|]))
      else
        s.store == dishes && s.response == Reject(ValidatorChain(body))
  {
    ValidatorChainAccepts(body);
    var s := CreateStep(dishes, body, newId);
    if ValidDishPayload(body) {
      assert s.store == dishes + [NewDish(body, newId)];
      assert s.store[..|dishes|] == dishes;
    }
  }

  /** An id no dish carries gets 404 on update, whatever the body, and the
      store is left unchanged; field errors come only after that. */
  lemma UnknownDishIsNotFound(dishes: seq<Dish>, dishId: string, body: Value)
    requires forall j :: 0 <= j < |dishes| ==> dishes[j].id != dishId
    ensures UpdateStep(dishes, dishId, body) == Step(dishes, Error(404, IdNotFound(dishId)))
  {
  }

  /** On an existing dish, a field error is the one the chain reports, and
      the store is unchanged. */
  lemma UpdateReportsChainFailure(dishes: seq<Dish>, dishId: string, body: Value)
    requires FindDish(dishes, dishId).Some? && !ValidDishPayload(body)
    ensures !ValidatorChain(body).Pass? &&
            UpdateStep(dishes, dishId, body) == Step(dishes, Reject(ValidatorChain(body)))
  {
    ValidatorChainAccepts(body);
  }

  /** On a payload the chain accepts, a truthy body id that is not the
      route id is refused with 400 and the store is unchanged. */
  lemma UpdateRejectsOtherId(dishes: seq<Dish>, dishId: string, body: Value)
    requires FindDish(dishes, dishId).Some? && ValidDishPayload(body)
    requires Truthy(Field(body, "id")) && Field(body, "id") != Str(dishId)
    ensures UpdateStep(dishes, dishId, body) == Step(dishes, Error(400, IdMismatch(Field(body, "id"), dishId)))
  {
    ValidatorChainAccepts(body);
  }

  /** Otherwise exactly name, description, price and image_url of the found
      dish are overwritten; its id and every other dish stay as they were. */
  lemma UpdateOverwritesFoundDish(dishes: seq<Dish>, dishId: string, body: Value)
    requires FindDish(dishes, dishId).Some? && ValidDishPayload(body)
    requires !IdConflicts(body, dishId)
    ensures var k := FindDish(dishes, dishId).value;
            var s := UpdateStep(dishes, dishId, body);
      |s.store| == |dishes| &&
      s.store[k] == Dish(dishId, Field(body, "name"), Field(body, "description"),
                         Field(body, "price"), Field(body, "image_url")) &&
      (forall j :: 0 <= j < |dishes| && j != k ==> s.store[j] == dishes[j]) &&
      s.response == Ok(200, One(s.store[k]))
  {
    ValidatorChainAccepts(body);
  }

  /** Create and update keep every stored dish well formed, and they keep
      the ids unique as long as the new id is not already taken. */
  lemma RequestsPreserveInvariants(dishes: seq<Dish>, body: Value, dishId: string, newId: string)
    requires AllWellFormed(dishes) && UniqueIds(dishes)
    ensures AllWellFormed(UpdateStep(dishes, dishId, body).store)
    ensures UniqueIds(UpdateStep(dishes, dishId, body).store)
    ensures AllWellFormed(CreateStep(dishes, body, newId).store)
    ensures (forall j :: 0 <= j < |dishes| ==> dishes[j].id != newId) ==>
              UniqueIds(CreateStep(dishes, body, newId).store)
  {
    ValidatorChainAccepts(body);
    var created := CreateStep(dishes, body, newId).store;
    if ValidDishPayload(body) {
      assert created == dishes + [NewDish(body, newId)];
      assert WellFormed(created[|dishes|]);
      match FindDish(dishes, dishId)
      case None =>
      case Some(k) =>
        if !IdConflicts(body, dishId) {
          var updated := UpdateStep(dishes, dishId, body).store;
          assert updated == dishes[k := Revise(dishes[k], body)];
          assert forall j :: 0 <= j < |dishes| ==> updated[j].id == dishes[j].id;
        }
    }
  }
}
