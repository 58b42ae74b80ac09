/** What the orders controller guarantees, stated over the model in
    orders.dfy: which payloads each chain accepts, which error a bad payload
    gets, and what each request does to the store. */
module OrdersProperties {
  import opened Js
  import opened Chain
  import opened Orders

  /** What a create payload must carry for the order to be stored: a
      deliverTo and a mobileNumber of non-zero length and a non-empty array
      of line items whose quantities are positive integers. */
  predicate ValidCreatePayload(body: Value) {
    Readable(body) &&
    HasNonZeroLength(Field(body, "deliverTo")) &&
    HasNonZeroLength(Field(body, "mobileNumber")) &&
    ValidDishes(Field(body, "dishes"))
  }

  /** An update payload must also carry one of the four statuses. */
  predicate ValidUpdatePayload(body: Value) {
    ValidCreatePayload(body) && ValidStatus(Field(body, "status"))
  }

  /** The presence stages of each chain, in their declared order. */
  const CreateFields: seq<string> := ["deliverTo", "mobileNumber", "dishes"]
  const UpdateFields: seq<string> := ["deliverTo", "mobileNumber", "status", "dishes"]

  /** bodyDataHas is truthiness-based: a field that is there but falsy
      (0, "", false, null) is reported missing. */
  lemma FalsyFieldIsReportedMissing(body: Value, field: string)
    requires Readable(body)
    requires Field(body, field) in {Int(0), Str(""), Bool(false), Null}
    ensures BodyDataHas(body, field) == Fail(400, MustInclude(field))
  {
  }

  // ---------------------------------------------------------------------
  // The create chain

  /** The create chain passes exactly the valid create payloads. */
  lemma CreateChainAccepts(body: Value)
    ensures CreateChain(body).Pass? <==> ValidCreatePayload(body)
  {
    var outcomes := CreateStages(body);
    if CreateChain(body).Pass? {
      assert outcomes[3].Pass? && outcomes[4].Pass? && outcomes[5].Pass?;
    }
    if ValidCreatePayload(body) {
      NonZeroLengthIsTruthy(Field(body, "deliverTo"));
      NonZeroLengthIsTruthy(Field(body, "mobileNumber"));
      assert forall j :: 0 <= j < |outcomes| ==> outcomes[j].Pass?;
    }
  }

  /** A create payload missing several fields is told about the first one,
      in the order deliverTo, mobileNumber, dishes, before any validity
      stage runs. */
  lemma CreateReportsFirstMissing(body: Value, k: nat)
    requires Readable(body) && k < |CreateFields|
    requires !Truthy(Field(body, CreateFields[k]))
    requires forall j :: 0 <= j < k ==> Truthy(Field(body, CreateFields[j]))
    ensures CreateChain(body) == Fail(400, MustInclude(CreateFields[k]))
  {
    var outcomes := CreateStages(body);
    forall j | 0 <= j < k
      ensures outcomes[j].Pass?
    {
      assert outcomes[j] == BodyDataHas(body, CreateFields[j]);
    }
    assert outcomes[k] == BodyDataHas(body, CreateFields[k]);
    RunReportsFirstFailure(outcomes, k);
  }

  /** The create chain never looks at `status`: two payloads that differ
      only there get the same outcome. */
  lemma CreateIgnoresStatus(data: map<string, Value>, status: Value)
    ensures CreateChain(Obj(map["data" := Obj(data)])) ==
            CreateChain(Obj(map["data" := Obj(data["status" := status])]))
  {
    var before := Obj(map["data" := Obj(data)]);
    var after := Obj(map["data" := Obj(data["status" := status])]);
    assert Field(before, "deliverTo") == Field(after, "deliverTo");
    assert Field(before, "mobileNumber") == Field(after, "mobileNumber");
    assert Field(before, "dishes") == Field(after, "dishes");
    assert CreateStages(before) == CreateStages(after);
  }

  /** POST /orders appends exactly one order, built from the new id and the
      payload's fields, and leaves the earlier orders as they were; a
      rejected payload leaves the store unchanged. */
  lemma CreateAppendsOneOrder(orders: seq<Order>, body: Value, newId: string)
    ensures var s := CreateStep(orders, body, newId);
      if ValidCreatePayload(body) then
        |s.store| == |orders| + 1 && s.store[..|orders|] == orders &&
        s.store[|orders|] == Order(newId, Field(body, "deliverTo"), Field(body, "mobileNumber"),
                                   Field(body, "status"), Field(body, "dishes")) &&
        s.response == Ok(201, One(s.store[|orders|]))
      else
        s.store == orders && s.response == Reject(CreateChain(body))
  {
    CreateChainAccepts(body);
    var s := CreateStep(orders, body, newId);
    if ValidCreatePayload(body) {
      assert s.store == orders + [NewOrder(body, newId)];
      assert s.store[..|orders|] == orders;
    }
  }

  // ---------------------------------------------------------------------
  // orderExists and read

  /** An id no order carries gets 404 on every chain that starts with
      orderExists, whatever the body, and the store is left unchanged. */
  lemma UnknownIdIsNotFound(orders: seq<Order>, orderId: string, body: Value)
    requires forall j :: 0 <= j < |orders| ==> orders[j].id != orderId
    ensures UpdateStep(orders, orderId, body) == Step(orders, Error(404, IdNotFound(orderId)))
    ensures DeleteStep(orders, orderId) == Step(orders, Error(404, IdNotFound(orderId)))
  {
  }

  // ---------------------------------------------------------------------
  // The update chain

  /** The update chain passes exactly the valid update payloads. */
  lemma UpdateChainAccepts(body: Value)
    ensures UpdateChain(body).Pass? <==> ValidUpdatePayload(body)
  {
    var outcomes := UpdateStages(body);
    if UpdateChain(body).Pass? {
      assert outcomes[4].Pass? && outcomes[5].Pass? && outcomes[6].Pass? && outcomes[7].Pass?;
    }
    if ValidUpdatePayload(body) {
      NonZeroLengthIsTruthy(Field(body, "deliverTo"));
      NonZeroLengthIsTruthy(Field(body, "mobileNumber"));
      assert Truthy(Field(body, "status"));
      assert forall j :: 0 <= j < |outcomes| ==> outcomes[j].Pass?;
    }
  }

  /** On an existing order, a payload missing several fields is told about
      the first one in the order deliverTo, mobileNumber, status, dishes,
      before any validity stage runs; the store is unchanged. */
  lemma UpdateReportsFirstMissing(orders: seq<Order>, orderId: string, body: Value, k: nat)
    requires FindOrder(orders, orderId).Some?
    requires Readable(body) && k < |UpdateFields|
    requires !Truthy(Field(body, UpdateFields[k]))
    requires forall j :: 0 <= j < k ==> Truthy(Field(body, UpdateFields[j]))
    ensures UpdateStep(orders, orderId, body) == Step(orders, Error(400, MustInclude(UpdateFields[k])))
  {
    var outcomes := UpdateStages(body);
    forall j | 0 <= j < k
      ensures outcomes[j].Pass?
    {
      assert outcomes[j] == BodyDataHas(body, UpdateFields[j]);
    }
    assert outcomes[k] == BodyDataHas(body, UpdateFields[k]);
    RunReportsFirstFailure(outcomes, k);
  }

  /** On a payload the chain accepts, a truthy body id that is not the
      route id is refused with 400 and the store is unchanged. */
  lemma UpdateRejectsOtherId(orders: seq<Order>, orderId: string, body: Value)
    requires FindOrder(orders, orderId).Some? && ValidUpdatePayload(body)
    requires Truthy(Field(body, "id")) && Field(body, "id") != Str(orderId)
    ensures UpdateStep(orders, orderId, body) == Step(orders, Error(400, IdMismatch(Field(body, "id"), orderId)))
  {
    UpdateChainAccepts(body);
  }

  /** On an existing order, a payload the update chain refuses gets the
      chain's own answer (a missing field, a field without length, no line
      items, a bad quantity, a status outside the four, or a TypeError), and
      the store is unchanged; the id and delivered guards never run. */
  lemma UpdateReportsChainFailure(orders: seq<Order>, orderId: string, body: Value)
    requires FindOrder(orders, orderId).Some? && !ValidUpdatePayload(body)
    ensures !UpdateChain(body).Pass? &&
            UpdateStep(orders, orderId, body) == Step(orders, Reject(UpdateChain(body)))
  {
    UpdateChainAccepts(body);
  }

  /** A submitted status of "delivered" is never applied, whatever the
      other fields: the request is refused one way or another and the store
      is unchanged. */
  lemma DeliveredIsNeverApplied(orders: seq<Order>, orderId: string, body: Value)
    requires Readable(body) && Field(body, "status") == Str("delivered")
    ensures !UpdateStep(orders, orderId, body).response.Ok?
    ensures UpdateStep(orders, orderId, body).store == orders
  {
    UpdateChainAccepts(body);
  }

  /** On a payload the chain accepts and with no id conflict, a submitted
      status of "delivered" is refused with 400 and the store is
      unchanged. */
  lemma UpdateRejectsDelivered(orders: seq<Order>, orderId: string, body: Value)
    requires FindOrder(orders, orderId).Some? && ValidUpdatePayload(body)
    requires !IdConflicts(body, orderId)
    requires Field(body, "status") == Str("delivered")
    ensures UpdateStep(orders, orderId, body) == Step(orders, Error(400, DeliveredOrder))
  {
    UpdateChainAccepts(body);
  }

  /** Otherwise exactly deliverTo, mobileNumber, status and dishes of the
      found order are overwritten; its id and every other order are left
      as they were, and the stored order is a valid one whose status is not
      "delivered". */
  lemma UpdateOverwritesFoundOrder(orders: seq<Order>, orderId: string, body: Value)
    requires FindOrder(orders, orderId).Some? && ValidUpdatePayload(body)
    requires !IdConflicts(body, orderId)
    requires Field(body, "status") != Str("delivered")
    ensures var k := FindOrder(orders, orderId).value;
            var s := UpdateStep(orders, orderId, body);
      |s.store| == |orders| &&
      s.store[k] == Order(orderId, Field(body, "deliverTo"), Field(body, "mobileNumber"),
                          Field(body, "status"), Field(body, "dishes")) &&
      (forall j :: 0 <= j < |orders| && j != k ==> s.store[j] == orders[j]) &&
      s.response == Ok(200, One(s.store[k])) &&
      HasNonZeroLength(s.store[k].deliverTo) && HasNonZeroLength(s.store[k].mobileNumber) &&
      ValidDishes(s.store[k].dishes) &&
      s.store[k].status in {Str("pending"), Str("preparing"), Str("out-for-delivery")}
  {
    UpdateChainAccepts(body);
  }

  /** The delivered guard looks at the submitted status, not the stored
      one: an order already delivered is still edited by a payload that
      sets it back to "pending". */
  lemma DeliveredOrderCanStillBeEdited()
    ensures var line := Obj(map["dishId" := Str("d1"), "quantity" := Int(1)]);
            var delivered := Order("o1", Str("1 Main St"), Str("555"), Str("delivered"), Arr([line]));
            var body := Obj(map["data" := Obj(map["deliverTo" := Str("2 Main St"), "mobileNumber" := Str("555"),
                                                  "status" := Str("pending"), "dishes" := Arr([line])])]);
            UpdateStep([delivered], "o1", body) ==
              Step([delivered.(deliverTo := Str("2 Main St"), status := Str("pending"))],
                   Ok(200, One(delivered.(deliverTo := Str("2 Main St"), status := Str("pending")))))
  {
    var line := Obj(map["dishId" := Str("d1"), "quantity" := Int(1)]);
    var delivered := Order("o1", Str("1 Main St"), Str("555"), Str("delivered"), Arr([line]));
    var data := map["deliverTo" := Str("2 Main St"), "mobileNumber" := Str("555"),
                    "status" := Str("pending"), "dishes" := Arr([line])];
    var body := Obj(map["data" := Obj(data)]);
    assert Data(body) == Obj(data);
    assert Field(body, "deliverTo") == Str("2 Main St");
    assert Field(body, "mobileNumber") == Str("555");
    assert Field(body, "status") == Str("pending");
    assert Field(body, "dishes") == Arr([line]);
    assert Field(body, "id") == Undefined;
    assert Member(line, "quantity") == Int(1);
    assert ValidDishes(Arr([line]));
    assert ValidStatus(Str("pending"));
    assert HasNonZeroLength(Str("2 Main St")) && HasNonZeroLength(Str("555"));
    assert FindOrder([delivered], "o1") == Some(0);
    UpdateOverwritesFoundOrder([delivered], "o1", body);
  }

  // ---------------------------------------------------------------------
  // destroy

  /** With a non-empty route id, the findIndex of destroy stops at the
      first order after renaming it to the route id. */
  lemma FindIndexStopsAtFirstOrder(orders: seq<Order>, orderId: string)
    requires orderId != "" && |orders| > 0
    ensures FindIndexAssigning(orders, orderId, 0) == (orders[0 := orders[0].(id := orderId)], 0)
  {
  }

  /** With an empty route id, the findIndex of destroy renames every order
      from position `from` on and finds none. */
  lemma {:induction false} FindIndexRenamesAllOnEmptyId(orders: seq<Order>, from: nat)
    requires from <= |orders|
    decreases |orders| - from
    ensures var (visited, index) := FindIndexAssigning(orders, "", from);
      index == -1 && |visited| == |orders| &&
      (forall j :: 0 <= j < from ==> visited[j] == orders[j]) &&
      (forall j :: from <= j < |orders| ==> visited[j] == orders[j].(id := ""))
  {
    if from < |orders| {
      var next := orders[from := orders[from].(id := "")];
      assert !Truthy(Str(""));
      FindIndexRenamesAllOnEmptyId(next, from + 1);
    }
  }

  /** DELETE /orders/:orderId inspects the FIRST order, not the one
      orderExists found, and renames it to the route id: a pending first
      order is removed (one order fewer), any other first order makes the
      request fail with 400 and the store keeps its length. */
  lemma DeleteInspectsFirstOrder(orders: seq<Order>, orderId: string)
    requires orderId != "" && FindOrder(orders, orderId).Some?
    ensures |orders| > 0
    ensures var s := DeleteStep(orders, orderId);
      if orders[0].status == Str("pending") then
        s == Step(orders[1..], Ok(204, NoBody)) && |s.store| == |orders| - 1
      else
        s == Step(orders[0 := orders[0].(id := orderId)], Error(400, NotPending)) &&
        |s.store| == |orders| && s.store[0].id == orderId
  {
    FindIndexStopsAtFirstOrder(orders, orderId);
  }

  /** With an empty route id (which some order carries), destroy renames
      every order to "" and then throws on `orders[-1].status`. */
  lemma DeleteWithEmptyIdThrows(orders: seq<Order>)
    requires FindOrder(orders, "").Some?
    ensures var s := DeleteStep(orders, "");
      s.response == Thrown && |s.store| == |orders| &&
      forall j :: 0 <= j < |orders| ==> s.store[j] == orders[j].(id := "")
  {
    FindIndexRenamesAllOnEmptyId(orders, 0);
  }

  /** Deleting the second of two orders removes the first one when that
      one is pending, and leaves the order that was asked for in place. */
  lemma DeleteRemovesFirstOrderInstead()
    ensures var line := Arr([Obj(map["quantity" := Int(1)])]);
            var first := Order("a", Str("1 Main St"), Str("555"), Str("pending"), line);
            var second := Order("b", Str("2 Main St"), Str("556"), Str("preparing"), line);
            DeleteStep([first, second], "b") == Step([second], Ok(204, NoBody))
  {
    var line := Arr([Obj(map["quantity" := Int(1)])]);
    var first := Order("a", Str("1 Main St"), Str("555"), Str("pending"), line);
    var second := Order("b", Str("2 Main St"), Str("556"), Str("preparing"), line);
    assert FindOrder([first, second], "b") == Some(1);
    DeleteInspectsFirstOrder([first, second], "b");
    assert [first, second][1..] == [second];
  }

  /** Deleting a pending order behind a non-pending first one fails with 400
      and leaves two orders carrying the same id. */
  lemma DeleteDuplicatesIdOnFailure()
    ensures var line := Arr([Obj(map["quantity" := Int(1)])]);
            var first := Order("a", Str("1 Main St"), Str("555"), Str("preparing"), line);
            var second := Order("b", Str("2 Main St"), Str("556"), Str("pending"), line);
            var s := DeleteStep([first, second], "b");
            s == Step([first.(id := "b"), second], Error(400, NotPending)) &&
            s.store[0].id == s.store[1].id
  {
    var line := Arr([Obj(map["quantity" := Int(1)])]);
    var first := Order("a", Str("1 Main St"), Str("555"), Str("preparing"), line);
    var second := Order("b", Str("2 Main St"), Str("556"), Str("pending"), line);
    assert FindOrder([first, second], "b") == Some(1);
    DeleteInspectsFirstOrder([first, second], "b");
  }

  // ---------------------------------------------------------------------
  // What the store keeps across requests

  /** The invariant the chains keep for every stored order: a deliverTo and
      a mobileNumber of non-zero length and valid line items. The status is
      not part of it, because create never checks it. */
  predicate WellFormed(order: Order) {
    HasNonZeroLength(order.deliverTo) && HasNonZeroLength(order.mobileNumber) && ValidDishes(order.dishes)
  }

  predicate AllWellFormed(orders: seq<Order>) {
    forall j :: 0 <= j < |orders| ==> WellFormed(orders[j])
  }

  /** The findIndex of destroy changes nothing but ids. */
  lemma {:induction false} FindIndexOnlyRenames(orders: seq<Order>, orderId: string, from: nat)
    requires from <= |orders|
    decreases |orders| - from
    ensures var visited := FindIndexAssigning(orders, orderId, from).0;
      forall j :: 0 <= j < |orders| ==> visited[j] == orders[j].(id := visited[j].id)
  {
    if from < |orders| {
      var next := orders[from := orders[from].(id := orderId)];
      if !Truthy(Str(orderId)) {
        FindIndexOnlyRenames(next, orderId, from + 1);
        var visited := FindIndexAssigning(next, orderId, from + 1).0;
        forall j | 0 <= j < |orders|
          ensures visited[j] == orders[j].(id := visited[j].id)
        {
          assert visited[j] == next[j].(id := visited[j].id);
        }
      }
    }
  }

  /** Create keeps every stored order well formed. */
  lemma CreatePreservesWellFormed(orders: seq<Order>, body: Value, newId: string)
    requires AllWellFormed(orders)
    ensures AllWellFormed(CreateStep(orders, body, newId).store)
  {
    CreateChainAccepts(body);
    if ValidCreatePayload(body) {
      var created := CreateStep(orders, body, newId).store;
      assert created == orders + [NewOrder(body, newId)];
      assert WellFormed(created[|orders|]);
    }
  }

  /** Update keeps every stored order well formed. */
  lemma UpdatePreservesWellFormed(orders: seq<Order>, orderId: string, body: Value)
    requires AllWellFormed(orders)
    ensures AllWellFormed(UpdateStep(orders, orderId, body).store)
  {
    UpdateChainAccepts(body);
  }

  /** The renaming search of destroy keeps every order well formed. */
  lemma RenamingKeepsWellFormed(orders: seq<Order>, orderId: string)
    requires AllWellFormed(orders)
    ensures AllWellFormed(FindIndexAssigning(orders, orderId, 0).0)
  {
    FindIndexOnlyRenames(orders, orderId, 0);
    var visited := FindIndexAssigning(orders, orderId, 0).0;
    forall j | 0 <= j < |visited|
      ensures WellFormed(visited[j])
    {
      assert visited[j] == orders[j].(id := visited[j].id);
    }
  }

  /** Splicing one order out keeps the rest well formed. */
  lemma SpliceKeepsWellFormed(orders: seq<Order>, i: nat)
    requires AllWellFormed(orders) && i < |orders|
    ensures AllWellFormed(orders[..i] + orders[i + 1..])
  {
    var removed := orders[..i] + orders[i + 1..];
    forall j | 0 <= j < |removed|
      ensures WellFormed(removed[j])
    {
      if j < i {
        assert removed[j] == orders[j];
      } else {
        assert removed[j] == orders[j + 1];
      }
    }
  }

  /** Delete keeps every stored order well formed: it only renames and
      removes orders. */
  lemma DeletePreservesWellFormed(orders: seq<Order>, orderId: string)
    requires AllWellFormed(orders)
    ensures AllWellFormed(DeleteStep(orders, orderId).store)
  {
    if FindOrder(orders, orderId).Some? {
      RenamingKeepsWellFormed(orders, orderId);
      var (visited, index) := FindIndexAssigning(orders, orderId, 0);
      if 0 <= index && visited[index].status == Str("pending") {
        SpliceKeepsWellFormed(visited, index);
        assert DeleteStep(orders, orderId).store == visited[..index] + visited[index + 1..];
      } else {
        assert DeleteStep(orders, orderId).store == visited;
      }
    }
  }

  /** Create stores whatever status it is sent, including none at all and
      strings outside the four statuses. */
  lemma CreateAcceptsAnyStatus(orders: seq<Order>, body: Value, newId: string)
    requires ValidCreatePayload(body) && !ValidStatus(Field(body, "status"))
    ensures var s := CreateStep(orders, body, newId);
      s.response.Ok? && |s.store| == |orders| + 1 &&
      s.store[|orders|].status == Field(body, "status") && !ValidStatus(s.store[|orders|].status)
  {
    CreateAppendsOneOrder(orders, body, newId);
  }
}
