/** The middleware pattern both controllers share: every stage either
    passes the request on or fails with a status and a message, the first
    failure ends the chain, and the terminal action answers the request.
    Stages are pure functions of the request and the store, so a chain is
    modelled by the sequence of its stages' outcomes, read left to right. */
module Chain {
  import opened Js

  datatype Option<T> = None | Some(value: T)

  /** The failure messages. The resource word that opens some of them
      ("Order" or "Dish") is the controller's; only the field, the index or
      the id each embeds is kept. */
  datatype Message =
    | MustInclude(field: string)           // "<Resource> must include a <field>"
    | AtLeastOneDish                       // "Order must include at least one dish"
    | QuantityInvalid(index: nat)          // "Dish <index> must have a quantity that is an integer greater than 0"
    | StatusInvalid                        // "Order must have a status of pending, preparing, out-for-delivery, delivered"
    | PriceInvalid                         // "Dish must have a price that is an integer greater than 0"
    | IdNotFound(id: string)               // "<Resource> id not found: <id>"
    | IdMismatch(bodyId: Value, routeId: string) // "<Resource> id does not match route id. Dish: <id>, Route: <routeId>"
    | DeliveredOrder                       // "A delivered order cannot be changed"
    | NotPending                           // "An order cannot be deleted unless it is pending"

  /** What one stage does with the request: `next()`, `next({status,
      message})`, or a TypeError thrown while destructuring the body. */
  datatype Outcome = Pass | Fail(status: int, message: Message) | Throw

  datatype Body<R> = One(record: R) | Many(records: seq<R>) | NoBody

  /** What a handler chain ends with: a success with a status and a `data`
      body (or none), a failure forwarded to the error handler with
      `next({status, message})`, or a TypeError the controller throws, which
      Express hands to the same error handler. */
  datatype Response<R> = Ok(status: int, body: Body<R>) | Error(status: int, message: Message) | Thrown

  /** A store and the response one request leaves behind. */
  datatype Step<R> = Step(store: seq<R>, response: Response<R>)

  /** The position of the first stage that does not pass, or the number of
      stages when every one passes. */
  function FirstFailing(outcomes: seq<Outcome>): (k: nat)
    ensures k <= |outcomes|
    ensures forall j :: 0 <= j < k ==> outcomes[j].Pass?
    ensures k < |outcomes| ==> !outcomes[k].Pass?
  {
    if |outcomes| == 0 then 0
    else if !outcomes[0].Pass? then 0
    else 1 + FirstFailing(outcomes[1..])
  }

  /** Runs the stages in order: the chain passes exactly when every stage
      passes, and otherwise reports the first stage that does not. */
  function Run(outcomes: seq<Outcome>): (r: Outcome)
    ensures r.Pass? <==> forall j :: 0 <= j < |outcomes| ==> outcomes[j].Pass?
    ensures !r.Pass? ==> exists k :: 0 <= k < |outcomes| && r == outcomes[k] &&
                                   forall j :: 0 <= j < k ==> outcomes[j].Pass?
  {
    var k := FirstFailing(outcomes);
    if k == |outcomes| then Pass else outcomes[k]
  }

  /** Whichever stage fails first decides the chain's outcome. */
  lemma RunReportsFirstFailure(outcomes: seq<Outcome>, k: nat)
    requires k < |outcomes| && !outcomes[k].Pass?
    requires forall j :: 0 <= j < k ==> outcomes[j].Pass?
    ensures Run(outcomes) == outcomes[k]
  {
    var f := FirstFailing(outcomes);
    assert f == |outcomes| || !outcomes[f].Pass?;
    assert f == k;
  }

  /** The response a failing stage produces. */
  function Reject<R>(o: Outcome): (r: Response<R>)
    requires !o.Pass?
    ensures o.Fail? ==> r == Error(o.status, o.message)
    ensures o.Throw? ==> r.Thrown?
  {
    match o
    case Fail(status, message) => Error(status, message)
    case Throw => Thrown
  }

  /** `bodyDataHas(field)`: passes when `data[field]` is truthy, fails with
      400 "must include" otherwise, and throws when the body or its `data`
      is `null`. */
  function BodyDataHas(body: Value, field: string): (r: Outcome)
    ensures r.Throw? <==> !Readable(body)
    ensures r.Pass? <==> Readable(body) && Truthy(Field(body, field))
    ensures r.Fail? ==> r == Fail(400, MustInclude(field))
  {
    if !Readable(body) then Throw
    else if Truthy(Field(body, field)) then Pass
    else Fail(400, MustInclude(field))
  }

  /** The `<field>IsValid` stages that test `value.length` (deliverTo and
      mobileNumber of an order; name, description and image_url of a dish):
      pass on a non-zero length, fail with 400 "must include" otherwise, and
      throw when the field itself is `undefined` or `null`. */
  function HasLength(body: Value, field: string): (r: Outcome)
    ensures r.Throw? <==> !Readable(body) || !Coercible(Field(body, field))
    ensures r.Pass? <==> Readable(body) && HasNonZeroLength(Field(body, field))
    ensures r.Fail? ==> r == Fail(400, MustInclude(field))
  {
    if !Readable(body) then Throw
    else
      var value := Field(body, field);
      if !Coercible(value) then Throw
      else if Truthy(Member(value, "length")) then Pass
      else Fail(400, MustInclude(field))
  }

  /** `id && id !== routeId`, the guard at the head of both update
      actions: the body names a record other than the route's. A missing
      or falsy id never conflicts, and `!==` is strict, so a non-zero number
      always conflicts with the route's string id. */
  predicate IdConflicts(body: Value, routeId: string): (r: bool)
    requires Readable(body)
    ensures Field(body, "id") == Str(routeId) ==> !r
    ensures !Truthy(Field(body, "id")) ==> !r
    ensures Field(body, "id").Int? && Field(body, "id").i != 0 ==> r
    ensures Field(body, "id").Str? ==> (r <==> Field(body, "id").s != "" && Field(body, "id").s != routeId)
  {
    Truthy(Field(body, "id")) && Field(body, "id") != Str(routeId)
  }

  /** A field that passed its presence stage never makes its length stage
      throw: after `bodyDataHas`, the length stage either passes or fails
      with 400. */
  lemma PresentFieldHasLengthOrFails(body: Value, field: string)
    requires BodyDataHas(body, field).Pass?
    ensures !HasLength(body, field).Throw?
    ensures HasLength(body, field).Pass? || HasLength(body, field) == Fail(400, MustInclude(field))
  {
    var v := Field(body, field);
    assert Truthy(v);
    assert Coercible(v);
  }

  /** A body without `data` fails every presence stage with 400 rather than
      throwing; a body whose `data` is `null` throws instead. */
  lemma BodyDataHasWithoutData(fields: map<string, Value>, field: string)
    ensures "data" !in fields ==> BodyDataHas(Obj(fields), field) == Fail(400, MustInclude(field))
    ensures "data" in fields && fields["data"] == Null ==> BodyDataHas(Obj(fields), field) == Throw
  {
    if "data" !in fields {
      MissingDataReadsUndefined(fields, field);
    }
  }
}
