/** The slice of JavaScript value semantics the two controllers rely on:
    the values a JSON request body can hold, `undefined` for a property that
    is not there, truthiness, `Number.isInteger`, and reading a named
    property (which throws a TypeError on `undefined` and `null`). */
module Js {

  /** A value as the JSON body parser delivers it. Numbers are split into
      those whose value is an integer and those that have a fractional part;
      the latter are not distinguished from one another. */
  datatype Value =
    | Undefined
    | Null
    | Bool(b: bool)
    | Int(i: int)
    | NonInteger
    | Str(s: string)
    | Arr(items: seq<Value>)
    | Obj(fields: map<string, Value>)

  /** JavaScript truthiness: `undefined`, `null`, `false`, `0` and `""` are
      falsy, everything else (every array and object included) is truthy. */
  predicate Truthy(v: Value) {
    match v
    case Undefined => false
    case Null => false
    case Bool(b) => b
    case Int(i) => i != 0
    case NonInteger => true
    case Str(s) => s != ""
    case Arr(_) => true
    case Obj(_) => true
  }

  /** `Number.isInteger(v)`: true only of a number with an integral value. */
  predicate IsInteger(v: Value) {
    v.Int?
  }

  /** An integer greater than zero, the shape both `price` and a line item's
      `quantity` must have. */
  predicate PositiveInteger(v: Value) {
    v.Int? && v.i > 0
  }

  /** A value whose properties can be read: `v.p` throws on these two. */
  predicate Coercible(v: Value) {
    !v.Undefined? && !v.Null?
  }

  /** `v[key]` for a named key. Strings and arrays have a `length`; no
      other property of a primitive or an array is read by the controllers,
      so array indices and prototype members are not modelled. */
  function Member(v: Value, key: string): Value
    requires Coercible(v)
  {
    match v
    case Obj(fields) => if key in fields then fields[key] else Undefined
    case Str(s) => if key == "length" then Int(|s|) else Undefined
    case Arr(items) => if key == "length" then Int(|items|) else Undefined
    case _ => Undefined
  }

  /** `const { data = {} } = req.body`: the default applies only when
      `data` is `undefined`, not when it is `null`. */
  function Data(body: Value): Value
    requires Coercible(body)
  {
    var d := Member(body, "data");
    if d.Undefined? then Obj(map[]) else d
  }

  /** The request body can be destructured down to a field of `data`
      without a TypeError. */
  predicate Readable(body: Value) {
    Coercible(body) && Coercible(Data(body))
  }

  /** `req.body.data[key]`, read through the destructuring default. */
  function Field(body: Value, key: string): Value
    requires Readable(body)
  {
    Member(Data(body), key)
  }

  /** A value whose `length` property is truthy: a non-empty string or
      array, or an object carrying a truthy `length` field. */
  predicate HasNonZeroLength(v: Value) {
    Coercible(v) && Truthy(Member(v, "length"))
  }

  /** Which values have a non-zero length: a string or an array exactly when
      it is non-empty; numbers and booleans never. */
  lemma NonZeroLengthCases(v: Value)
    ensures v.Str? ==> (HasNonZeroLength(v) <==> v.s != "")
    ensures v.Arr? ==> (HasNonZeroLength(v) <==> |v.items| > 0)
    ensures v.Int? || v.NonInteger? || v.Bool? || v.Undefined? || v.Null? ==> !HasNonZeroLength(v)
  {
    if v.Str? {
      assert Member(v, "length") == Int(|v.s|);
      assert |v.s| == 0 <==> v.s == "";
    }
  }

  /** A value of non-zero length is truthy, so it has passed its presence
      stage. */
  lemma NonZeroLengthIsTruthy(v: Value)
    requires HasNonZeroLength(v)
    ensures Truthy(v)
  {
    if v.Str? {
      assert Member(v, "length") == Int(|v.s|);
    }
  }

  /** A body whose `data` is missing reads every field as `undefined`. */
  lemma MissingDataReadsUndefined(fields: map<string, Value>, key: string)
    requires "data" !in fields
    ensures Readable(Obj(fields)) && Field(Obj(fields), key) == Undefined
  {
  }
}
