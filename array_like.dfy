/** The array-likeness test of part1/chapter7/main.js (`isArrayLike`), over
    an abstract model of dynamically typed JavaScript values. */
module ArrayLike {

  /** A JavaScript number, abstracted: the three special values and a finite
      mathematical value (both zeros are `Finite(0.0)`). */
  datatype Number = NaN | PosInf | NegInf | Finite(x: real)

  /** A JavaScript value. Functions and objects carry their own properties,
      keyed by property name. */
  datatype Value =
    | Undefined
    | Null
    | Bool(b: bool)
    | Str(s: string)
    | Num(n: Number)
    | BigInt(i: int)
    | Func(fprops: map<string, Value>)
    | Obj(props: map<string, Value>)

  /** 2^32 - 1: every accepted length lies strictly below it. */
  const MaxLength: int := 4294967295

  /** JavaScript truthiness: the values that make `o && ...` go on. */
  predicate Truthy(v: Value) {
    match v
    case Undefined => false
    case Null => false
    case Bool(b) => b
    case Str(s) => s != ""
    case Num(n) => !n.NaN? && n != Finite(0.0)
    case BigInt(i) => i != 0
    case Func(_) => true
    case Obj(_) => true
  }

  /** The `typeof` operator. `typeof null` is "object", so the type test
      alone would let null through; the truthiness test stops it. */
  function TypeOf(v: Value): (t: string)
    ensures t == "object" <==> v.Obj? || v.Null?
  {
    match v
    case Undefined => "undefined"
    case Null => "object"
    case Bool(_) => "boolean"
    case Str(_) => "string"
    case Num(_) => "number"
    case BigInt(_) => "bigint"
    case Func(_) => "function"
    case Obj(_) => "object"
  }

  /** The property read `v[key]` on own properties. Reading a property of
      undefined or null throws a TypeError in JavaScript, hence the requires. */
  function Get(v: Value, key: string): (r: Value)
    requires !v.Undefined? && !v.Null?
  {
    match v
    case Obj(p) => if key in p then p[key] else Undefined
    case Func(p) => if key in p then p[key] else Undefined
    case Str(s) => if key == "length" then Num(Finite(|s| as real)) else Undefined
    case _ => Undefined
  }

  /** `Number.isFinite`: true only of a number that is not NaN or infinite;
      no conversion, so a BigInt is not finite. */
  predicate NumberIsFinite(v: Value) {
    v.Num? && v.n.Finite?
  }

  /** `Number.isInteger`: a finite number with no fractional part. */
  predicate NumberIsInteger(v: Value) {
    v.Num? && v.n.Finite? && v.n.x.Floor as real == v.n.x
  }

  /** The number that stands for the integer k. */
  function IndexNumber(k: int): (r: Value) {
    Num(Finite(k as real))
  }

  /** Reference definition: a length that an array could have, that is an
      integer k with 0 <= k < 2^32 - 1. */
  ghost predicate IsIndexLength(v: Value) {
    exists k: nat :: k < MaxLength && v == IndexNumber(k)
  }

  /** `isArrayLike(o)`: the six tests in the order `isArrayLike` makes them;
      each one is evaluated only when the ones before it passed. */
  function IsArrayLike(o: Value): (r: bool)
    ensures r ==> o.Obj?
  {
    && Truthy(o)
    && TypeOf(o) == "object"
    && NumberIsFinite(Get(o, "length"))
    && Get(o, "length").n.x >= 0.0
    && NumberIsInteger(Get(o, "length"))
    && Get(o, "length").n.x < MaxLength as real
  }

  /** A value is array-like exactly when it is a plain object whose `length`
      is an integer in [0, 2^32 - 2]. */
  lemma ArrayLikeIffIndexLength(o: Value)
    ensures IsArrayLike(o) <==> o.Obj? && IsIndexLength(Get(o, "length"))
  {
    if IsArrayLike(o) {
      var len := Get(o, "length");
      var k := len.n.x.Floor;
      assert len == IndexNumber(k);
    }
  }

  /** Every falsy value (undefined, null, false, "", 0, NaN, 0n) is rejected
      before its `length` is read. */
  lemma FalsyRejected(o: Value)
    requires !Truthy(o)
    ensures !IsArrayLike(o)
  {
  }

  /** Every value whose `typeof` is not "object" is rejected: strings,
      numbers, booleans, BigInts, functions and undefined. */
  lemma NonObjectRejected(o: Value)
    requires TypeOf(o) != "object"
    ensures !IsArrayLike(o)
  {
  }

  /** Functions have a `length` too, yet are rejected by the type test. */
  lemma FunctionRejected(p: map<string, Value>, k: nat)
    requires "length" in p && p["length"] == IndexNumber(k) && k < MaxLength
    ensures !IsArrayLike(Func(p))
  {
  }

  /** An object whose `length` is missing, not a number, a BigInt, NaN or
      infinite is rejected. */
  lemma NonFiniteLengthRejected(p: map<string, Value>)
    requires "length" !in p || !NumberIsFinite(p["length"])
    ensures !IsArrayLike(Obj(p))
  {
  }

  /** An object with a negative `length` is rejected. */
  lemma NegativeLengthRejected(p: map<string, Value>, x: real)
    requires "length" in p && p["length"] == Num(Finite(x)) && x < 0.0
    ensures !IsArrayLike(Obj(p))
  {
  }

  /** An object with a fractional `length` is rejected. */
  lemma FractionalLengthRejected(p: map<string, Value>, x: real)
    requires "length" in p && p["length"] == Num(Finite(x)) && x.Floor as real != x
    ensures !IsArrayLike(Obj(p))
  {
  }

  /** An object whose `length` is 2^32 - 1 or more is rejected. */
  lemma TooLongRejected(p: map<string, Value>, x: real)
    requires "length" in p && p["length"] == Num(Finite(x)) && x >= MaxLength as real
    ensures !IsArrayLike(Obj(p))
  {
  }

  /** Conversely, every object whose `length` is an integer in
      [0, 2^32 - 2] is accepted, whatever its other properties. */
  lemma IndexLengthAccepted(p: map<string, Value>, k: nat)
    requires "length" in p && p["length"] == IndexNumber(k) && k < MaxLength
    ensures IsArrayLike(Obj(p))
  {
  }

  /** Only `length` matters: writing any other data property of an ordinary
      object does not change the verdict. */
  lemma OtherPropertyIrrelevant(p: map<string, Value>, key: string, v: Value)
    requires key != "length"
    ensures IsArrayLike(Obj(p[key := v])) == IsArrayLike(Obj(p))
  {
  }

  /** The object literal `{"0": "a", "1": "b", "2": "c", length: 3}`. */
  function Letters(): (r: Value) {
    Obj(map["0" := Str("a"), "1" := Str("b"), "2" := Str("c"), "length" := IndexNumber(3)])
  }

  /** The script at the end of the file: test the object literal, set its
      `length` to 1, and test it again; both calls answer true. */
  method Scenario() returns (first: bool, second: bool)
    ensures first && second
  {
    var a := Letters();
    first := IsArrayLike(a);
    a := Obj(a.props["length" := IndexNumber(1)]);
    second := IsArrayLike(a);
  }

  /** The alternatives left as comments beside the script: `length: 3n` and
      `new Object()` are rejected, `new Array()` (an object whose length is 0)
      is accepted, and the string "string" is rejected. */
  lemma CommentedVariants()
    ensures !IsArrayLike(Obj(Letters().props["length" := BigInt(3)]))
    ensures !IsArrayLike(Obj(map[]))
    ensures IsArrayLike(Obj(map["length" := IndexNumber(0)]))
    ensures !IsArrayLike(Str("string"))
  {
  }
}
