/** The slice of the Java runtime the SDK's constructors rely on: nullable references,
    checked exceptions, the boxed values a `Map<String, Object>` can hold, and what the
    casts `(String) v`, `(Double) v`, `(Integer) v`, `(String[]) v`, `(List<T>) v` and
    `((Number) v).longValue()` do with them. */
module JavaValues {

  /** A nullable reference: `None` is Java's `null`. */
  datatype Option<+T> = None | Some(value: T)

  /** Either a value or the exception a Java statement threw. */
  datatype Result<+T, +E> = Success(value: T) | Failure(error: E) {
    predicate IsFailure() { Failure? }

    function PropagateFailure<U>(): Result<U, E>
      requires Failure?
    {
      Failure(error)
    }

    function Extract(): T
      requires Success?
    {
      value
    }
  }

  /** The exceptions a constructor or `create` throws before any request is sent. */
  datatype Exception =
    | NullPointer(at: string)           // a null unboxed or dereferenced at `at`
    | ClassCast(key: string)            // a map value of the wrong class under `key`
    | UnknownParameters(keys: set<string>)
    | UnknownType(className: string)    // an element of `create`'s list of another class

  const INT32_MIN: int := -0x8000_0000
  const INT32_MAX: int := 0x7fff_ffff
  const INT64_MIN: int := -0x8000_0000_0000_0000
  const INT64_MAX: int := 0x7fff_ffff_ffff_ffff

  type Int32 = x: int | INT32_MIN <= x <= INT32_MAX
  type Int64 = x: int | INT64_MIN <= x <= INT64_MAX

  /** A `java.lang.Double`. Finite values are kept as reals: the SDK only stores them,
      except where `longValue()` truncates one. */
  datatype Double = Finite(x: real) | NaN | PositiveInfinity | NegativeInfinity

  /** `Boleto.Description`: a text and the part of the amount it explains; both fields nullable. */
  datatype Description = Description(text: Option<string>, amount: Option<Int32>)

  /** `Boleto.Discount`: a date up to which a percentage is taken off; both fields nullable. */
  datatype Discount = Discount(date: Option<string>, percentage: Option<Double>)

  /** The run-time object a map entry (or a list element) refers to. */
  datatype Value =
    | Null
    | JInteger(i: Int32)                    // java.lang.Integer
    | JLong(l: Int64)                       // java.lang.Long
    | JDouble(d: Double)                    // java.lang.Double
    | JOtherNumber(asLong: Int64)           // any other Number, with what its longValue() returns
    | JString(s: string)
    | JStringArray(strings: seq<Option<string>>)  // a String[]
    | JList(elems: seq<Value>)              // any java.util.List
    | JDescription(description: Description)  // a Boleto.Description
    | JDiscount(discount: Discount)           // a Boleto.Discount
    | JObject(className: string)            // an object of any other class
  {
    predicate IsNumber() { JInteger? || JLong? || JDouble? || JOtherNumber? }
  }

  /** A nullable String as the map value that holds it. */
  function StringValue(s: Option<string>): (v: Value)
    ensures CastString("", v) == Success(s)
  {
    if s.Some? then JString(s.value) else Null
  }

  /** `HashMap.get(key)` and `HashMap.remove(key)` return null for a missing key. */
  function Lookup(m: map<string, Value>, key: string): (v: Value)
    ensures key !in m ==> v == Null
    ensures key in m ==> v == m[key]
  {
    if key in m then m[key] else Null
  }

  /** Rounding toward zero, as Java's conversion of a double to an integer does. */
  function TruncateTowardZero(x: real): (n: int)
    ensures 0.0 <= x ==> n as real <= x < n as real + 1.0
    ensures x < 0.0 ==> n as real - 1.0 < x <= n as real
  {
    if x >= 0.0 then x.Floor else -((-x).Floor)
  }

  /** Java's `(long) d` for a double: NaN gives 0, out-of-range values saturate. */
  function DoubleToLong(d: Double): (n: Int64)
    ensures d.NaN? ==> n == 0
    ensures d.PositiveInfinity? ==> n == INT64_MAX
    ensures d.NegativeInfinity? ==> n == INT64_MIN
    ensures d.Finite? && INT64_MIN as real <= d.x <= INT64_MAX as real ==>
      n == TruncateTowardZero(d.x)
    ensures d.Finite? && d.x > INT64_MAX as real ==> n == INT64_MAX
    ensures d.Finite? && d.x < INT64_MIN as real ==> n == INT64_MIN
  {
    match d
    case NaN => 0
    case PositiveInfinity => INT64_MAX
    case NegativeInfinity => INT64_MIN
    case Finite(x) =>
      var t := TruncateTowardZero(x);
      if t > INT64_MAX then INT64_MAX else if t < INT64_MIN then INT64_MIN else t
  }

  /** `((Number) v).longValue()` for the value stored under `key`. */
  function CastLongValue(key: string, v: Value): (r: Result<Int64, Exception>)
    ensures r.Success? <==> v.IsNumber()
    ensures v.Null? ==> r == Failure(NullPointer(key))
    ensures !v.Null? && !v.IsNumber() ==> r == Failure(ClassCast(key))
    ensures v.JInteger? ==> r == Success(v.i)
    ensures v.JLong? ==> r == Success(v.l)
    ensures v.JOtherNumber? ==> r == Success(v.asLong)
    ensures v.JDouble? ==> r == Success(DoubleToLong(v.d))
  {
    match v
    case Null => Failure(NullPointer(key))
    case JInteger(i) => Success(i)
    case JLong(l) => Success(l)
    case JDouble(d) => Success(DoubleToLong(d))
    case JOtherNumber(n) => Success(n)
    case _ => Failure(ClassCast(key))
  }

  /** `(String) v`. */
  function CastString(key: string, v: Value): (r: Result<Option<string>, Exception>)
    ensures r.Success? <==> v.Null? || v.JString?
    ensures r.Failure? ==> r.error == ClassCast(key)
    ensures r == Success(None) <==> v.Null?
    ensures forall s :: r == Success(Some(s)) <==> v == JString(s)
  {
    match v
    case Null => Success(None)
    case JString(s) => Success(Some(s))
    case _ => Failure(ClassCast(key))
  }

  /** `(Double) v`: an Integer or a Long is not a Double. */
  function CastDouble(key: string, v: Value): (r: Result<Option<Double>, Exception>)
    ensures r.Success? <==> v.Null? || v.JDouble?
    ensures r.Failure? ==> r.error == ClassCast(key)
    ensures r == Success(None) <==> v.Null?
    ensures forall d :: r == Success(Some(d)) <==> v == JDouble(d)
  {
    match v
    case Null => Success(None)
    case JDouble(d) => Success(Some(d))
    case _ => Failure(ClassCast(key))
  }

  /** `(Integer) v`: a Long is not an Integer. */
  function CastInteger(key: string, v: Value): (r: Result<Option<Int32>, Exception>)
    ensures r.Success? <==> v.Null? || v.JInteger?
    ensures r.Failure? ==> r.error == ClassCast(key)
    ensures r == Success(None) <==> v.Null?
    ensures forall i: Int32 :: r == Success(Some(i)) <==> v == JInteger(i)
  {
    match v
    case Null => Success(None)
    case JInteger(i) => Success(Some(i))
    case _ => Failure(ClassCast(key))
  }

  /** `(String[]) v`. */
  function CastStringArray(key: string, v: Value)
    : (r: Result<Option<seq<Option<string>>>, Exception>)
    ensures r.Success? <==> v.Null? || v.JStringArray?
    ensures r.Failure? ==> r.error == ClassCast(key)
    ensures r == Success(None) <==> v.Null?
    ensures forall a :: r == Success(Some(a)) <==> v == JStringArray(a)
  {
    match v
    case Null => Success(None)
    case JStringArray(a) => Success(Some(a))
    case _ => Failure(ClassCast(key))
  }

  /** `(List<T>) v`: the element type is erased, so any list passes, whatever it holds. */
  function CastList(key: string, v: Value): (r: Result<Option<seq<Value>>, Exception>)
    ensures r.Success? <==> v.Null? || v.JList?
    ensures r.Failure? ==> r.error == ClassCast(key)
    ensures r == Success(None) <==> v.Null?
    ensures forall l :: r == Success(Some(l)) <==> v == JList(l)
  {
    match v
    case Null => Success(None)
    case JList(l) => Success(Some(l))
    case _ => Failure(ClassCast(key))
  }
}
