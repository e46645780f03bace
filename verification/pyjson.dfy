/**
 * The document `json.loads` hands to the validator, and the handful of
 * Python built-ins the validator applies to it: the `in` operator, string
 * subscription `v["key"]`, and `float(v)`.  Each built-in either yields a
 * value or the error Python would raise, as a `PyError`.
 */
module PyJson {
  import opened Wrappers

  /** A parsed JSON value, as Python sees it (object keys are unique). */
  datatype Json =
    | JNull
    | JBool(b: bool)
    | JInt(i: int)
    | JFloat(r: real)
    | JString(s: string)
    | JArray(items: seq<Json>)
    | JObject(fields: map<string, Json>)

  /** The errors the built-ins below raise, with the text Python prints. */
  datatype PyError =
    | NotIterable(typeName: string)       // `k in v` on a number, bool or None
    | ListIndexedByStr                    // `v["k"]` on a list
    | StrIndexedByStr                     // `v["k"]` on a str
    | NotSubscriptable(typeName: string)  // `v["k"]` on a number, bool or None
    | KeyError(key: string)               // `v["k"]` on a dict without "k"
    | FloatTypeError(typeName: string)    // `float(v)` on None, a list or a dict
    | FloatValueError(message: string)    // `float(s)` on a str it cannot read
    | FloatOverflow                       // `float(n)` on an int beyond the double range

  /** Python's `type(v).__name__`. */
  function TypeName(v: Json): string {
    match v
    case JNull => "NoneType"
    case JBool(_) => "bool"
    case JInt(_) => "int"
    case JFloat(_) => "float"
    case JString(_) => "str"
    case JArray(_) => "list"
    case JObject(_) => "dict"
  }

  function ErrorText(e: PyError): string {
    match e
    case NotIterable(t) => "argument of type '" + t + "' is not iterable"
    case ListIndexedByStr => "list indices must be integers or slices, not str"
    case StrIndexedByStr => "string indices must be integers, not 'str'"
    case NotSubscriptable(t) => "'" + t + "' object is not subscriptable"
    case KeyError(k) => "'" + k + "'"
    case FloatTypeError(t) => "float() argument must be a string or a real number, not '" + t + "'"
    case FloatValueError(m) => m
    case FloatOverflow => "int too large to convert to float"
  }

  /**
   * 2^1024 - 2^970, half-way between the largest double and 2^1024: an int
   * of at least this magnitude rounds past the double range, and `float()`
   * raises `OverflowError` on it.
   */
  const FloatIntLimit: int :=
    0xFFFFFFFFFFFFFC00_0000000000000000_0000000000000000_0000000000000000_0000000000000000_0000000000000000_0000000000000000_0000000000000000_0000000000000000_0000000000000000_0000000000000000_0000000000000000_0000000000000000_0000000000000000_0000000000000000_0000000000000000


  /** `key` occurs in `s` as a contiguous substring. */
  predicate IsSubstring(key: string, s: string) {
    |key| <= |s| && (s[..|key|] == key || IsSubstring(key, s[1..]))
  }

  /** Python's `key in v` for a str `key`. */
  function In(key: string, v: Json): (r: Result<bool, PyError>)
    ensures r.Err? <==> !(v.JObject? || v.JArray? || v.JString?)
    ensures v.JObject? ==> r == Ok(key in v.fields)
  {
    match v
    case JObject(m) => Ok(key in m)
    case JArray(xs) => Ok(JString(key) in xs)
    case JString(s) => Ok(IsSubstring(key, s))
    case _ => Err(NotIterable(TypeName(v)))
  }

  /** Python's `v[key]` for a str `key`. */
  function Index(v: Json, key: string): (r: Result<Json, PyError>)
    ensures r.Ok? <==> v.JObject? && key in v.fields
    ensures r.Ok? ==> r.value == v.fields[key]
    ensures v.JObject? && key !in v.fields ==> r == Err(KeyError(key))
    ensures !v.JObject? ==> r.Err? && !r.error.KeyError?   // a TypeError, never a KeyError
  {
    match v
    case JObject(m) => if key in m then Ok(m[key]) else Err(KeyError(key))
    case JArray(_) => Err(ListIndexedByStr)
    case JString(_) => Err(StrIndexedByStr)
    case _ => Err(NotSubscriptable(TypeName(v)))
  }

  /** Python's `float(v)`; reading a str is delegated to `strToFloat`. */
  function Float(v: Json, strToFloat: string -> Result<real, string>): (r: Result<real, PyError>)
    ensures v.JInt? && -FloatIntLimit < v.i < FloatIntLimit ==> r == Ok(v.i as real)
    ensures v.JInt? && (v.i <= -FloatIntLimit || FloatIntLimit <= v.i) ==> r == Err(FloatOverflow)
    ensures v.JFloat? ==> r == Ok(v.r)
    ensures v.JBool? ==> r == Ok(if v.b then 1.0 else 0.0)
    ensures v.JString? && strToFloat(v.s).Ok? ==> r == Ok(strToFloat(v.s).value)
    ensures v.JString? && strToFloat(v.s).Err? ==> r == Err(FloatValueError(strToFloat(v.s).error))
    ensures (v.JNull? || v.JArray? || v.JObject?) ==> r == Err(FloatTypeError(TypeName(v)))
  {
    match v
    case JInt(i) =>
      if i <= -FloatIntLimit || FloatIntLimit <= i then Err(FloatOverflow) else Ok(i as real)
    case JFloat(x) => Ok(x)
    case JBool(b) => Ok(if b then 1.0 else 0.0)
    case JString(s) =>
      (match strToFloat(s)
       case Ok(x) => Ok(x)
       case Err(m) => Err(FloatValueError(m)))
    case _ => Err(FloatTypeError(TypeName(v)))
  }

  /** `isinstance(v, int) and v > 0`; a bool is an int in Python. */
  predicate IsPositiveIndex(v: Json) {
    (v.JInt? && v.i > 0) || v == JBool(true)
  }

  /** The int value of an int or bool (True is 1, False is 0). */
  function IntValue(v: Json): int
    requires v.JInt? || v.JBool?
  {
    if v.JInt? then v.i else if v.b then 1 else 0
  }

  predicate IsDigit(c: char) {
    '0' <= c <= '9'
  }

  /** The number a string of decimal digits denotes, most significant first. */
  function DigitsValue(s: string): nat
    requires forall k :: 0 <= k < |s| ==> IsDigit(s[k])
  {
    if s == [] then 0
    else
      var last := s[|s| - 1];
      assert IsDigit(last);
      DigitsValue(s[..|s| - 1]) * 10 + (last as int - '0' as int)
  }

  /** Decimal digits of `n`, as `str(n)` prints them: no leading zero, and they denote `n`. */
  function Decimal(n: nat): (r: string)
    ensures |r| > 0
    ensures forall k :: 0 <= k < |r| ==> IsDigit(r[k])
    ensures DigitsValue(r) == n
    ensures n > 0 ==> r[0] != '0'
  {
    var digit := ['0' + (n % 10) as char];
    if n < 10 then digit
    else
      var high := Decimal(n / 10);
      var r := high + digit;
      assert r[..|r| - 1] == high;
      r
  }

  /** Different numbers print differently. */
  lemma DecimalInjective(a: nat, b: nat)
    requires Decimal(a) == Decimal(b)
    ensures a == b
  {
    assert DigitsValue(Decimal(a)) == a;
  }
}
