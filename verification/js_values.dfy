/** JavaScript values as the service code sees them after `JSON.parse`, with the
    parts of the language's property access that the modelled code relies on. */
module JsValues {

  datatype Option<+T> = None | Some(value: T)

  /** A JSON value. `JObj` keeps an object's own properties in the engine's
      enumeration order; like every JavaScript object, its keys are distinct. */
  datatype JValue =
    | JNull
    | JBool(b: bool)
    | JNum(n: real)
    | JStr(s: string)
    | JArr(items: seq<JValue>)
    | JObj(fields: seq<(string, JValue)>)

  /** What a `throw` delivers to a `catch`: an engine TypeError (reading a
      property of null or undefined), an `Error` object with its name and
      message, or a thrown value that is not an `Error`. */
  datatype Thrown =
    | TypeError
    | JsError(name: string, message: string)
    | NotAnError

  /** The completion of a call: a returned value or a thrown one. */
  datatype Outcome<+T> = Returned(value: T) | Threw(error: Thrown)

  /** JavaScript truthiness; `None` stands for `undefined`. */
  predicate Truthy(v: Option<JValue>) {
    match v
    case None => false
    case Some(JNull) => false
    case Some(JBool(b)) => b
    case Some(JNum(n)) => n != 0.0
    case Some(JStr(s)) => s != ""
    case Some(_) => true
  }

  function DigitChar(d: nat): char
    requires d < 10
  {
    "0123456789"[d]
  }

  /** The canonical decimal spelling of an array index, as `Object.keys` gives it. */
  function DecimalString(n: nat): (s: string)
    ensures |s| > 0
  {
    if n < 10 then [DigitChar(n)] else DecimalString(n / 10) + [DigitChar(n % 10)]
  }

  function IndexKeys(n: nat): (keys: seq<string>)
    ensures |keys| == n
  {
    seq(n, i requires 0 <= i < n => DecimalString(i))
  }

  predicate IsDigit(c: char) {
    '0' <= c <= '9'
  }

  function DigitsValue(s: string): nat
    requires forall i :: 0 <= i < |s| ==> IsDigit(s[i])
  {
    if s == [] then 0
    else
      assert IsDigit(s[|s| - 1]);
      DigitsValue(s[..|s| - 1]) * 10 + (s[|s| - 1] as int - '0' as int)
  }

  /** The array index a property key denotes, if it is a canonical one. */
  function ParseIndex(k: string): Option<nat> {
    if k == [] || (exists i :: 0 <= i < |k| && !IsDigit(k[i])) || (|k| > 1 && k[0] == '0') then None
    else Some(DigitsValue(k))
  }

  /** The value of the first field named `k`. */
  function Lookup(fields: seq<(string, JValue)>, k: string): (v: Option<JValue>)
    ensures v.Some? ==> exists i :: 0 <= i < |fields| && fields[i] == (k, v.value)
    ensures v.None? ==> forall i :: 0 <= i < |fields| ==> fields[i].0 != k
  {
    if fields == [] then None
    else if fields[0].0 == k then Some(fields[0].1)
    else Lookup(fields[1..], k)
  }

  /** `Object.keys(v)` for a value that is not null (for null it throws). */
  function OwnKeys(v: JValue): seq<string> {
    match v
    case JObj(fs) => seq(|fs|, i requires 0 <= i < |fs| => fs[i].0)
    case JArr(xs) => IndexKeys(|xs|)
    case JStr(s) => IndexKeys(|s|)
    case _ => []
  }

  /** `v[k]` for a value that is not null (for null the read throws, which the
      callers decide); `None` is `undefined`. Inherited prototype members are
      not modelled. */
  function Prop(v: JValue, k: string): Option<JValue> {
    match v
    case JObj(fs) => Lookup(fs, k)
    case JArr(xs) =>
      if k == "length" then Some(JNum(|xs| as real))
      else (match ParseIndex(k)
            case Some(i) => if i < |xs| then Some(xs[i]) else None
            case None => None)
    case JStr(s) =>
      if k == "length" then Some(JNum(|s| as real))
      else (match ParseIndex(k)
            case Some(i) => if i < |s| then Some(JStr([s[i]])) else None
            case None => None)
    case _ => None
  }
}
