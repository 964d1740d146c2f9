/** Values as the app handles them: the fields of a JSON object received from
    the backend or built from a form, with JavaScript's notions of truthiness,
    strict equality and conversion to text. */
module Values {

  datatype Option<+T> = None | Some(value: T)

  datatype Result<+T, +E> = Ok(value: T) | Err(error: E)

  /** A field value. `Undefined` is what reading an absent field yields; the
      other cases are the JSON values the app meets (flat scalars and arrays of
      strings, which is what the backend's field errors are). */
  datatype Value =
    | Undefined
    | Null
    | Bool(b: bool)
    | Num(n: int)
    | Str(s: string)
    | StrList(items: seq<string>)

  /** A JSON object: an absent key reads as `undefined`. */
  type Obj = map<string, Value>

  /** `o.key` */
  function Field(o: Obj, key: string): Value
  {
    if key in o then o[key] else Undefined
  }

  /** `o?.key`: reading through a value that may be null. */
  function FieldOf(o: Option<Obj>, key: string): Value
  {
    if o.Some? then Field(o.value, key) else Undefined
  }

  /** `!!v` in JavaScript: only undefined, null, false, 0 and "" are falsy;
      every array, even an empty one, is truthy. */
  predicate Truthy(v: Value)
  {
    match v
    case Undefined => false
    case Null => false
    case Bool(b) => b
    case Num(n) => n != 0
    case Str(s) => s != ""
    case StrList(_) => true
  }

  /** `a === b`: scalars compare by value; two arrays read from different
      places are different objects, so they are never strictly equal. */
  predicate StrictEquals(a: Value, b: Value)
  {
    !a.StrList? && !b.StrList? && a == b
  }

  /** `items.join(sep)` */
  function Join(items: seq<string>, sep: string): (r: string)
    ensures |items| == 1 ==> r == items[0]
    ensures items == [] ==> r == ""
  {
    if |items| == 0 then ""
    else if |items| == 1 then items[0]
    else items[0] + sep + Join(items[1..], sep)
  }

  function Digit(d: nat): (c: char)
    requires d < 10
  {
    "0123456789"[d]
  }

  /** The decimal numeral of `n`, without leading zeros. */
  function NatText(n: nat): (r: string)
    ensures |r| > 0
    ensures forall i :: 0 <= i < |r| ==> '0' <= r[i] <= '9'
    ensures |r| > 1 ==> r[0] != '0'
  {
    if n < 10 then [Digit(n)] else NatText(n / 10) + [Digit(n % 10)]
  }

  function IntText(n: int): (r: string)
    ensures |r| > 0
  {
    if n < 0 then "-" + NatText(-n) else NatText(n)
  }

  /** `String(v)`, as a template literal `${v}` converts a value. */
  function ToText(v: Value): (r: string)
    ensures !v.StrList? && v != Str("") ==> |r| > 0
    ensures v.Str? ==> r == v.s
  {
    match v
    case Undefined => "undefined"
    case Null => "null"
    case Bool(b) => if b then "true" else "false"
    case Num(n) => IntText(n)
    case Str(s) => s
    case StrList(items) => Join(items, ",")
  }
}
