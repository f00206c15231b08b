/**
 * Python's view of decoded JSON values beyond `json` itself: the numeric
 * value of a float, `str(value)`, `isinstance(value, dict)` and the
 * `or`-default idiom (`value or default`).
 */
module PyJson {
  import opened Wrappers
  import opened PyText
  import opened JsonValue

  /** A Python float: a finite decimal in canonical form. */
  type Float = d: Decimal | d.Canonical() witness Decimal(0, 0)

  /** `10^e` as a real, for any integer `e`. */
  function Pow10Real(e: int): (r: real)
    ensures r > 0.0
    decreases if e >= 0 then e else -e
  {
    if e == 0 then 1.0
    else if e > 0 then 10.0 * Pow10Real(e - 1)
    else Pow10Real(e + 1) / 10.0
  }

  /** The number a decimal stands for. */
  function DecimalValue(d: Decimal): (r: real)
    ensures d.mantissa == 0 ==> r == 0.0
    ensures d.mantissa > 0 ==> r > 0.0
    ensures d.mantissa < 0 ==> r < 0.0
  {
    d.mantissa as real * Pow10Real(d.exponent)
  }

  /**
   * `str(value)` for a decoded JSON value. Python writes lists and dicts with
   * its own `repr` (single quotes, insertion order); that text is supplied by
   * `containerStr`, which the model does not look inside.
   */
  function PyStr(j: Json, containerStr: Json -> string): (r: string)
    ensures j.JStr? ==> r == j.s
    ensures j.JNull? ==> r == "None"
    ensures j.JBool? ==> r == (if j.b then "True" else "False")
  {
    match j
    case JNull => "None"
    case JBool(b) => if b then "True" else "False"
    case JInt(i) => IntToString(i)
    case JFloat(f) => FloatRepr(f)
    case JStr(s) => s
    case JArr(_) => containerStr(j)
    case JObj(_) => containerStr(j)
  }

  /** Python's `value or default`: a falsy value gives way to the default. */
  function OrElse(j: Json, default: Json): (r: Json)
    ensures Truthy(j) ==> r == j
    ensures !Truthy(j) ==> r == default
  {
    if Truthy(j) then j else default
  }
}
