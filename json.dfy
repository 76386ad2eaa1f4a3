/** Parsed JSON values and the JavaScript reads the bot performs on them. */
module Json {
  import opened Wrappers
  import opened Text

  /** A value `JSON.parse` can return. Numbers are exact reals. */
  datatype JsonValue =
    | JNull
    | JBool(b: bool)
    | JNumber(n: real)
    | JString(s: string)
    | JArray(items: seq<JsonValue>)
    | JObject(fields: map<string, JsonValue>)

  /** JavaScript truthiness (`Boolean(v)`) of a JSON value. */
  predicate Truthy(v: JsonValue) {
    match v
    case JNull => false
    case JBool(b) => b
    case JNumber(n) => n != 0.0
    case JString(s) => s != ""
    case _ => true
  }

  /** Truthiness of a possibly `undefined` value. */
  predicate TruthyOpt(v: Option<JsonValue>) {
    v.Some? && Truthy(v.value)
  }

  /** `v?.[key]` for a named (non-index) key: `undefined` unless `v` is an
      object that has the key. */
  function Member(v: Option<JsonValue>, key: string): (r: Option<JsonValue>)
    ensures r.Some? <==> (v.Some? && v.value.JObject? && key in v.value.fields)
  {
    if v.Some? && v.value.JObject? && key in v.value.fields then Some(v.value.fields[key]) else None
  }

  /** `String(v)` as `Array.prototype.join` applies it to a parsed value:
      `null` and the booleans by name, a number in decimal, a string as is,
      an array as its elements joined by commas (a `null` element giving
      nothing) and an object as `[object Object]`. */
  function JsString(v: JsonValue): string
    decreases v
  {
    match v
    case JNull => "null"
    case JBool(b) => if b then "true" else "false"
    case JNumber(n) => NumberText(n)
    case JString(s) => s
    case JArray(items) =>
      Join(seq(|items|, i requires 0 <= i < |items| => if items[i].JNull? then "" else JsString(items[i])), ",")
    case JObject(_) => "[object Object]"
  }

  /** A number in decimal: a `-` for a negative number, the integer digits
      and, when there is a fraction, a point and its digits. */
  function NumberText(n: real): (r: string)
    ensures r != ""
  {
    var a := if n < 0.0 then -n else n;
    var f := a - a.Floor as real;
    (if n < 0.0 then "-" else "") + NatToString(a.Floor)
      + (if f == 0.0 then "" else "." + FractionDigits(f, MaxFractionDigits))
  }

  const MaxFractionDigits: nat := 20

  /** The decimal digits of a fraction in [0, 1), without trailing zeros,
      cut off after `fuel` digits. */
  function FractionDigits(f: real, fuel: nat): (r: string)
    requires 0.0 <= f < 1.0
    ensures AllDigits(r) && |r| <= fuel
    decreases fuel
  {
    if f == 0.0 || fuel == 0 then ""
    else
      var d := (f * 10.0).Floor;
      [DigitChar(d)] + FractionDigits(f * 10.0 - d as real, fuel - 1)
  }

  /** An integral number is written as its integer. */
  lemma NumberTextOfInt(k: int)
    ensures NumberText(k as real) == IntToString(k)
  {
    var a := if k < 0 then -k else k;
    assert (if k as real < 0.0 then -(k as real) else k as real) == a as real;
    assert (a as real).Floor == a;
  }
}
