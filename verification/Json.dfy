/** JSON values as the decoder hands them over: numbers keep their spelling
    (json.Number), objects are maps, and keys are compared exactly. */
module Json {
  import opened Prelude

  datatype Numeral = Int(value: int) | Decimal(text: string)

  datatype Json =
    | Null
    | Bool(b: bool)
    | Num(n: Numeral)
    | Str(s: string)
    | Arr(items: seq<Json>)
    | Obj(fields: map<string, Json>)

  const MIN_INT64: int := -0x8000_0000_0000_0000
  const MAX_INT64: int := 0x7FFF_FFFF_FFFF_FFFF

  predicate FitsInt64(i: int) {
    MIN_INT64 <= i <= MAX_INT64
  }

  /** What 64-bit arithmetic makes of a value. */
  function WrapInt64(x: int): int {
    (x - MIN_INT64) % 0x1_0000_0000_0000_0000 + MIN_INT64
  }

  /** json.Number.Int64 with its error ignored: out-of-range digits saturate,
      anything that is not an integer literal gives zero. */
  function Int64OrZero(n: Numeral): (r: int)
    ensures FitsInt64(r)
  {
    match n
    case Decimal(_) => 0
    case Int(i) => if i > MAX_INT64 then MAX_INT64 else if i < MIN_INT64 then MIN_INT64 else i
  }

  /** The value at a key, or None when the key is absent. */
  function Lookup(fields: map<string, Json>, key: string): Option<Json> {
    if key in fields then Some(fields[key]) else None
  }

  /** obj[key].(string), with "" for every other case. */
  function StringField(fields: map<string, Json>, key: string): string {
    if key in fields && fields[key].Str? then fields[key].s else ""
  }

  function FirstString(fields: map<string, Json>, keys: seq<string>): string {
    if keys == [] then ""
    else if StringField(fields, keys[0]) != "" then StringField(fields, keys[0])
    else FirstString(fields, keys[1..])
  }
}
