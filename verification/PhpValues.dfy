/**
 * The dynamically typed PHP values that cross the boundary between the
 * provider, the ConfigCat client and the OpenFeature framework.
 */
module PhpValues {

  /** A PHP float, kept as its IEEE-754 binary64 bit pattern; no arithmetic is modelled. */
  datatype Double = Double(bits: bv64)

  /** A key of a PHP array. */
  datatype ArrayKey = IntKey(i: int) | StrKey(s: string)

  /**
   * A PHP value as the provider sees it. `ArrVal` is an ordered PHP array
   * (the object default and what `json_decode(..., true)` builds); `NullVal`
   * is what `json_decode` may return.
   */
  datatype Value =
    | BoolVal(b: bool)
    | IntVal(i: int)
    | FloatVal(f: Double)
    | StrVal(s: string)
    | ArrVal(entries: seq<(ArrayKey, Value)>)
    | NullVal
}
