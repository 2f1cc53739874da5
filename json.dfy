/** The JavaScript values that reach the modelled code through untyped
    parameters (`result?: any`, `options?: any`, request bodies), with the two
    JavaScript tests the code applies to them: truthiness (`if (x)`, `x || d`)
    and class-validator's `IsObject`. */
module Json {

  datatype Json =
    | JNull
    | JUndefined
    | JBool(b: bool)
    | JNum(n: int)
    | JStr(s: string)
    | JArr(items: seq<Json>)
    | JObj(fields: map<string, Json>)

  /** JavaScript truthiness: `null`, `undefined`, `false`, `0` and `""` are
      falsy; every array and object, even an empty one, is truthy. (NaN and -0
      are not representable here.) */
  predicate Truthy(j: Json) {
    match j
    case JNull => false
    case JUndefined => false
    case JBool(b) => b
    case JNum(n) => n != 0
    case JStr(s) => s != ""
    case JArr(_) => true
    case JObj(_) => true
  }

  /** class-validator `IsObject`: a non-null object that is not an array. */
  predicate IsObject(j: Json) {
    j.JObj?
  }

  /** class-validator `IsOptional`: the other checks are skipped for a value
      that is `null` or `undefined`. */
  predicate IsNullish(j: Json) {
    j.JNull? || j.JUndefined?
  }
}
