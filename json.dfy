/** JSON values as the pages read them out of a stored `pipeline_data` blob,
    with the JavaScript semantics of the few operations applied to them:
    truthiness, optional chaining (`o?.key`), `Object.keys(o).length`,
    `o?.length` and the relational test `x > 0`. */
module Json {
  import opened Wrappers
  import JsString

  datatype Json =
    | JNull
    | JBool(b: bool)
    | JNum(n: real)
    | JStr(s: string)
    | JArr(items: seq<Json>)
    | JObj(fields: map<string, Json>)

  /** ToBoolean: `null`, `false`, `0` and `""` are falsy; arrays and objects are truthy. */
  predicate Truthy(j: Json) {
    match j
    case JNull => false
    case JBool(b) => b
    case JNum(n) => n != 0.0
    case JStr(s) => s != ""
    case JArr(_) => true
    case JObj(_) => true
  }

  /** `o?.[key]` on a property of `o`'s own: undefined unless `o` is an object holding `key`. */
  function Member(o: Option<Json>, key: string): (r: Option<Json>)
    ensures r.Some? <==> o.Some? && o.value.JObj? && key in o.value.fields
    ensures r.Some? ==> r.value == o.value.fields[key]
  {
    match o
    case Some(JObj(m)) => if key in m then Some(m[key]) else None
    case _ => None
  }

  /** `Object.keys(j).length`: object entries, array indices or string indices. */
  function KeyCount(j: Json): nat {
    match j
    case JObj(m) => |m|
    case JArr(items) => |items|
    case JStr(s) => |s|
    case _ => 0
  }

  predicate IsDigit(c: char) {
    '0' <= c <= '9'
  }

  /** Digits with at most one decimal point and at least one digit: `12`, `0.5`, `.5`, `3.`. */
  predicate IsPlainDecimal(t: string) {
    && (forall i :: 0 <= i < |t| ==> IsDigit(t[i]) || t[i] == '.')
    && (forall i, j :: 0 <= i < j < |t| && t[i] == '.' ==> t[j] != '.')
    && (exists i :: 0 <= i < |t| && IsDigit(t[i]))
  }

  /** A digit of the radix named by a `0x`, `0o` or `0b` prefix letter. */
  predicate IsRadixDigit(prefix: char, c: char) {
    if prefix == 'x' || prefix == 'X' then IsDigit(c) || 'a' <= c <= 'f' || 'A' <= c <= 'F'
    else if prefix == 'o' || prefix == 'O' then '0' <= c <= '7'
    else '0' <= c <= '1'
  }

  /** A `0x…`, `0o…` or `0b…` literal whose value is not zero. */
  predicate IsPositiveRadixLiteral(t: string) {
    && |t| >= 3 && t[0] == '0' && t[1] in "xXoObB"
    && (forall i :: 2 <= i < |t| ==> IsRadixDigit(t[1], t[i]))
    && (exists i :: 2 <= i < |t| && t[i] != '0')
  }

  /** An unsigned decimal literal (no exponent) whose value is not zero, or `Infinity`. */
  predicate IsPositiveUnsigned(t: string) {
    t == "Infinity" || (IsPlainDecimal(t) && exists i :: 0 <= i < |t| && '1' <= t[i] <= '9')
  }

  /** `Number(s) > 0` for a string: the trimmed text is a positive numeric literal. */
  predicate StringIsPositive(s: string) {
    var t := JsString.Trim(s);
    if t != [] && t[0] == '+' then IsPositiveUnsigned(t[1..])
    else if t != [] && t[0] == '-' then false
    else IsPositiveUnsigned(t) || IsPositiveRadixLiteral(t)
  }

  /** `String(j)` is a positive numeric string; an array's string form is its
      comma-joined elements, so only a one-element array can be numeric. */
  predicate StringFormIsPositive(j: Json) {
    match j
    case JNull => false
    case JBool(_) => false
    case JNum(n) => n > 0.0
    case JStr(s) => StringIsPositive(s)
    case JArr(items) => |items| == 1 && StringFormIsPositive(items[0])
    case JObj(_) => false
  }

  /** `j > 0`: `j` is converted to a primitive and then to a number. */
  predicate IsPositive(j: Json) {
    match j
    case JNull => false
    case JBool(b) => b
    case JNum(n) => n > 0.0
    case JStr(s) => StringIsPositive(s)
    case JArr(_) => StringFormIsPositive(j)
    case JObj(_) => false
  }

  /** `o > 0` where `o` may be undefined (`undefined > 0` is false). */
  predicate PositiveValue(o: Option<Json>) {
    o.Some? && IsPositive(o.value)
  }

  /** `o?.length > 0`: arrays and strings have a length; an object has one only
      as an own `length` entry; anything else yields undefined. */
  predicate LengthPositive(o: Option<Json>) {
    match o
    case None => false
    case Some(JArr(items)) => |items| > 0
    case Some(JStr(s)) => |s| > 0
    case Some(JObj(m)) => "length" in m && IsPositive(m["length"])
    case Some(_) => false
  }
}
