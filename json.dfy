/**
 * The JavaScript values the worker reads out of JSON documents, and the
 * three operations on them that its fallback chains use: optional property
 * access (`v?.key`, `v?.[0]`), truthiness and `||`.
 */
module JsonValues {
  import opened Wrappers
  import opened Text

  /** A value produced by `JSON.parse`. Numbers are modelled as integers. */
  datatype Json =
    | JNull
    | JBool(b: bool)
    | JNum(n: int)
    | JStr(s: string)
    | JArr(items: seq<Json>)
    | JObj(fields: map<string, Json>)

  /** A value reached through optional chaining: `None` is `undefined`. */
  type Value = Option<Json>

  /** JavaScript truthiness: `undefined`, `null`, `false`, `0` and `""` are falsy. */
  predicate Truthy(v: Value)
  {
    match v
    case None => false
    case Some(j) =>
      match j
      case JNull => false
      case JBool(b) => b
      case JNum(n) => n != 0
      case JStr(s) => s != ""
      case JArr(_) => true
      case JObj(_) => true
  }

  /**
   * The falsy values are exactly `undefined`, `null`, `false`, `0` and the
   * empty string; every array and object, even an empty one, is truthy.
   */
  lemma FalsyValues(v: Value)
    ensures !Truthy(v) <==> v in {None, Some(JNull), Some(JBool(false)), Some(JNum(0)), Some(JStr(""))}
    ensures v.Some? && (v.value.JArr? || v.value.JObj?) ==> Truthy(v)
  {
  }

  /**
   * `v?.key` for the property names the worker reads. Only a parsed object
   * has own properties of those names; `undefined`, `null`, primitives and
   * arrays give `undefined`.
   */
  function Prop(v: Value, key: string): Value
  {
    if v.Some? && v.value.JObj? && key in v.value.fields then Some(v.value.fields[key]) else None
  }

  /** A property is defined exactly when an object has it as its own, and is then that field. */
  lemma PropDefined(v: Value, key: string)
    ensures Prop(v, key).Some? <==> v.Some? && v.value.JObj? && key in v.value.fields
    ensures Prop(v, key).Some? ==> Prop(v, key).value == v.value.fields[key]
  {
  }

  /**
   * `v?.[0]`: the first element of an array, the first character of a
   * string, the property "0" of an object, and `undefined` otherwise.
   */
  function Index0(v: Value): Value
  {
    match v
    case Some(JArr(items)) => if |items| > 0 then Some(items[0]) else None
    case Some(JStr(s)) => if |s| > 0 then Some(JStr(s[..1])) else None
    case Some(JObj(fields)) => if "0" in fields then Some(fields["0"]) else None
    case _ => None
  }

  /**
   * `?.[0]` is an array's first element or a string's first character when
   * there is one, an object's property "0", and `undefined` on anything else.
   */
  lemma Index0Defined(v: Value)
    ensures v.Some? && v.value.JArr? ==>
              (Index0(v).Some? <==> |v.value.items| > 0) && (Index0(v).Some? ==> Index0(v).value == v.value.items[0])
    ensures v.Some? && v.value.JStr? ==>
              (Index0(v).Some? <==> v.value.s != "") && (Index0(v).Some? ==> Index0(v).value == JStr(v.value.s[..1]))
    ensures v.Some? && v.value.JObj? ==> Index0(v) == Prop(v, "0")
    ensures v.None? || v.value.JNull? || v.value.JBool? || v.value.JNum? ==> Index0(v).None?
  {
  }

  /** `a || b`: the left operand when it is truthy, the right one otherwise. */
  function Or(a: Value, b: Value): Value
  {
    if Truthy(a) then a else b
  }

  /** `v || fallback` where the fallback is a string literal, so the result is always defined. */
  function OrElse(v: Value, fallback: Json): (r: Json)
    ensures Truthy(v) ==> Some(r) == v
    ensures !Truthy(v) ==> r == fallback
  {
    if Truthy(v) then v.value else fallback
  }

  /**
   * `String(j)`: how JavaScript turns a parsed value into text. Array
   * elements that are `null` become empty, as in `Array.prototype.join`;
   * every object prints as "[object Object]".
   */
  function JsString(j: Json): string
    decreases j
  {
    match j
    case JNull => "null"
    case JBool(b) => if b then "true" else "false"
    case JNum(n) => IntToDecimal(n)
    case JStr(s) => s
    case JArr(items) => JoinWith(ItemTexts(items), ",")
    case JObj(_) => "[object Object]"
  }

  /** The texts `Array.prototype.join` puts between the commas: `null` elements are empty. */
  function ItemTexts(items: seq<Json>): seq<string>
    decreases items
  {
    if items == [] then []
    else [if items[0].JNull? then "" else JsString(items[0])] + ItemTexts(items[1..])
  }

  /**
   * What `String` prints for each kind of value: a string as it is, `null`
   * and the booleans as their literals, an integer as its canonical numeral
   * (no leading zero) that reads back as that integer, an empty array as nothing, and any object as
   * "[object Object]".
   */
  lemma JsStringCases(j: Json)
    ensures j.JNull? ==> JsString(j) == "null"
    ensures j.JBool? ==> JsString(j) == if j.b then "true" else "false"
    ensures j.JNum? ==> IsIntText(JsString(j)) && ReadInt(JsString(j)) == j.n
    ensures j.JNum? && j.n == 0 ==> JsString(j) == "0"
    ensures j.JNum? && j.n != 0 ==> JsString(j)[if j.n < 0 then 1 else 0] != '0'
    ensures j.JStr? ==> JsString(j) == j.s
    ensures j.JArr? && j.items == [] ==> JsString(j) == ""
    ensures j.JObj? ==> JsString(j) == "[object Object]"
  {
  }
}
