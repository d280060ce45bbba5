/** Values decoded from a JSON resource, and the three pieces of JavaScript
    semantics the page script applies to them: property reads, truthiness
    (what `||` and `if` test) and the string conversion a DOM text property
    performs on assignment. */
module Json {

  /** A parsed JSON value. Numbers are kept as integers: the script only asks
      whether a number is falsy and what it prints as. */
  datatype Json =
    | JNull
    | JBool(b: bool)
    | JNum(n: int)
    | JStr(s: string)
    | JArr(items: seq<Json>)
    | JObj(fields: map<string, Json>)

  /** The keys the page script reads from fetched JSON. */
  const ScriptKeys: set<string> := {"entries", "image", "title", "tag", "excerpt", "link"}

  /** The result of reading `v.key`: a JSON value, `undefined`, or a method
      inherited from a built-in prototype (a function, hence truthy). */
  datatype Prop = Undefined | Defined(value: Json) | Builtin(name: string)

  /** Reading a property of `null` throws a TypeError. */
  datatype Read = TypeError | Value(prop: Prop)

  /** `v.key` for a key the script reads. An object yields its own field.
      Of those keys, strings inherit `link` (`String.prototype.link`) and
      arrays inherit `entries` (`Array.prototype.entries`); numbers, booleans
      and objects inherit none of them. */
  function Get(v: Json, key: string): (r: Read)
    requires key in ScriptKeys
    ensures r == TypeError <==> v == JNull
    ensures r.Value? && r.prop.Defined? ==> v.JObj? && key in v.fields && r.prop.value == v.fields[key]
    ensures v.JObj? && key in v.fields ==> r == Value(Defined(v.fields[key]))
    ensures v.JStr? && key == "link" ==> r.Value? && r.prop.Builtin?
    ensures r.Value? && r.prop.Builtin? ==> (v.JStr? && key == "link") || (v.JArr? && key == "entries")
  {
    match v
    case JNull => TypeError
    case JObj(fields) => if key in fields then Value(Defined(fields[key])) else Value(Undefined)
    case JStr(_) => if key == "link" then Value(Builtin(key)) else Value(Undefined)
    case JArr(_) => if key == "entries" then Value(Builtin(key)) else Value(Undefined)
    case _ => Value(Undefined)
  }

  /** JavaScript truthiness of a JSON value: null, false, 0 and "" are falsy;
      every array and object, even an empty one, is truthy. */
  predicate Truthy(v: Json) {
    match v
    case JNull => false
    case JBool(b) => b
    case JNum(n) => n != 0
    case JStr(s) => s != ""
    case JArr(_) => true
    case JObj(_) => true
  }

  predicate TruthyProp(p: Prop) {
    match p
    case Undefined => false
    case Defined(v) => Truthy(v)
    case Builtin(_) => true
  }

  function DigitChar(d: nat): char
    requires d < 10
  {
    "0123456789"[d]
  }

  /** Decimal digits of a natural number, without leading zeros. */
  function NatToString(n: nat): (r: string)
    decreases n
  {
    if n < 10 then [DigitChar(n)] else NatToString(n / 10) + [DigitChar(n % 10)]
  }

  function IntToString(i: int): string {
    if i < 0 then "-" + NatToString(-i) else NatToString(i)
  }

  function Join(parts: seq<string>, sep: string): string
    decreases |parts|
  {
    if parts == [] then ""
    else if |parts| == 1 then parts[0]
    else parts[0] + sep + Join(parts[1..], sep)
  }

  /** `String(v)`, as a DOM text property applies it: an array is its elements
      joined by commas (a null element prints as nothing), an object is
      "[object Object]". */
  function ToString(v: Json): string
    decreases v
  {
    match v
    case JNull => "null"
    case JBool(b) => if b then "true" else "false"
    case JNum(n) => IntToString(n)
    case JStr(s) => s
    case JArr(items) =>
      Join(seq(|items|, i requires 0 <= i < |items| =>
             if items[i].JNull? then "" else ToString(items[i])), ",")
    case JObj(_) => "[object Object]"
  }

  /** `String(v)` throws for an object with an own `toString` key: that key
      is not callable, and the inherited `valueOf` returns the object itself,
      not a primitive. An array throws when one of its non-null elements
      does. */
  predicate StringThrows(v: Json)
    decreases v
  {
    match v
    case JObj(fields) => "toString" in fields
    case JArr(items) => exists i :: 0 <= i < |items| && !items[i].JNull? && StringThrows(items[i])
    case _ => false
  }

  /** Writing `p || fallback` into a text property throws: the property is
      picked and its string conversion throws. */
  predicate OrElseThrows(p: Prop) {
    TruthyProp(p) && p.Defined? && StringThrows(p.value)
  }

  /** `p || fallback` written into a text property: the property's string if
      it is truthy, the fallback otherwise. A built-in method prints as its
      native source text. */
  function OrElse(p: Prop, fallback: string): (r: string)
    ensures !TruthyProp(p) ==> r == fallback
    ensures p.Defined? && p.value.JStr? && p.value.s != "" ==> r == p.value.s
  {
    match p
    case Defined(v) => if Truthy(v) then ToString(v) else fallback
    case Builtin(name) => "function " + name + "() { [native code] }"
    case Undefined => fallback
  }

  predicate StartsWith(s: string, prefix: string) {
    |prefix| <= |s| && s[..|prefix|] == prefix
  }
}
