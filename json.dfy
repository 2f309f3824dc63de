/**
 * JSON documents as the SDK builds and reads them. Objects keep their members
 * in insertion order, as Ruby hashes do; serialisation to text is not modelled.
 */
module Json {
  import opened Wrappers
  import opened RubyCore

  datatype Value =
    | JNull
    | JBool(b: bool)
    | JNumber(n: int)
    | JString(s: string)
    | JArray(items: seq<Value>)
    | JObject(members: seq<(string, Value)>)

  /** A nullable string attribute as it appears in a payload. */
  function OfString(o: Option<string>): (v: Value)
    ensures v == JNull <==> o.None?
  {
    match o
    case None => JNull
    case Some(s) => JString(s)
  }

  /** Hash#compact: the members whose value is not nil, in their original order. */
  function Compact(members: seq<(string, Value)>): (r: seq<(string, Value)>)
    ensures |r| <= |members|
    ensures forall m :: m in r <==> m in members && m.1 != JNull
    ensures (forall i :: 0 <= i < |members| ==> members[i].1 != JNull) ==> r == members
  {
    if members == [] then []
    else if members[0].1 == JNull then Compact(members[1..])
    else [members[0]] + Compact(members[1..])
  }

  /** Ruby truthiness of a parsed value: everything but nil and false. */
  predicate Truthy(v: Value) {
    v != JNull && v != JBool(false)
  }

  /** Whether `needle` occurs in `hay` as a contiguous substring. */
  predicate Contains(hay: string, needle: string)
  {
    needle <= hay || (hay != [] && Contains(hay[1..], needle))
  }

  /**
   * The value of the last member named `key`, or nil: JSON.parse builds a Hash,
   * so a later duplicate key overwrites an earlier one.
   */
  function Lookup(members: seq<(string, Value)>, key: string): (v: Value)
    ensures (forall i :: 0 <= i < |members| ==> members[i].0 != key) ==> v == JNull
    ensures members != [] && members[|members| - 1].0 == key ==> v == members[|members| - 1].1
    ensures v != JNull ==> exists i :: 0 <= i < |members| && members[i] == (key, v)
  {
    if members == [] then JNull
    else if members[|members| - 1].0 == key then members[|members| - 1].1
    else Lookup(members[..|members| - 1], key)
  }

  /**
   * `value[key]` on a parsed document with a string key: a Hash looks the key up,
   * a String answers the key when it contains it (nil otherwise), an Array or an
   * Integer raises TypeError, nil and booleans have no `[]`.
   */
  function Index(v: Value, key: string): (r: Result<Value, RubyError>)
    ensures r.Success? <==> v.JObject? || v.JString?
  {
    match v
    case JObject(members) => Success(Lookup(members, key))
    case JString(s) => Success(if Contains(s, key) then JString(key) else JNull)
    case JArray(_) => Failure(TypeError("no implicit conversion of String into Integer"))
    case JNumber(_) => Failure(TypeError("no implicit conversion of String into Integer"))
    case JNull => Failure(NoMethodError("undefined method `[]' for nil"))
    case JBool(b) => Failure(NoMethodError(if b then "undefined method `[]' for true" else "undefined method `[]' for false"))
  }
}
