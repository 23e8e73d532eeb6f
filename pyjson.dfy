/** Decoded JSON values as Python's `json` module hands them to the gateway,
    together with the two pieces of Python semantics the gateway relies on:
    the truth value of a decoded value and `.get` on it. */
module PyJson {

  /** A decoded JSON document. Numbers are integral here (see README). */
  datatype Json =
    | JNull
    | JBool(b: bool)
    | JNumber(n: int)
    | JString(s: string)
    | JArray(items: seq<Json>)
    | JObject(fields: map<string, Json>)

  /** The outcome of decoding a body as JSON: a value, or a decoding error
      (Python's `ValueError`, or `None` from `get_json(silent=True)`). */
  datatype BodyParse = NotJson | Parsed(value: Json)

  /** The exception that `.get` raises on anything but a dict. */
  datatype Fault = AttributeError(typeName: string)

  /** Python's name for the type of a decoded value. */
  function TypeName(j: Json): string {
    match j
    case JNull => "NoneType"
    case JBool(_) => "bool"
    case JNumber(_) => "int"
    case JString(_) => "str"
    case JArray(_) => "list"
    case JObject(_) => "dict"
  }

  /** Python's truth value: None, False, 0, "", [] and {} are falsy. */
  predicate Truthy(j: Json) {
    match j
    case JNull => false
    case JBool(b) => b
    case JNumber(n) => n != 0
    case JString(s) => s != ""
    case JArray(items) => items != []
    case JObject(fields) => fields != map[]
  }

  /** The result of evaluating `receiver.get(key)`. */
  datatype GetResult = Value(v: Json) | Raises(fault: Fault)

  /** `receiver.get(key)`: a dict gives the member or `None` when the key is
      absent; every other decoded value has no `get` attribute. */
  function Get(receiver: Json, key: string): (r: GetResult)
    ensures r.Raises? <==> !receiver.JObject?
    ensures r.Raises? ==> r.fault == AttributeError(TypeName(receiver))
    ensures r.Value? ==> (r.v == JNull <==> key !in receiver.fields || receiver.fields[key] == JNull)
  {
    match receiver
    case JObject(fields) => Value(if key in fields then fields[key] else JNull)
    case _ => Raises(AttributeError(TypeName(receiver)))
  }

  /** `receiver` is a dict whose member `key` is a string. */
  predicate HasString(receiver: Json, key: string) {
    receiver.JObject? && key in receiver.fields && receiver.fields[key].JString?
  }

  /** `isinstance(receiver.get(key), str)` holds exactly when the receiver is
      a dict holding a string under `key`, and the string is that member. */
  lemma GetString(receiver: Json, key: string)
    ensures (Get(receiver, key).Value? && Get(receiver, key).v.JString?) <==> HasString(receiver, key)
    ensures HasString(receiver, key) ==> Get(receiver, key).v == receiver.fields[key]
  {
  }
}
