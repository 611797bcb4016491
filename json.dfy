/** The JSON values of an RPC request, and positional access to its parameters. */
module Json {
  import opened Wrappers
  import opened Payloads

  datatype JValue =
    | JNull
    | JString(text: string)
    | JArray(items: seq<JValue>)
    | JObject(fields: map<string, JValue>)

  /** The positional parameter at index `i`; an index out of range throws. */
  function Param(ps: seq<JValue>, i: nat): (r: Result<JValue, Error>)
    ensures r.Success? <==> i < |ps|
    ensures r.Success? ==> r.value == ps[i]
    ensures r.Failure? ==> r.error == Fault
  {
    if i < |ps| then Success(ps[i]) else Failure(Fault)
  }

  /** The text of a JSON string; null throws, and arrays and objects are treated as malformed. */
  function AsString(v: JValue): (r: Result<string, Error>)
    ensures r.Success? <==> v.JString?
    ensures r.Success? ==> r.value == v.text
    ensures r.Failure? ==> r.error == Fault
  {
    if v.JString? then Success(v.text) else Failure(Fault)
  }

  /**
    The member `key` of an object; a missing key reads as null. For any other value,
    null included, the model also reads null, where the library may throw at the
    indexer: every caller reads the member as text next, which throws for null, so
    both give the same exception.
   */
  function Field(v: JValue, key: string): (r: JValue)
    ensures v.JObject? && key in v.fields ==> r == v.fields[key]
    ensures !(v.JObject? && key in v.fields) ==> r == JNull
  {
    if v.JObject? && key in v.fields then v.fields[key] else JNull
  }

  /** The text of the positional parameter at index `i`. */
  function Text(ps: seq<JValue>, i: nat): (r: Result<string, Error>)
    ensures r.Success? <==> i < |ps| && ps[i].JString?
    ensures r.Success? ==> r.value == ps[i].text
    ensures r.Failure? ==> r.error == Fault
  {
    var v :- Param(ps, i);
    AsString(v)
  }

  /** The items of the positional parameter at index `i` read as an array; anything else throws, either at the cast or, for null, when its count is read. */
  function ArrayParam(ps: seq<JValue>, i: nat): (r: Result<seq<JValue>, Error>)
    ensures r.Success? <==> i < |ps| && ps[i].JArray?
    ensures r.Success? ==> r.value == ps[i].items
    ensures r.Failure? ==> r.error == Fault
  {
    if i < |ps| && ps[i].JArray? then Success(ps[i].items) else Failure(Fault)
  }

  /** The text of the member `key` of an object entry. */
  function FieldText(v: JValue, key: string): (r: Result<string, Error>)
    ensures r.Success? <==> v.JObject? && key in v.fields && v.fields[key].JString?
    ensures r.Success? ==> r.value == v.fields[key].text
    ensures r.Failure? ==> r.error == Fault
  {
    AsString(Field(v, key))
  }
}
