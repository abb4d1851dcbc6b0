/** The structured value the `Codable` conformances read and write, and the
    keyed-container reads they perform. The text form of JSON is not modelled. */
module Json {

  import opened Wrappers

  datatype Json =
    | JNull
    | JBool(b: bool)
    | JNumber(n: int)
    | JString(s: string)
    | JArray(items: seq<Json>)
    | JObject(members: map<string, Json>)

  /** The `DecodingError` cases a keyed container can throw, with the key
      being read. */
  datatype DecodingError =
    | KeyNotFound(key: string)
    | ValueNotFound(key: string)
    | TypeMismatch(key: string)
    | DataCorrupted(key: string)

  /** `decoder.container(keyedBy:)`: the value must be an object. */
  function Container(j: Json): (r: Result<map<string, Json>, DecodingError>)
    ensures r.Success? <==> j.JObject?
  {
    if j.JObject? then Success(j.members) else Failure(TypeMismatch(""))
  }

  /** `d` is a record whose `key` member is the string `s`. */
  predicate Holds(d: Json, key: string, s: string) {
    d.JObject? && key in d.members && d.members[key] == JString(s)
  }

  /** `container.decode(String.self, forKey: key)`. */
  function DecodeString(members: map<string, Json>, key: string): (r: Result<string, DecodingError>)
    ensures r.Success? <==> key in members && members[key].JString?
    ensures r.Success? ==> members[key] == JString(r.value)
  {
    if key !in members then Failure(KeyNotFound(key))
    else match members[key]
      case JString(s) => Success(s)
      case JNull => Failure(ValueNotFound(key))
      case _ => Failure(TypeMismatch(key))
  }

  /** Decodes each element of an array as a string, in order. */
  function DecodeStrings(items: seq<Json>, key: string): (r: Result<seq<string>, DecodingError>)
    ensures r.Success? <==> forall i :: 0 <= i < |items| ==> items[i].JString?
    ensures r.Success? ==> |r.value| == |items| && forall i :: 0 <= i < |items| ==> items[i] == JString(r.value[i])
  {
    if items == [] then Success([])
    else match items[0]
      case JString(s) =>
        (match DecodeStrings(items[1..], key)
          case Success(rest) => Success([s] + rest)
          case Failure(e) => Failure(e))
      case JNull => Failure(ValueNotFound(key))
      case _ => Failure(TypeMismatch(key))
  }

  /** `container.decode([String].self, forKey: key)`. */
  function DecodeStringArray(members: map<string, Json>, key: string): (r: Result<seq<string>, DecodingError>)
    ensures r.Success? <==> key in members && members[key].JArray? && forall i :: 0 <= i < |members[key].items| ==> members[key].items[i].JString?
    ensures r.Success? ==> members[key] == EncodeStrings(r.value)
  {
    if key !in members then Failure(KeyNotFound(key))
    else match members[key]
      case JArray(items) => DecodeStrings(items, key)
      case JNull => Failure(ValueNotFound(key))
      case _ => Failure(TypeMismatch(key))
  }

  /** `container.encode(strings, forKey:)` writes an array of strings. */
  function EncodeStrings(names: seq<string>): (j: Json)
  {
    JArray(seq(|names|, i requires 0 <= i < |names| => JString(names[i])))
  }

  /** Reading back an encoded list gives the same names in the same order. */
  lemma StringsRoundTrip(names: seq<string>, key: string)
    ensures DecodeStringArray(map[key := EncodeStrings(names)], key) == Success(names)
  {
    var items := EncodeStrings(names).items;
    var r := DecodeStrings(items, key);
    assert r.Success?;
    assert r.value == names;
  }
}
