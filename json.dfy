/**
 * A JSON value, as `serde_json::Value`, with the accessors the core uses
 * (`get`, `as_str`, `as_u64`, `as_bool`) and the field decoders that
 * serde's derived `Deserialize` applies to struct fields.
 */
module Json {
  import opened Wrappers
  import opened MachineInts

  /** Objects keep their fields in order; the model assumes distinct keys. */
  datatype Json =
    | JNull
    | JBool(b: bool)
    | JInt(i: int)
    | JFloat(f: real)
    | JStr(s: string)
    | JArr(items: seq<Json>)
    | JObj(fields: seq<(string, Json)>)

  /** Whether `key` names a field of `fields`. */
  predicate HasKey(fields: seq<(string, Json)>, key: string) {
    exists i | 0 <= i < |fields| :: fields[i].0 == key
  }

  /** The value of the first field named `key` (`Map::get`). */
  function Get(fields: seq<(string, Json)>, key: string): Option<Json> {
    if fields == [] then None
    else if fields[0].0 == key then Some(fields[0].1)
    else Get(fields[1..], key)
  }

  /** `Get` finds a value exactly when some field has the key, and that field's value. */
  lemma {:induction false} GetSpec(fields: seq<(string, Json)>, key: string)
    ensures Get(fields, key).Some? <==> HasKey(fields, key)
    ensures Get(fields, key).Some? ==> (key, Get(fields, key).value) in fields
  {
    if fields != [] && fields[0].0 != key {
      GetSpec(fields[1..], key);
      if HasKey(fields, key) {
        var i :| 0 <= i < |fields| && fields[i].0 == key;
        assert fields[1..][i - 1].0 == key;
      }
    }
  }

  /** The field at index `i` is the one `Get` finds when no earlier field has its key. */
  lemma {:induction false} GetAt(fields: seq<(string, Json)>, i: nat, key: string)
    requires i < |fields| && fields[i].0 == key
    requires forall j | 0 <= j < i :: fields[j].0 != key
    ensures Get(fields, key) == Some(fields[i].1)
  {
    if i > 0 {
      GetAt(fields[1..], i - 1, key);
    }
  }

  /** No two fields share a key. */
  predicate DistinctKeys(fields: seq<(string, Json)>) {
    forall i, j | 0 <= i < j < |fields| :: fields[i].0 != fields[j].0
  }

  /** With distinct keys, every field is the one `Get` finds for its key. */
  lemma GetDistinct(fields: seq<(string, Json)>, i: nat)
    requires DistinctKeys(fields) && i < |fields|
    ensures Get(fields, fields[i].0) == Some(fields[i].1)
  {
    GetAt(fields, i, fields[i].0);
  }

  /** A key found among the first `n` fields is found at the same place in the whole list. */
  lemma {:induction false} GetPrefix(fields: seq<(string, Json)>, n: nat, key: string)
    requires n <= |fields| && Get(fields[..n], key).Some?
    ensures Get(fields, key) == Get(fields[..n], key)
  {
    assert fields[..n] != [];
    if fields[0].0 != key {
      assert fields[..n][1..] == fields[1..][..n - 1];
      GetPrefix(fields[1..], n - 1, key);
    }
  }

  /** `Get` finds nothing when no field has the key. */
  lemma {:induction false} GetAbsent(fields: seq<(string, Json)>, key: string)
    requires forall j | 0 <= j < |fields| :: fields[j].0 != key
    ensures Get(fields, key) == None
  {
    if fields != [] {
      GetAbsent(fields[1..], key);
    }
  }

  /** `Value::get(key)`: a field of an object, nothing for any other value. */
  function Field(v: Json, key: string): Option<Json> {
    if v.JObj? then Get(v.fields, key) else None
  }

  /** `Value::as_str` applied to an optional value. */
  function AsStr(v: Option<Json>): Option<string> {
    if v.Some? && v.value.JStr? then Some(v.value.s) else None
  }

  /** `Value::as_u64`: an integer in the range of `u64`. */
  function AsU64(v: Option<Json>): Option<u64> {
    if v.Some? && v.value.JInt? && 0 <= v.value.i < U64Limit then Some(v.value.i) else None
  }

  /** `Value::as_bool` applied to an optional value. */
  function AsBool(v: Option<Json>): Option<bool> {
    if v.Some? && v.value.JBool? then Some(v.value.b) else None
  }

  /** Message for a required struct field that is absent. */
  function MissingField(key: string): string {
    "missing field `" + key + "`"
  }

  /** Message for a struct field whose value has the wrong JSON type. */
  function InvalidType(key: string, expected: string): string {
    "invalid type for field `" + key + "`, expected " + expected
  }

  /** A required `String` field. */
  function DecodeString(fields: seq<(string, Json)>, key: string): (r: Result<string, string>)
    ensures r.Success? <==> Get(fields, key).Some? && Get(fields, key).value.JStr?
    ensures r.Success? ==> r.value == Get(fields, key).value.s
  {
    match Get(fields, key)
    case None => Failure(MissingField(key))
    case Some(JStr(s)) => Success(s)
    case Some(_) => Failure(InvalidType(key, "a string"))
  }

  /** An `Option<String>` field: absent or null gives `None`. */
  function DecodeOptString(fields: seq<(string, Json)>, key: string): (r: Result<Option<string>, string>)
    ensures r == Success(None) <==> Get(fields, key) == None || Get(fields, key) == Some(JNull)
    ensures r.Success? && r.value.Some? <==> Get(fields, key).Some? && Get(fields, key).value.JStr?
    ensures r.Success? && r.value.Some? ==> Get(fields, key) == Some(JStr(r.value.value))
    ensures r.Failure? ==> r.error == InvalidType(key, "a string")
  {
    match Get(fields, key)
    case None => Success(None)
    case Some(JNull) => Success(None)
    case Some(JStr(s)) => Success(Some(s))
    case Some(_) => Failure(InvalidType(key, "a string"))
  }

  /** Decoding an encoded optional string gives it back. */
  lemma OptStringRoundTrip(fields: seq<(string, Json)>, key: string, o: Option<string>)
    requires Get(fields, key) == Some(OptStringToJson(o))
    ensures DecodeOptString(fields, key) == Success(o)
  {
  }

  /** An `Option<u8>` field: only an integer in 0..=255 gives a value. */
  function DecodeOptU8(fields: seq<(string, Json)>, key: string): (r: Result<Option<u8>, string>)
    ensures r == Success(None) <==> Get(fields, key) == None || Get(fields, key) == Some(JNull)
    ensures r.Success? && r.value.Some? <==>
      Get(fields, key).Some? && Get(fields, key).value.JInt? && 0 <= Get(fields, key).value.i < U8Limit
    ensures r.Success? && r.value.Some? ==> Get(fields, key) == Some(JInt(r.value.value))
    ensures r.Failure? ==> r.error == InvalidType(key, "u8")
  {
    match Get(fields, key)
    case None => Success(None)
    case Some(JNull) => Success(None)
    case Some(JInt(i)) => if 0 <= i < U8Limit then Success(Some(i)) else Failure(InvalidType(key, "u8"))
    case Some(_) => Failure(InvalidType(key, "u8"))
  }

  /** An `Option<f32>` field: any JSON number gives a value (rounding to f32 is not modelled). */
  function DecodeOptNumber(fields: seq<(string, Json)>, key: string): (r: Result<Option<real>, string>)
    ensures r == Success(None) <==> Get(fields, key) == None || Get(fields, key) == Some(JNull)
    ensures r.Success? && r.value.Some? <==>
      Get(fields, key).Some? && (Get(fields, key).value.JInt? || Get(fields, key).value.JFloat?)
    ensures Get(fields, key).Some? && Get(fields, key).value.JInt? ==> r == Success(Some(Get(fields, key).value.i as real))
    ensures Get(fields, key).Some? && Get(fields, key).value.JFloat? ==> r == Success(Some(Get(fields, key).value.f))
    ensures r.Failure? ==> r.error == InvalidType(key, "f32")
  {
    match Get(fields, key)
    case None => Success(None)
    case Some(JNull) => Success(None)
    case Some(JFloat(f)) => Success(Some(f))
    case Some(JInt(i)) => Success(Some(i as real))
    case Some(_) => Failure(InvalidType(key, "f32"))
  }

  /** Encodes an optional string: `None` becomes `null`. */
  function OptStringToJson(o: Option<string>): Json {
    if o.Some? then JStr(o.value) else JNull
  }

  /** The keys of an object's fields, in order. */
  function Keys(fields: seq<(string, Json)>): seq<string> {
    seq(|fields|, i requires 0 <= i < |fields| => fields[i].0)
  }
}
