/**
  JSON values (RFC 8259) as an abstract tree, and the building blocks that
  serde's derived `Serialize`/`Deserialize` implementations use for struct
  fields: required fields, `Option` fields that are skipped or written as
  `null`, `#[serde(default)]` fields, bounded integers and arrays.
*/
module JsonTree {
  import opened Wrappers

  /** A JSON value (`serde_json::Value`). Numbers are integers: no protocol field holds a float. */
  datatype Value =
    | JNull
    | JBool(b: bool)
    | JInt(i: int)
    | JString(s: string)
    | JArray(items: seq<Value>)
    | JObject(fields: map<string, Value>)

  /** Why a JSON tree does not decode to the expected type. */
  datatype DecodeError =
    | InvalidType(expected: string)
    | MissingField(name: string)
    | UnknownVariant(tag: string)
    | OutOfRange(value: int)
    | InvalidLength(length: nat)
    | InvalidValue(expected: string)

  type Decoded<T> = Result<T, DecodeError>

  // ── Scalars ────────────────────────────────────────────────────────

  function AsObject(j: Value): (r: Decoded<map<string, Value>>)
    ensures r.Ok? <==> j.JObject?
    ensures r.Ok? ==> r.value == j.fields
  {
    if j.JObject? then Ok(j.fields) else Err(InvalidType("object"))
  }

  function AsString(j: Value): (r: Decoded<string>)
    ensures r.Ok? <==> j.JString?
    ensures r.Ok? ==> r.value == j.s
  {
    if j.JString? then Ok(j.s) else Err(InvalidType("string"))
  }

  function AsBool(j: Value): (r: Decoded<bool>)
    ensures r.Ok? <==> j.JBool?
    ensures r.Ok? ==> r.value == j.b
  {
    if j.JBool? then Ok(j.b) else Err(InvalidType("boolean"))
  }

  /** A Rust `char` travels as a string of exactly one character. */
  function AsChar(j: Value): (r: Decoded<char>)
    ensures r.Ok? <==> j.JString? && |j.s| == 1
    ensures r.Ok? ==> j.s == [r.value]
  {
    if !j.JString? then Err(InvalidType("string"))
    else if |j.s| != 1 then Err(InvalidLength(|j.s|))
    else Ok(j.s[0])
  }

  function CharToJson(c: char): Value {
    JString([c])
  }

  /** `serde_json::Value` fields decode to whatever tree they hold. */
  function AsValue(j: Value): (r: Decoded<Value>)
    ensures r == Ok(j)
  {
    Ok(j)
  }

  // ── Unsigned integers of fixed width ───────────────────────────────

  const U8_LIMIT: nat := 0x100
  const U16_LIMIT: nat := 0x1_0000
  const U32_LIMIT: nat := 0x1_0000_0000
  const U64_LIMIT: nat := 0x1_0000_0000_0000_0000

  type U8 = x: nat | x < U8_LIMIT
  type U16 = x: nat | x < U16_LIMIT
  type U32 = x: nat | x < U32_LIMIT
  /** `usize` on a 64-bit target. */
  type U64 = x: nat | x < U64_LIMIT

  /** An integer in `0..limit`; anything else is out of range for the Rust type. */
  function AsUnsigned(j: Value, limit: nat): (r: Decoded<nat>)
    ensures r.Ok? <==> j.JInt? && 0 <= j.i < limit
    ensures r.Ok? ==> r.value == j.i
  {
    if !j.JInt? then Err(InvalidType("integer"))
    else if 0 <= j.i < limit then Ok(j.i)
    else Err(OutOfRange(j.i))
  }

  function AsU8(j: Value): (r: Decoded<U8>)
    ensures r.Ok? <==> j.JInt? && 0 <= j.i < U8_LIMIT
    ensures r.Ok? ==> r.value == j.i
  {
    var n :- AsUnsigned(j, U8_LIMIT);
    Ok(n)
  }

  function AsU16(j: Value): (r: Decoded<U16>)
    ensures r.Ok? <==> j.JInt? && 0 <= j.i < U16_LIMIT
    ensures r.Ok? ==> r.value == j.i
  {
    var n :- AsUnsigned(j, U16_LIMIT);
    Ok(n)
  }

  function AsU32(j: Value): (r: Decoded<U32>)
    ensures r.Ok? <==> j.JInt? && 0 <= j.i < U32_LIMIT
    ensures r.Ok? ==> r.value == j.i
  {
    var n :- AsUnsigned(j, U32_LIMIT);
    Ok(n)
  }

  function AsU64(j: Value): (r: Decoded<U64>)
    ensures r.Ok? <==> j.JInt? && 0 <= j.i < U64_LIMIT
    ensures r.Ok? ==> r.value == j.i
  {
    var n :- AsUnsigned(j, U64_LIMIT);
    Ok(n)
  }

  // ── Arrays ─────────────────────────────────────────────────────────

  function ArrayToJson<T>(xs: seq<T>, enc: T -> Value): (r: Value)
    ensures r.JArray? && |r.items| == |xs|
    ensures forall i :: 0 <= i < |xs| ==> r.items[i] == enc(xs[i])
  {
    JArray(seq(|xs|, i requires 0 <= i < |xs| => enc(xs[i])))
  }

  /** Decodes every element in order; the first element that fails fails the array. */
  function DecodeItems<T>(items: seq<Value>, dec: Value -> Decoded<T>): (r: Decoded<seq<T>>)
    ensures r.Ok? <==> forall i :: 0 <= i < |items| ==> dec(items[i]).Ok?
    ensures r.Ok? ==> |r.value| == |items|
    ensures r.Ok? ==> forall i :: 0 <= i < |items| ==> dec(items[i]) == Ok(r.value[i])
  {
    if items == [] then Ok([])
    else
      var head :- dec(items[0]);
      var tail :- DecodeItems(items[1..], dec);
      assert forall i :: 1 <= i < |items| ==> items[i] == items[1..][i - 1];
      Ok([head] + tail)
  }

  function AsArray<T>(j: Value, dec: Value -> Decoded<T>): (r: Decoded<seq<T>>)
    ensures r.Ok? ==> j.JArray? && |r.value| == |j.items|
    ensures !j.JArray? ==> r.Err?
  {
    if j.JArray? then DecodeItems(j.items, dec) else Err(InvalidType("array"))
  }

  /** An array decodes back to the sequence it was made of when every element does. */
  lemma ArrayRoundTrip<T>(xs: seq<T>, enc: T -> Value, dec: Value -> Decoded<T>)
    requires forall i :: 0 <= i < |xs| ==> dec(enc(xs[i])) == Ok(xs[i])
    ensures AsArray(ArrayToJson(xs, enc), dec) == Ok(xs)
  {
    var r := AsArray(ArrayToJson(xs, enc), dec);
    assert r.Ok?;
    assert r.value == xs;
  }

  // ── Object fields ──────────────────────────────────────────────────

  /** A required field: a missing key is an error, a present one is decoded. */
  function Field<T>(m: map<string, Value>, key: string, dec: Value -> Decoded<T>): (r: Decoded<T>)
    ensures key !in m ==> r == Err(MissingField(key))
    ensures key in m ==> r == dec(m[key])
  {
    if key in m then dec(m[key]) else Err(MissingField(key))
  }

  /**
    An `Option<T>` field: a missing key and `null` both decode to `None`
    (serde's derive treats every `Option` field this way), anything else
    must decode as a `T`.
  */
  function OptionalField<T>(m: map<string, Value>, key: string, dec: Value -> Decoded<T>): (r: Decoded<Option<T>>)
    ensures key !in m || m[key] == JNull ==> r == Ok(None)
    ensures key in m && m[key] != JNull ==> (r.Ok? <==> dec(m[key]).Ok?)
    ensures key in m && m[key] != JNull && r.Ok? ==> r == Ok(Some(dec(m[key]).value))
  {
    if key !in m || m[key] == JNull then Ok(None)
    else
      var v :- dec(m[key]);
      Ok(Some(v))
  }

  /** A `#[serde(default)]` field: a missing key gives `default`. */
  function DefaultField<T>(m: map<string, Value>, key: string, dec: Value -> Decoded<T>, default: T): (r: Decoded<T>)
    ensures key !in m ==> r == Ok(default)
    ensures key in m ==> r == dec(m[key])
  {
    if key in m then dec(m[key]) else Ok(default)
  }

  function OptionToJson<T>(v: Option<T>, enc: T -> Value): (r: Option<Value>)
    ensures r.Some? <==> v.Some?
    ensures v.Some? ==> r.value == enc(v.value)
  {
    if v.Some? then Some(enc(v.value)) else None
  }

  /** Writes `v` under `key` only when it is `Some` (`skip_serializing_if = "Option::is_none"`). */
  function PutIfSome(m: map<string, Value>, key: string, v: Option<Value>): (r: map<string, Value>)
    ensures v.None? ==> r == m
    ensures v.Some? ==> r == m[key := v.value]
  {
    if v.Some? then m[key := v.value] else m
  }

  /** An `Option` written without `skip_serializing_if`: `None` becomes `null`. */
  function OrNull(v: Option<Value>): (r: Value)
    ensures v.None? ==> r == JNull
    ensures v.Some? ==> r == v.value
  {
    if v.Some? then v.value else JNull
  }

  /** A skipped `None` reads back as `None`, a written `Some(x)` as `Some(x)` when `x` reads back. */
  lemma OptionalRoundTrip<T>(m: map<string, Value>, key: string, v: Option<T>, enc: T -> Value, dec: Value -> Decoded<T>)
    requires key !in m
    requires v.Some? ==> dec(enc(v.value)) == Ok(v.value) && enc(v.value) != JNull
    ensures OptionalField(PutIfSome(m, key, OptionToJson(v, enc)), key, dec) == Ok(v)
  {
  }

  /** A `None` written as `null` reads back as `None` as well. */
  lemma NullableRoundTrip<T>(m: map<string, Value>, key: string, v: Option<T>, enc: T -> Value, dec: Value -> Decoded<T>)
    requires v.Some? ==> dec(enc(v.value)) == Ok(v.value) && enc(v.value) != JNull
    ensures OptionalField(m[key := OrNull(OptionToJson(v, enc))], key, dec) == Ok(v)
  {
  }

  // ── Adjacently tagged enums ────────────────────────────────────────

  /**
    `#[serde(tag = "type", content = "data")]`: the variant name under
    `"type"` and the variant's content, if it has any, under `"data"`.
  */
  function Tagged(tag: string, content: Option<Value>): (r: Value)
    ensures r.JObject?
    ensures r.fields.Keys == if content.Some? then {"type", "data"} else {"type"}
    ensures r.fields["type"] == JString(tag)
    ensures content.Some? ==> r.fields["data"] == content.value
  {
    JObject(PutIfSome(map["type" := JString(tag)], "data", content))
  }

  /** The content of a unit variant: an explicit `null` is accepted, anything else is not. */
  function DecodeUnit<T>(d: Value, unit: T): (r: Decoded<T>)
    ensures r.Ok? <==> d == JNull
    ensures r.Ok? ==> r.value == unit
  {
    if d == JNull then Ok(unit) else Err(InvalidType("unit variant"))
  }
}
