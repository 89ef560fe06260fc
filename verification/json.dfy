/**
 * JSON values as org.json holds them, with the accessors the plugin uses.
 * JSONObject.NULL is `JNull`; a Java null is the absence of a key.
 */
module Json {
  import opened Wrappers

  datatype Json =
    | JNull
    | JBool(b: bool)
    | JInt(i: int)
    | JString(s: string)
    | JObject(fields: map<string, Json>)
    | JArray(items: seq<Json>)

  /** The JSONException an accessor throws on a missing or mistyped value; its message is not modelled. */
  datatype JsonException = JsonException

  const INT32_MIN: int := -0x8000_0000
  const INT32_MAX: int := 0x7fff_ffff

  predicate IsInt32(i: int) {
    INT32_MIN <= i <= INT32_MAX
  }

  const INT64_MIN: int := -0x8000_0000_0000_0000
  const INT64_MAX: int := 0x7fff_ffff_ffff_ffff

  /** An integral number org.json can hold as an Integer or a Long. */
  predicate IsInt64(i: int) {
    INT64_MIN <= i <= INT64_MAX
  }

  /** Two's-complement narrowing to 32 bits, as Long.intValue() does. */
  function ToInt32(i: int): (r: int)
    ensures IsInt32(r)
    ensures (r - i) % 0x1_0000_0000 == 0
    ensures IsInt32(i) ==> r == i
  {
    var m := i % 0x1_0000_0000;
    if m <= INT32_MAX then m else m - 0x1_0000_0000
  }

  /** Decimal text of an integer, as String.valueOf renders it. */
  function IntToString(i: int): (r: string)
    ensures r != []
    ensures r[0] == '-' <==> i < 0
    decreases if i < 0 then 1 - i else i
  {
    if i < 0 then "-" + NatToString(-i) else NatToString(i)
  }

  /** The number a string of decimal digits denotes, most significant digit first. */
  function DigitsValue(s: string): int {
    if s == [] then 0 else 10 * DigitsValue(s[..|s| - 1]) + (s[|s| - 1] as int - '0' as int)
  }

  /** Decimal text of a natural number: digits only, denoting the number. */
  function NatToString(n: nat): (r: string)
    ensures r != [] && r[0] != '-'
    ensures forall i :: 0 <= i < |r| ==> '0' <= r[i] <= '9'
    ensures |r| == 1 <==> n < 10
    ensures DigitsValue(r) == n
  {
    var d := ['0' + (n % 10) as char];
    if n < 10 then d
    else
      var prefix := NatToString(n / 10);
      assert (prefix + d)[..|prefix + d| - 1] == prefix;
      prefix + d
  }

  /** ASCII-only lower-casing, used for String.equalsIgnoreCase. */
  function ToLower(c: char): char {
    if 'A' <= c <= 'Z' then c - 'A' + 'a' else c
  }

  predicate EqualsIgnoreCase(s: string, t: string) {
    |s| == |t| && forall i :: 0 <= i < |s| ==> ToLower(s[i]) == ToLower(t[i])
  }

  /** JSONObject.isNull: the key is missing or maps to NULL. */
  predicate IsNull(obj: map<string, Json>, key: string) {
    key !in obj || obj[key] == JNull
  }

  /** JSONArray.isNull: the index is out of range or holds NULL. */
  predicate ArrayIsNull(a: seq<Json>, i: int) {
    !(0 <= i < |a|) || a[i] == JNull
  }

  /**
   * getString's coercion: strings as they are, other scalars as their text.
   * A nested object or array is a JsonException here (see README, Left out).
   */
  function AsString(v: Json): (r: Result<string, JsonException>)
    ensures r.Err? <==> v.JObject? || v.JArray?
    ensures v.JString? ==> r == Ok(v.s)
  {
    match v
    case JString(s) => Ok(s)
    case JBool(b) => Ok(if b then "true" else "false")
    case JInt(i) => Ok(IntToString(i))
    case JNull => Ok("null")
    case _ => Err(JsonException)
  }

  /** getBoolean's coercion: a boolean, or the text "true"/"false" in any case. */
  function AsBool(v: Json): (r: Result<bool, JsonException>)
    ensures v.JBool? ==> r == Ok(v.b)
    ensures r.Ok? ==> v.JBool? || v.JString?
    ensures v.JString? ==>
      && (r == Ok(true) <==> EqualsIgnoreCase(v.s, "true"))
      && (r == Ok(false) <==> EqualsIgnoreCase(v.s, "false"))
      && (r.Err? <==> !EqualsIgnoreCase(v.s, "true") && !EqualsIgnoreCase(v.s, "false"))
  {
    match v
    case JBool(b) => Ok(b)
    case JString(s) =>
      if EqualsIgnoreCase(s, "true") then Ok(true)
      else if EqualsIgnoreCase(s, "false") then Ok(false)
      else Err(JsonException)
    case _ => Err(JsonException)
  }

  /**
   * getInt's coercion of a number. org.json holds an integral literal that
   * fits in 64 bits as a Long, and Long.intValue() narrows it by two's
   * complement; a larger literal becomes a Double, and Double.intValue()
   * saturates at the ends of the int range.
   */
  function AsInt(v: Json): (r: Result<int, JsonException>)
    ensures r.Ok? <==> v.JInt?
    ensures r.Ok? ==> IsInt32(r.value) && (IsInt32(v.i) ==> r.value == v.i)
    ensures r.Ok? && IsInt64(v.i) ==> (r.value - v.i) % 0x1_0000_0000 == 0
    ensures r.Ok? && v.i > INT64_MAX ==> r.value == INT32_MAX
    ensures r.Ok? && v.i < INT64_MIN ==> r.value == INT32_MIN
  {
    match v
    case JInt(i) =>
      if IsInt64(i) then Ok(ToInt32(i))
      else if i > 0 then Ok(INT32_MAX)
      else Ok(INT32_MIN)
    case _ => Err(JsonException)
  }

  function AsObject(v: Json): (r: Result<map<string, Json>, JsonException>)
    ensures r.Ok? <==> v.JObject?
    ensures r.Ok? ==> r.value == v.fields
  {
    match v
    case JObject(m) => Ok(m)
    case _ => Err(JsonException)
  }

  function AsArray(v: Json): (r: Result<seq<Json>, JsonException>)
    ensures r.Ok? <==> v.JArray?
    ensures r.Ok? ==> r.value == v.items
  {
    match v
    case JArray(a) => Ok(a)
    case _ => Err(JsonException)
  }

  /**
   * JSONObject.put(key, value): a Java null value removes the key instead
   * of storing anything.
   */
  function Put(obj: map<string, Json>, key: string, value: Option<Json>): (r: map<string, Json>)
    ensures key in r <==> value.Some?
    ensures value.Some? ==> r[key] == value.value
    ensures forall k :: k != key ==> (k in r <==> k in obj) && (k in obj ==> r[k] == obj[k])
  {
    if value.Some? then obj[key := value.value] else obj - {key}
  }

  /** A Java String that may be null, as a JSON value (null stays a Java null). */
  function StringValue(s: Option<string>): (r: Option<Json>)
    ensures r.Some? <==> s.Some?
    ensures s.Some? ==> r.value == JString(s.value)
  {
    match s
    case Some(v) => Some(JString(v))
    case None => None
  }

  /** `s == null ? JSONObject.NULL : s` */
  function StringOrNull(s: Option<string>): (r: Json)
    ensures r == JNull <==> s.None?
    ensures s.Some? ==> r == JString(s.value)
  {
    match s
    case Some(v) => JString(v)
    case None => JNull
  }
}
