/**
 * How JSONEncoder and JSONDecoder treat the fields of the SDK's Codable
 * structs: optional fields are omitted when nil (`encodeIfPresent`) and read
 * as nil when absent or null (`decodeIfPresent`); a present value of the wrong
 * JSON kind is a type mismatch.
 */
module Coding {
  import opened Wrappers
  import opened Foundation

  /** Swift's `Int` on a 64-bit device. */
  newtype Int64 = x: int | -0x8000_0000_0000_0000 <= x < 0x8000_0000_0000_0000

  /** `encodeIfPresent` for every field: the keys whose value is nil are left out. */
  function Compact(entries: map<string, Option<Json>>): map<string, Json>
  {
    map k | k in entries && entries[k].Some? :: entries[k].value
  }

  function Present<T>(v: Option<T>, encode: T -> Json): Option<Json>
  {
    if v.Some? then Some(encode(v.value)) else None
  }

  /** A key `decodeIfPresent` reads a value at: present and not null. */
  predicate Given(fields: map<string, Json>, key: string)
  {
    key in fields && fields[key] != JNull
  }

  /** The value `decodeIfPresent` looks at for `key`, nil where it reads nil. */
  function FieldValue(fields: map<string, Json>, key: string): Option<Json>
  {
    if Given(fields, key) then Some(fields[key]) else None
  }

  /** The entries a decoder with the given coding keys reads: unknown keys and nulls are dropped. */
  function Known(fields: map<string, Json>, keys: set<string>): map<string, Json>
  {
    map k | k in keys && Given(fields, k) :: fields[k]
  }

  /** The error for a value of the wrong JSON kind: null is valueNotFound, anything else a type mismatch. */
  function WrongKind(j: Json): DecodingError
  {
    if j.JNull? then ValueNotFound else TypeMismatch
  }

  /** `decodeIfPresent`: absent or null is nil, anything else must decode. */
  function DecodeIfPresent<T>(fields: map<string, Json>, key: string, decode: Json -> Result<T, DecodingError>)
    : Result<Option<T>, DecodingError>
  {
    if key !in fields || fields[key].JNull? then Success(None)
    else
      var v :- decode(fields[key]);
      Success(Some(v))
  }

  /** `decode(_:forKey:)` of a non-optional field: absent is keyNotFound, null is valueNotFound. */
  function DecodeRequired<T>(fields: map<string, Json>, key: string, decode: Json -> Result<T, DecodingError>)
    : Result<T, DecodingError>
  {
    if key !in fields then Failure(KeyNotFound)
    else if fields[key].JNull? then Failure(ValueNotFound)
    else decode(fields[key])
  }

  function EncodeString(s: string): Json { JString(s) }

  /** A string is read only from a JSON string, which is then exactly its encoding; null is valueNotFound. */
  function DecodeString(j: Json): (r: Result<string, DecodingError>)
    ensures r.Success? ==> j == EncodeString(r.value)
    ensures r.Failure? ==> r.error == WrongKind(j)
  {
    if j.JString? then Success(j.s) else Failure(WrongKind(j))
  }

  function EncodeBool(b: bool): Json { JBool(b) }

  function DecodeBool(j: Json): (r: Result<bool, DecodingError>)
    ensures r.Success? ==> j == EncodeBool(r.value)
    ensures r.Failure? ==> r.error == WrongKind(j)
  {
    if j.JBool? then Success(j.b) else Failure(WrongKind(j))
  }

  /** A Swift `Double`, here an exact real. */
  function EncodeDouble(x: real): Json { JNumber(x) }

  function DecodeDouble(j: Json): (r: Result<real, DecodingError>)
    ensures r.Success? ==> j == EncodeDouble(r.value)
    ensures r.Failure? ==> r.error == WrongKind(j)
  {
    if j.JNumber? then Success(j.n) else Failure(WrongKind(j))
  }

  function EncodeInt(x: Int64): Json { JNumber(x as int as real) }

  /** A number that is not a whole number, or does not fit in `Int`, is data corrupted. */
  function DecodeInt(j: Json): (r: Result<Int64, DecodingError>)
    ensures r.Success? ==> j == EncodeInt(r.value)
    ensures !j.JNumber? ==> r == Failure(WrongKind(j))
    ensures j.JNumber? && r.Failure? ==> r.error == DataCorrupted
  {
    if !j.JNumber? then Failure(WrongKind(j))
    else if j.n != j.n.Floor as real then Failure(DataCorrupted)
    else if !(-0x8000_0000_0000_0000 <= j.n.Floor < 0x8000_0000_0000_0000) then Failure(DataCorrupted)
    else Success(j.n.Floor as Int64)
  }

  function EncodeStrings(ss: seq<string>): seq<Json>
  {
    if ss == [] then [] else [JString(ss[0])] + EncodeStrings(ss[1..])
  }

  /** An unkeyed container of strings: elements are decoded in order, the first bad one fails. */
  function DecodeStrings(items: seq<Json>): (r: Result<seq<string>, DecodingError>)
    ensures r.Success? ==> items == EncodeStrings(r.value)
    ensures r.Failure? ==> exists i :: 0 <= i < |items| && !items[i].JString? && r.error == WrongKind(items[i]) &&
                                       forall k :: 0 <= k < i ==> items[k].JString?
  {
    if items == [] then Success([])
    else
      var head :- DecodeString(items[0]);
      var tail :- DecodeStrings(items[1..]);
      assert ([head] + tail)[1..] == tail;
      assert items == [items[0]] + items[1..];
      Success([head] + tail)
  }

  function EncodeStringArray(ss: seq<string>): Json { JArray(EncodeStrings(ss)) }

  function DecodeStringArray(j: Json): (r: Result<seq<string>, DecodingError>)
    ensures r.Success? ==> j == EncodeStringArray(r.value)
    ensures !j.JArray? ==> r == Failure(WrongKind(j))
  {
    if j.JArray? then DecodeStrings(j.items) else Failure(WrongKind(j))
  }

  /** A field written by `encodeIfPresent` is read back by `decodeIfPresent` when its codec round-trips. */
  lemma FieldRoundTrip<T>(entries: map<string, Option<Json>>, key: string, v: Option<T>,
                          encode: T -> Json, decode: Json -> Result<T, DecodingError>)
    requires key in entries && entries[key] == Present(v, encode)
    requires v.Some? ==> encode(v.value) != JNull && decode(encode(v.value)) == Success(v.value)
    ensures DecodeIfPresent(Compact(entries), key, decode) == Success(v)
  {
  }

  /** A field read by `decodeIfPresent` with a decoder its encoder inverts encodes back to what was found. */
  lemma ReadFieldEncodesBack<T>(fields: map<string, Json>, key: string, decode: Json -> Result<T, DecodingError>,
                                encode: T -> Json, v: Option<T>)
    requires DecodeIfPresent(fields, key, decode) == Success(v)
    requires Given(fields, key) && decode(fields[key]).Success? ==> encode(decode(fields[key]).value) == fields[key]
    ensures Present(v, encode) == FieldValue(fields, key)
  {
  }

  /** Entries that each hold what was found under their key compact to the known fields. */
  lemma CompactIsKnown(entries: map<string, Option<Json>>, fields: map<string, Json>, keys: set<string>)
    requires entries.Keys == keys
    requires forall k :: k in entries ==> entries[k] == FieldValue(fields, k)
    ensures Compact(entries) == Known(fields, keys)
  {
  }

  lemma StringRoundTrip(s: string)
    ensures DecodeString(EncodeString(s)) == Success(s)
  {
  }

  lemma BoolRoundTrip(b: bool)
    ensures DecodeBool(EncodeBool(b)) == Success(b)
  {
  }

  lemma DoubleRoundTrip(x: real)
    ensures DecodeDouble(EncodeDouble(x)) == Success(x)
  {
  }

  lemma IntRoundTrip(x: Int64)
    ensures DecodeInt(EncodeInt(x)) == Success(x)
  {
    assert (x as int as real).Floor == x as int;
  }

  /** A decoded array of strings has exactly the strings of the array, in order. */
  lemma {:induction false} DecodeStringsExact(items: seq<Json>)
    ensures DecodeStrings(items).Success? <==> forall i :: 0 <= i < |items| ==> items[i].JString?
    ensures DecodeStrings(items).Success? ==>
              |DecodeStrings(items).value| == |items| &&
              forall i :: 0 <= i < |items| ==> DecodeStrings(items).value[i] == items[i].s
  {
    if items != [] {
      DecodeStringsExact(items[1..]);
      if items[0].JString? && DecodeStrings(items[1..]).Success? {
        var tail := DecodeStrings(items[1..]).value;
        assert DecodeStrings(items).value == [items[0].s] + tail;
        forall i | 0 <= i < |items| ensures DecodeStrings(items).value[i] == items[i].s {
          if i > 0 { assert items[1..][i - 1] == items[i]; }
        }
      }
      if DecodeStrings(items).Success? {
        forall i | 0 <= i < |items| ensures items[i].JString? {
          if i > 0 { assert items[1..][i - 1] == items[i]; }
        }
      }
    }
  }

  lemma {:induction false} StringsRoundTrip(ss: seq<string>)
    ensures DecodeStrings(EncodeStrings(ss)) == Success(ss)
  {
    if ss != [] {
      StringsRoundTrip(ss[1..]);
      assert EncodeStrings(ss)[0] == JString(ss[0]);
      assert EncodeStrings(ss)[1..] == EncodeStrings(ss[1..]);
      assert [ss[0]] + ss[1..] == ss;
    }
  }

  lemma StringArrayRoundTrip(ss: seq<string>)
    ensures DecodeStringArray(EncodeStringArray(ss)) == Success(ss)
  {
    StringsRoundTrip(ss);
  }
}
