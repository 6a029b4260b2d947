/** The user's charging filters: an opaque record stored and sent back verbatim. */
module FilterModel {
  import opened Wrappers
  import opened Foundation
  import opened Coding

  datatype Filters = Filters(
    firebaseUid: Option<string>,
    available: Option<bool>,
    plug: Option<seq<string>>,
    minPower: Option<Int64>,
    evseCount: Option<Int64>)

  /** The coding keys of `Filters`. */
  const FilterKeys: set<string> := {"firebase_uid", "available", "plug", "min_power", "evse_count"}

  function FilterEntries(f: Filters): map<string, Option<Json>>
  {
    map[
      "firebase_uid" := Present(f.firebaseUid, EncodeString),
      "available" := Present(f.available, EncodeBool),
      "plug" := Present(f.plug, EncodeStringArray),
      "min_power" := Present(f.minPower, EncodeInt),
      "evse_count" := Present(f.evseCount, EncodeInt)]
  }

  /** The synthesised encoder: an object holding exactly the fields that are set, none of them null. */
  function EncodeFilters(f: Filters): (r: Json)
    ensures r.JObject? && r.fields.Keys <= FilterKeys
    ensures forall k :: k in r.fields ==> r.fields[k] != JNull
    ensures ("firebase_uid" in r.fields <==> f.firebaseUid.Some?) && ("available" in r.fields <==> f.available.Some?) &&
            ("plug" in r.fields <==> f.plug.Some?) && ("min_power" in r.fields <==> f.minPower.Some?) &&
            ("evse_count" in r.fields <==> f.evseCount.Some?)
  {
    JObject(Compact(FilterEntries(f)))
  }

  /**
   * The synthesised decoder. Null is valueNotFound, any other non-object a type
   * mismatch; on success the filters hold exactly the known non-null fields
   * found, so encoding them gives that part of the object back.
   */
  function DecodeFilters(j: Json): (r: Result<Filters, DecodingError>)
    ensures j.JNull? ==> r == Failure(ValueNotFound)
    ensures !j.JObject? && !j.JNull? ==> r == Failure(TypeMismatch)
    ensures r.Success? ==> j.JObject? && EncodeFilters(r.value) == JObject(Known(j.fields, FilterKeys))
  {
    if !j.JObject? then Failure(WrongKind(j))
    else
      var uid :- DecodeIfPresent(j.fields, "firebase_uid", DecodeString);
      var available :- DecodeIfPresent(j.fields, "available", DecodeBool);
      var plug :- DecodeIfPresent(j.fields, "plug", DecodeStringArray);
      var minPower :- DecodeIfPresent(j.fields, "min_power", DecodeInt);
      var evseCount :- DecodeIfPresent(j.fields, "evse_count", DecodeInt);
      var f := Filters(uid, available, plug, minPower, evseCount);
      FilterFieldsEncodeBack(j.fields, f);
      Success(f)
  }

  /** The filters decoded from `fields` encode back to its known non-null fields. */
  lemma FilterFieldsEncodeBack(fields: map<string, Json>, f: Filters)
    requires DecodeIfPresent(fields, "firebase_uid", DecodeString) == Success(f.firebaseUid)
    requires DecodeIfPresent(fields, "available", DecodeBool) == Success(f.available)
    requires DecodeIfPresent(fields, "plug", DecodeStringArray) == Success(f.plug)
    requires DecodeIfPresent(fields, "min_power", DecodeInt) == Success(f.minPower)
    requires DecodeIfPresent(fields, "evse_count", DecodeInt) == Success(f.evseCount)
    ensures Compact(FilterEntries(f)) == Known(fields, FilterKeys)
  {
    ReadFieldEncodesBack(fields, "firebase_uid", DecodeString, EncodeString, f.firebaseUid);
    ReadFieldEncodesBack(fields, "available", DecodeBool, EncodeBool, f.available);
    ReadFieldEncodesBack(fields, "plug", DecodeStringArray, EncodeStringArray, f.plug);
    ReadFieldEncodesBack(fields, "min_power", DecodeInt, EncodeInt, f.minPower);
    ReadFieldEncodesBack(fields, "evse_count", DecodeInt, EncodeInt, f.evseCount);
    CompactIsKnown(FilterEntries(f), fields, FilterKeys);
  }

  /** Filters survive the JSON value round trip unchanged. */
  lemma FiltersRoundTrip(f: Filters)
    ensures DecodeFilters(EncodeFilters(f)) == Success(f)
  {
    var entries := FilterEntries(f);
    if f.plug.Some? { StringArrayRoundTrip(f.plug.value); }
    if f.minPower.Some? { IntRoundTrip(f.minPower.value); }
    if f.evseCount.Some? { IntRoundTrip(f.evseCount.value); }
    FieldRoundTrip(entries, "firebase_uid", f.firebaseUid, EncodeString, DecodeString);
    FieldRoundTrip(entries, "available", f.available, EncodeBool, DecodeBool);
    FieldRoundTrip(entries, "plug", f.plug, EncodeStringArray, DecodeStringArray);
    FieldRoundTrip(entries, "min_power", f.minPower, EncodeInt, DecodeInt);
    FieldRoundTrip(entries, "evse_count", f.evseCount, EncodeInt, DecodeInt);
  }
}
