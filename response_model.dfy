/**
 * The envelope exchanged over the bridge (`CommomResponseModel`): an optional
 * message type (an open enum whose unknown tags read as `unowned`), an optional
 * platform (a closed enum) and an optional payload of optional fields.
 */
module ResponseModel {
  import opened Wrappers
  import opened Foundation
  import opened Coding
  import FilterModel

  datatype MessageType =
    | HandShake | Sample | Token | UserLocation | Path | Navigate
    | Browser | Loading | Filters | Intercom | Unowned

  /** The raw value of each case: the wire tag, and the case name for `unowned`. */
  function TypeRawValue(t: MessageType): string
  {
    match t
    case HandShake => "HANDSHAKE"
    case Sample => "SAMPLE"
    case Token => "TOKEN"
    case UserLocation => "USER_LOCATION"
    case Path => "PATH"
    case Navigate => "NAVIGATE"
    case Browser => "BROWSER"
    case Loading => "LOADING"
    case Filters => "FILTER"
    case Intercom => "INTERCOM"
    case Unowned => "unowned"
  }

  /** `Type(rawValue:)` */
  function TypeFromRawValue(s: string): Option<MessageType>
  {
    if s == "HANDSHAKE" then Some(HandShake)
    else if s == "SAMPLE" then Some(Sample)
    else if s == "TOKEN" then Some(Token)
    else if s == "USER_LOCATION" then Some(UserLocation)
    else if s == "PATH" then Some(Path)
    else if s == "NAVIGATE" then Some(Navigate)
    else if s == "BROWSER" then Some(Browser)
    else if s == "LOADING" then Some(Loading)
    else if s == "FILTER" then Some(Filters)
    else if s == "INTERCOM" then Some(Intercom)
    else if s == "unowned" then Some(Unowned)
    else None
  }

  /**
   * `Type.init(from:)` through `initializedOptionalWith(decoder:defaultValue: .unowned)`:
   * the value must be a string; a string that is no raw value gives `unowned`.
   */
  function DecodeType(j: Json): (r: Result<MessageType, DecodingError>)
    ensures r.Success? <==> j.JString?
    ensures r.Success? && r.value != Unowned ==> j == EncodeType(r.value)
    ensures r == Success(Unowned) ==> forall t :: t != Unowned ==> TypeRawValue(t) != j.s
    ensures r.Failure? ==> r.error == WrongKind(j)
  {
    if j.JString? then Success(TypeFromRawValue(j.s).GetOr(Unowned)) else Failure(WrongKind(j))
  }

  function EncodeType(t: MessageType): Json { JString(TypeRawValue(t)) }

  datatype Platform = Ios | Web | Android

  function PlatformRawValue(p: Platform): string
  {
    match p
    case Ios => "ios"
    case Web => "web"
    case Android => "android"
  }

  /** The synthesised decoder of a String-backed enum: an unknown string is data corrupted. */
  function DecodePlatform(j: Json): (r: Result<Platform, DecodingError>)
    ensures r.Success? ==> j == EncodePlatform(r.value)
    ensures !j.JString? ==> r == Failure(WrongKind(j))
    ensures j.JString? && r.Failure? ==> r.error == DataCorrupted
  {
    if !j.JString? then Failure(WrongKind(j))
    else if j.s == "ios" then Success(Ios)
    else if j.s == "web" then Success(Web)
    else if j.s == "android" then Success(Android)
    else Failure(DataCorrupted)
  }

  function EncodePlatform(p: Platform): Json { JString(PlatformRawValue(p)) }

  /** The payload: every message type uses some of these optional fields. */
  datatype DataType = DataType(
    appId: Option<string>,
    key: Option<string>,
    jwt: Option<string>,
    filters: Option<FilterModel.Filters>,
    value: Option<string>,
    latitude: Option<real>,
    longitude: Option<real>,
    operator: Option<string>,
    setting: Option<bool>)

  /** `DataType.init` with every argument left at its default. */
  function NewData(bundleIdentifier: Option<string>): (d: DataType)
    ensures d.appId == bundleIdentifier
    ensures d.key.None? && d.jwt.None? && d.filters.None? && d.value.None?
    ensures d.latitude.None? && d.longitude.None? && d.operator.None? && d.setting.None?
  {
    DataType(bundleIdentifier, None, None, None, None, None, None, None, None)
  }

  /** The payload's fields under their wire keys, nil where absent. */
  function DataEntries(d: DataType): map<string, Option<Json>>
  {
    map[
      "app_id" := Present(d.appId, EncodeString),
      "key" := Present(d.key, EncodeString),
      "jwt" := Present(d.jwt, EncodeString),
      "filters" := Present(d.filters, FilterModel.EncodeFilters),
      "value" := Present(d.value, EncodeString),
      "latitude" := Present(d.latitude, EncodeDouble),
      "longitude" := Present(d.longitude, EncodeDouble),
      "operator" := Present(d.operator, EncodeString),
      "setting" := Present(d.setting, EncodeBool)]
  }

  function EncodeData(d: DataType): Json
  {
    JObject(Compact(DataEntries(d)))
  }

  /**
   * The payload `d` holds exactly what a decoder reads from the object
   * `fields`: each field is nil exactly when its key is absent or null, and
   * otherwise encodes to the value found, except that the filters hold only
   * their own known non-null fields.
   */
  predicate HoldsFieldsOf(d: DataType, fields: map<string, Json>)
  {
    Present(d.appId, EncodeString) == FieldValue(fields, "app_id") &&
    Present(d.key, EncodeString) == FieldValue(fields, "key") &&
    Present(d.jwt, EncodeString) == FieldValue(fields, "jwt") &&
    Present(d.value, EncodeString) == FieldValue(fields, "value") &&
    Present(d.latitude, EncodeDouble) == FieldValue(fields, "latitude") &&
    Present(d.longitude, EncodeDouble) == FieldValue(fields, "longitude") &&
    Present(d.operator, EncodeString) == FieldValue(fields, "operator") &&
    Present(d.setting, EncodeBool) == FieldValue(fields, "setting") &&
    (d.filters.Some? <==> Given(fields, "filters")) &&
    (d.filters.Some? ==> fields["filters"].JObject? &&
                         FilterModel.EncodeFilters(d.filters.value)
                         == JObject(Known(fields["filters"].fields, FilterModel.FilterKeys)))
  }

  /**
   * The synthesised decoder. Null is valueNotFound, any other non-object a type
   * mismatch; on success the payload holds exactly the known non-null fields
   * found.
   */
  function DecodeData(j: Json): (r: Result<DataType, DecodingError>)
    ensures j.JNull? ==> r == Failure(ValueNotFound)
    ensures !j.JObject? && !j.JNull? ==> r == Failure(TypeMismatch)
    ensures r.Success? ==> j.JObject? && HoldsFieldsOf(r.value, j.fields)
  {
    if !j.JObject? then Failure(WrongKind(j))
    else
      var f := j.fields;
      var appId :- DecodeIfPresent(f, "app_id", DecodeString);
      var key :- DecodeIfPresent(f, "key", DecodeString);
      var jwt :- DecodeIfPresent(f, "jwt", DecodeString);
      var filters :- DecodeIfPresent(f, "filters", FilterModel.DecodeFilters);
      var value :- DecodeIfPresent(f, "value", DecodeString);
      var latitude :- DecodeIfPresent(f, "latitude", DecodeDouble);
      var longitude :- DecodeIfPresent(f, "longitude", DecodeDouble);
      var operator :- DecodeIfPresent(f, "operator", DecodeString);
      var setting :- DecodeIfPresent(f, "setting", DecodeBool);
      var d := DataType(appId, key, jwt, filters, value, latitude, longitude, operator, setting);
      DataFieldsEncodeBack(f, d);
      Success(d)
  }

  /** The fields of a payload that decoded from `f` each encode back to what was found. */
  lemma DataFieldsEncodeBack(f: map<string, Json>, d: DataType)
    requires DecodeIfPresent(f, "app_id", DecodeString) == Success(d.appId)
    requires DecodeIfPresent(f, "key", DecodeString) == Success(d.key)
    requires DecodeIfPresent(f, "jwt", DecodeString) == Success(d.jwt)
    requires DecodeIfPresent(f, "filters", FilterModel.DecodeFilters) == Success(d.filters)
    requires DecodeIfPresent(f, "value", DecodeString) == Success(d.value)
    requires DecodeIfPresent(f, "latitude", DecodeDouble) == Success(d.latitude)
    requires DecodeIfPresent(f, "longitude", DecodeDouble) == Success(d.longitude)
    requires DecodeIfPresent(f, "operator", DecodeString) == Success(d.operator)
    requires DecodeIfPresent(f, "setting", DecodeBool) == Success(d.setting)
    ensures HoldsFieldsOf(d, f)
  {
    ReadFieldEncodesBack(f, "app_id", DecodeString, EncodeString, d.appId);
    ReadFieldEncodesBack(f, "key", DecodeString, EncodeString, d.key);
    ReadFieldEncodesBack(f, "jwt", DecodeString, EncodeString, d.jwt);
    ReadFieldEncodesBack(f, "value", DecodeString, EncodeString, d.value);
    ReadFieldEncodesBack(f, "operator", DecodeString, EncodeString, d.operator);
    ReadFieldEncodesBack(f, "latitude", DecodeDouble, EncodeDouble, d.latitude);
    ReadFieldEncodesBack(f, "longitude", DecodeDouble, EncodeDouble, d.longitude);
    ReadFieldEncodesBack(f, "setting", DecodeBool, EncodeBool, d.setting);
    FiltersFieldRead(f, d.filters);
  }

  /** The filters of a payload read from `f` hold the known fields of what was found. */
  lemma FiltersFieldRead(f: map<string, Json>, filters: Option<FilterModel.Filters>)
    requires DecodeIfPresent(f, "filters", FilterModel.DecodeFilters) == Success(filters)
    ensures filters.Some? <==> Given(f, "filters")
    ensures filters.Some? ==> f["filters"].JObject? &&
                              FilterModel.EncodeFilters(filters.value) == JObject(Known(f["filters"].fields, FilterModel.FilterKeys))
  {
  }

  datatype Envelope = Envelope(msgType: Option<MessageType>, platform: Option<Platform>, data: Option<DataType>)

  /** `CommomResponseModel(type:data:)`: the platform takes its default, `.ios`. */
  function NewEnvelope(t: MessageType, d: DataType): (e: Envelope)
    ensures e.platform == Some(Ios)
    ensures e.msgType == Some(t) && e.data == Some(d)
  {
    Envelope(Some(t), Some(Ios), Some(d))
  }

  function EnvelopeEntries(e: Envelope): map<string, Option<Json>>
  {
    map[
      "type" := Present(e.msgType, EncodeType),
      "platform" := Present(e.platform, EncodePlatform),
      "data" := Present(e.data, EncodeData)]
  }

  function EncodeEnvelope(e: Envelope): Json
  {
    JObject(Compact(EnvelopeEntries(e)))
  }

  /**
   * The synthesised decoder: the fields are decoded in declaration order, the
   * first error is thrown. Null is valueNotFound, any other non-object a type
   * mismatch. On success each field is nil exactly when its key is absent or
   * null; a known type tag and the platform are what was found, the payload
   * holds its known fields.
   */
  function DecodeEnvelope(j: Json): (r: Result<Envelope, DecodingError>)
    ensures j.JNull? ==> r == Failure(ValueNotFound)
    ensures !j.JObject? && !j.JNull? ==> r == Failure(TypeMismatch)
    ensures r.Success? ==> j.JObject? && var e := r.value;
              (e.msgType.Some? <==> Given(j.fields, "type")) &&
              (e.msgType.Some? ==> j.fields["type"].JString?) &&
              (e.msgType.Some? && e.msgType.value != Unowned ==> j.fields["type"] == EncodeType(e.msgType.value)) &&
              Present(e.platform, EncodePlatform) == FieldValue(j.fields, "platform") &&
              (e.data.Some? <==> Given(j.fields, "data")) &&
              (e.data.Some? ==> j.fields["data"].JObject? && HoldsFieldsOf(e.data.value, j.fields["data"].fields))
  {
    if !j.JObject? then Failure(WrongKind(j))
    else
      var t :- DecodeIfPresent(j.fields, "type", DecodeType);
      var p :- DecodeIfPresent(j.fields, "platform", DecodePlatform);
      var d :- DecodeIfPresent(j.fields, "data", DecodeData);
      Success(Envelope(t, p, d))
  }

  /** The raw values of the message types are pairwise distinct, and each reads back as its case. */
  lemma TypeRawValueRoundTrip(t: MessageType)
    ensures TypeFromRawValue(TypeRawValue(t)) == Some(t)
    ensures forall u :: TypeRawValue(u) == TypeRawValue(t) ==> u == t
  {
    forall u | TypeRawValue(u) == TypeRawValue(t) ensures u == t {
      assert TypeFromRawValue(TypeRawValue(u)) == Some(u);
    }
  }

  /**
   * A string tag always decodes: to the case whose raw value it is, and to
   * `unowned` exactly when it is the raw value of no case other than `unowned`.
   */
  lemma DecodeTypeOfString(s: string)
    ensures DecodeType(JString(s)).Success?
    ensures forall t :: TypeRawValue(t) == s ==> DecodeType(JString(s)) == Success(t)
    ensures DecodeType(JString(s)) == Success(Unowned) <==> forall t :: t != Unowned ==> TypeRawValue(t) != s
  {
    forall t | TypeRawValue(t) == s ensures DecodeType(JString(s)) == Success(t) {
      TypeRawValueRoundTrip(t);
    }
    if DecodeType(JString(s)) != Success(Unowned) {
      var t := DecodeType(JString(s)).value;
      assert TypeRawValue(t) == s;
    }
  }

  /** A `type` that is present but not a string makes the whole envelope fail with a type mismatch. */
  lemma NonStringTypeFails(fields: map<string, Json>)
    requires "type" in fields && !fields["type"].JString? && !fields["type"].JNull?
    ensures DecodeEnvelope(JObject(fields)) == Failure(TypeMismatch)
  {
  }

  /** An unknown platform string makes the whole envelope fail, although `type` decoded. */
  lemma UnknownPlatformFails(fields: map<string, Json>)
    requires "type" in fields ==> fields["type"].JString? || fields["type"].JNull?
    requires "platform" in fields && fields["platform"].JString?
    requires fields["platform"].s !in {"ios", "web", "android"}
    ensures DecodeEnvelope(JObject(fields)) == Failure(DataCorrupted)
  {
  }

  lemma PlatformRoundTrip(p: Platform)
    ensures DecodePlatform(EncodePlatform(p)) == Success(p)
  {
  }

  lemma DataIdentityFieldsRoundTrip(d: DataType)
    ensures DecodeIfPresent(EncodeData(d).fields, "app_id", DecodeString) == Success(d.appId)
    ensures DecodeIfPresent(EncodeData(d).fields, "key", DecodeString) == Success(d.key)
    ensures DecodeIfPresent(EncodeData(d).fields, "jwt", DecodeString) == Success(d.jwt)
    ensures DecodeIfPresent(EncodeData(d).fields, "filters", FilterModel.DecodeFilters) == Success(d.filters)
  {
    var entries := DataEntries(d);
    if d.filters.Some? { FilterModel.FiltersRoundTrip(d.filters.value); }
    FieldRoundTrip(entries, "app_id", d.appId, EncodeString, DecodeString);
    FieldRoundTrip(entries, "key", d.key, EncodeString, DecodeString);
    FieldRoundTrip(entries, "jwt", d.jwt, EncodeString, DecodeString);
    FieldRoundTrip(entries, "filters", d.filters, FilterModel.EncodeFilters, FilterModel.DecodeFilters);
  }

  lemma DataMessageFieldsRoundTrip(d: DataType)
    ensures DecodeIfPresent(EncodeData(d).fields, "value", DecodeString) == Success(d.value)
    ensures DecodeIfPresent(EncodeData(d).fields, "latitude", DecodeDouble) == Success(d.latitude)
    ensures DecodeIfPresent(EncodeData(d).fields, "longitude", DecodeDouble) == Success(d.longitude)
    ensures DecodeIfPresent(EncodeData(d).fields, "operator", DecodeString) == Success(d.operator)
    ensures DecodeIfPresent(EncodeData(d).fields, "setting", DecodeBool) == Success(d.setting)
  {
    var entries := DataEntries(d);
    FieldRoundTrip(entries, "value", d.value, EncodeString, DecodeString);
    FieldRoundTrip(entries, "latitude", d.latitude, EncodeDouble, DecodeDouble);
    FieldRoundTrip(entries, "longitude", d.longitude, EncodeDouble, DecodeDouble);
    FieldRoundTrip(entries, "operator", d.operator, EncodeString, DecodeString);
    FieldRoundTrip(entries, "setting", d.setting, EncodeBool, DecodeBool);
  }

  /** Every payload decodes back from its JSON value unchanged. */
  lemma DataRoundTrip(d: DataType)
    ensures DecodeData(EncodeData(d)) == Success(d)
  {
    DataIdentityFieldsRoundTrip(d);
    DataMessageFieldsRoundTrip(d);
  }

  /** Every envelope, `unowned` included, decodes back from its JSON value unchanged. */
  lemma EnvelopeRoundTrip(e: Envelope)
    ensures DecodeEnvelope(EncodeEnvelope(e)) == Success(e)
  {
    var entries := EnvelopeEntries(e);
    if e.msgType.Some? { TypeRawValueRoundTrip(e.msgType.value); }
    if e.platform.Some? { PlatformRoundTrip(e.platform.value); }
    if e.data.Some? { DataRoundTrip(e.data.value); }
    FieldRoundTrip(entries, "type", e.msgType, EncodeType, DecodeType);
    FieldRoundTrip(entries, "platform", e.platform, EncodePlatform, DecodePlatform);
    FieldRoundTrip(entries, "data", e.data, EncodeData, DecodeData);
  }
}
