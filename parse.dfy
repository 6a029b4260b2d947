/**
 * `Decodable.parse(data:)`: JSONDecoder's decoding with its DecodingError
 * kinds turned into `SecurityServiceError.other` messages.
 */
module Parsing {
  import opened Wrappers
  import opened Foundation
  import ResponseModel

  /** The message each DecodingError kind is rethrown with. */
  function ParseErrorMessage(k: DecodingError): string
  {
    match k
    case DataCorrupted => "Data Corrupted"
    case KeyNotFound => "Key not found"
    case ValueNotFound => "Value not found"
    case TypeMismatch => "Type Mismatch"
  }

  /** Recovers the kind from a rethrown message. */
  function KindOfMessage(message: string): Option<DecodingError>
  {
    if message == "Data Corrupted" then Some(DataCorrupted)
    else if message == "Key not found" then Some(KeyNotFound)
    else if message == "Value not found" then Some(ValueNotFound)
    else if message == "Type Mismatch" then Some(TypeMismatch)
    else None
  }

  /** The catch clauses: a DecodingError becomes `.other(message:)`, any other error is rethrown as it is. */
  function Rethrown(e: Error): (r: Error)
    ensures !r.Decoding?
    ensures e.Decoding? ==> r.Other? && KindOfMessage(r.message) == Some(e.kind)
    ensures !e.Decoding? ==> r == e
  {
    if e.Decoding? then Other(ParseErrorMessage(e.kind)) else e
  }

  /** `try decoder.decode(Self.self, from: data)`: unreadable JSON text is data corrupted. */
  function JsonDecode<T>(text: JsonText, data: string, fromJson: Json -> Result<T, DecodingError>): Result<T, Error>
  {
    match text.read(data)
    case None => Failure(Decoding(DataCorrupted))
    case Some(j) =>
      match fromJson(j)
      case Success(v) => Success(v)
      case Failure(k) => Failure(Decoding(k))
  }

  /** `parse(data:)` applied to what the decoder produced. */
  function Parse<T>(decoded: Result<T, Error>): (r: Result<T, Error>)
    ensures r.Success? <==> decoded.Success?
    ensures r.Success? ==> r.value == decoded.value
    ensures r.Failure? ==> !r.error.Decoding?
    ensures r.Failure? && decoded.error.Decoding? ==> r.error == Other(ParseErrorMessage(decoded.error.kind))
    ensures r.Failure? && !decoded.error.Decoding? ==> r.error == decoded.error
  {
    match decoded
    case Success(v) => Success(v)
    case Failure(e) => Failure(Rethrown(e))
  }

  /**
   * `CommomResponseModel.parse(data:)`: succeeds exactly when the text reads as
   * JSON and the value decodes, and then yields that envelope; text that is no
   * JSON fails with "Data Corrupted", a decoding error with its kind's message.
   */
  function ParseEnvelope(text: JsonText, data: string): (r: Result<ResponseModel.Envelope, Error>)
    ensures text.read(data).None? ==> r == Failure(Other("Data Corrupted"))
    ensures text.read(data).Some? ==>
              var d := ResponseModel.DecodeEnvelope(text.read(data).value);
              (d.Success? ==> r == Success(d.value)) &&
              (d.Failure? ==> r == Failure(Other(ParseErrorMessage(d.error))))
    ensures r.Failure? ==> r.error.Other? && KindOfMessage(r.error.message).Some?
  {
    Parse(JsonDecode(text, data, ResponseModel.DecodeEnvelope))
  }

  /** The four messages are distinct: the message tells which kind of DecodingError occurred. */
  lemma MessageNamesKind(k: DecodingError)
    ensures KindOfMessage(ParseErrorMessage(k)) == Some(k)
    ensures forall k' :: ParseErrorMessage(k') == ParseErrorMessage(k) ==> k' == k
  {
    forall k' | ParseErrorMessage(k') == ParseErrorMessage(k) ensures k' == k {
      assert KindOfMessage(ParseErrorMessage(k')) == Some(k');
    }
  }

  /** Whatever JSONEncoder wrote for an envelope parses back to it, when the text layer reads back what it wrote. */
  lemma ParseWrittenEnvelope(text: JsonText, e: ResponseModel.Envelope)
    requires ReadsBack(text, ResponseModel.EncodeEnvelope(e))
    requires text.write(ResponseModel.EncodeEnvelope(e)).Success?
    ensures ParseEnvelope(text, text.write(ResponseModel.EncodeEnvelope(e)).value) == Success(e)
  {
    ResponseModel.EnvelopeRoundTrip(e);
  }
}
