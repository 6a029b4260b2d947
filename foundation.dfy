/**
 * What the SDK takes from the platform: JSON values, the errors that are thrown,
 * and the foreign calls (JSON text, error descriptions, the bundle identifier).
 */
module Foundation {
  import opened Wrappers

  /** A JSON value as JSONDecoder and JSONEncoder see it. Numbers are exact reals. */
  datatype Json =
    | JNull
    | JBool(b: bool)
    | JNumber(n: real)
    | JString(s: string)
    | JArray(items: seq<Json>)
    | JObject(fields: map<string, Json>)

  /** The kinds of Swift's DecodingError that the parse helper tells apart. */
  datatype DecodingError = DataCorrupted | KeyNotFound | ValueNotFound | TypeMismatch

  /**
   * Errors that travel through `throws`: a DecodingError, BFSecurity's
   * SecurityServiceError (`.other(message:)` and `.error(_)` wrapping another
   * error), or an error thrown by a collaborator, known only by its description.
   */
  datatype Error =
    | Decoding(kind: DecodingError)
    | Other(message: string)
    | Wrapped(inner: Error)
    | Thrown(description: string)

  /**
   * The text layer of JSONDecoder and JSONEncoder: UTF-8 JSON text to a value
   * and back. Nothing is assumed about how the two directions relate.
   */
  datatype JsonText = JsonText(read: string -> Option<Json>, write: Json -> Result<string, Error>)

  /** Foreign calls and constants the core reads from the platform. */
  datatype Host = Host(
    json: JsonText,
    describe: Error -> string,          // `error.message` / `error.localizedDescription`
    bundleIdentifier: Option<string>)   // `Bundle.main.bundleIdentifier`

  /** The text layer reads back what it wrote for `j` (a hypothesis of round-trip lemmas). */
  predicate ReadsBack(text: JsonText, j: Json)
  {
    text.write(j).Success? ==> text.read(text.write(j).value) == Some(j)
  }
}
