/**
 * `SecuredCommunicationService`: the one shared-secret slot of the bridge, the
 * handshake that fills it, and encryption and decryption gated on it.
 */
module SecureChannel {
  import opened Wrappers
  import opened Foundation
  import opened ResponseModel
  import FilterModel
  import Text
  import Parsing

  /** A key derived by key agreement; its contents are never inspected. */
  datatype SharedSecret = SharedSecret(material: seq<bv8>)

  /**
   * `BFSecurityService`, a foreign library: the local public key it exports,
   * key agreement with a remote public key, and symmetric encryption.
   */
  datatype SecurityService = SecurityService(
    publicKey: string,
    deriveSharedSecretKey: string -> Result<SharedSecret, Error>,
    encryptData: (string, SharedSecret) -> Result<string, Error>,
    decryptData: (string, SharedSecret) -> Result<string, Error>)

  /** The handshake reply: a HANDSHAKE envelope with the local public key, the token and the filters. */
  function HandshakeReply(publicKey: string, token: string, filters: Option<FilterModel.Filters>,
                          bundleIdentifier: Option<string>): (e: Envelope)
    ensures e.msgType == Some(HandShake) && e.platform == Some(Ios) && e.data.Some?
    ensures e.data.value.key == Some(publicKey) && e.data.value.jwt == Some(token)
    ensures e.data.value.filters == filters && e.data.value.appId == bundleIdentifier
    ensures e.data.value.value.None? && e.data.value.setting.None?
  {
    NewEnvelope(HandShake, NewData(bundleIdentifier).(key := Some(publicKey), jwt := Some(token), filters := filters))
  }

  /** What the shared-secret slot holds after a derivation: the new key, or the old slot when derivation threw. */
  function SecretAfterDerivation(previous: Option<SharedSecret>, derived: Result<SharedSecret, Error>): (r: Option<SharedSecret>)
    ensures derived.Success? ==> r == Some(derived.value)
    ensures derived.Failure? ==> r == previous
  {
    if derived.Success? then Some(derived.value) else previous
  }

  /** The serialised handshake reply (`toString()` of the envelope), which may fail. */
  function HandshakeContent(security: SecurityService, host: Host, token: string,
                            filters: Option<FilterModel.Filters>): Result<string, Error>
  {
    host.json.write(EncodeEnvelope(HandshakeReply(security.publicKey, token, filters, host.bundleIdentifier)))
  }

  /** `encrypt(_:)` given the slot: nil without a secret or when encryption throws. */
  function EncryptWith(security: SecurityService, secret: Option<SharedSecret>, message: string): (r: Option<string>)
    ensures r.Some? <==> secret.Some? && security.encryptData(message, secret.value).Success?
    ensures r.Some? ==> r.value == security.encryptData(message, secret.value).value
  {
    if secret.None? then None
    else security.encryptData(message, secret.value).ToOption()
  }

  /**
   * `decrypt(_:)` of an envelope given the slot: without a secret it fails with
   * "Not connection established"; otherwise the text is decrypted and parsed,
   * and an error in either step is wrapped in `.error(_)`.
   */
  function DecryptWith(security: SecurityService, host: Host, secret: Option<SharedSecret>, data: string)
    : (r: Result<Envelope, Error>)
    ensures secret.None? ==> r == Failure(Other("Not connection established"))
    ensures r.Success? ==>
              secret.Some? &&
              var plain := security.decryptData(data, secret.value);
              plain.Success? && Parsing.ParseEnvelope(host.json, plain.value) == Success(r.value)
    ensures secret.Some? && security.decryptData(data, secret.value).Failure? ==>
              r == Failure(Wrapped(security.decryptData(data, secret.value).error))
    ensures r.Failure? && secret.Some? ==> r.error.Wrapped?
  {
    if secret.None? then Failure(Other("Not connection established"))
    else
      match security.decryptData(data, secret.value)
      case Failure(e) => Failure(Wrapped(e))
      case Success(plain) =>
        match Parsing.ParseEnvelope(host.json, plain)
        case Failure(e) => Failure(Wrapped(e))
        case Success(env) => Success(env)
  }

  class SecuredCommunicationService {
    const host: Host
    const securityService: SecurityService
    var sharedSecret: Option<SharedSecret>

    constructor (host: Host, securityService: SecurityService)
      ensures this.host == host && this.securityService == securityService
      ensures sharedSecret.None?
    {
      this.host := host;
      this.securityService := securityService;
      sharedSecret := None;
    }

    /**
     * `establishHandShake(with:token:filters:)`. Returns the escaped reply handed to
     * the messaging delegate (the web service, which injects it into the page), or
     * None when the reply could not be serialised; in that case nothing else happens.
     * The reply is handed over before the secret is derived, so it goes out whether
     * or not derivation succeeds; a derivation error is swallowed.
     */
    method EstablishHandShake(jsPublicKey: string, token: string, filters: Option<FilterModel.Filters>)
      returns (delivered: Option<string>)
      modifies this
      ensures var content := HandshakeContent(securityService, host, token, filters);
              if content.Failure? then
                delivered.None? && sharedSecret == old(sharedSecret)
              else
                delivered == Some(Text.Escape(content.value)) &&
                sharedSecret == SecretAfterDerivation(old(sharedSecret), securityService.deriveSharedSecretKey(jsPublicKey))
    {
      var iosPublicKey := securityService.publicKey;
      var content := host.json.write(EncodeEnvelope(HandshakeReply(iosPublicKey, token, filters, host.bundleIdentifier)));
      if content.Failure? {
        return None;
      }
      var escapedContent := Text.Escape(content.value);
      delivered := Some(escapedContent);
      var derived := securityService.deriveSharedSecretKey(jsPublicKey);
      if derived.Success? {
        sharedSecret := Some(derived.value);
      }
    }

    /** `encrypt(_:)` on the slot this service holds */
    function Encrypt(message: string): (r: Option<string>)
      reads this
      ensures r == EncryptWith(securityService, sharedSecret, message)
    {
      EncryptWith(securityService, sharedSecret, message)
    }

    /** `decrypt(_:)` on the slot this service holds */
    function Decrypt(data: string): (r: Result<Envelope, Error>)
      reads this
      ensures r == DecryptWith(securityService, host, sharedSecret, data)
    {
      DecryptWith(securityService, host, sharedSecret, data)
    }
  }

  /** The last handshake wins: a successful derivation replaces whatever secret was held. */
  lemma LastHandshakeWins(previous: Option<SharedSecret>, first: SharedSecret, second: Result<SharedSecret, Error>)
    ensures second.Success? ==> SecretAfterDerivation(SecretAfterDerivation(previous, Success(first)), second) == Some(second.value)
    ensures second.Failure? ==> SecretAfterDerivation(SecretAfterDerivation(previous, Success(first)), second) == Some(first)
  {
  }

  /**
   * The page reads the handshake reply, escaped as the code escapes it, as a
   * HANDSHAKE envelope with the local key, whenever the JSON text written holds
   * no backslash and no line break and the JSON text layer reads back what it
   * wrote. A reply whose first backslash starts an escape such as `\"` is read
   * differently (`Text.EscapeAltersFirstBackslashEscape`).
   */
  lemma HandshakeReplyReadable(text: JsonText, publicKey: string, token: string,
                               filters: Option<FilterModel.Filters>, bundleIdentifier: Option<string>)
    requires var e := HandshakeReply(publicKey, token, filters, bundleIdentifier);
             text.write(EncodeEnvelope(e)).Success? && ReadsBack(text, EncodeEnvelope(e)) &&
             Text.ReadsAsWritten(text.write(EncodeEnvelope(e)).value)
    ensures var e := HandshakeReply(publicKey, token, filters, bundleIdentifier);
            var written := text.write(EncodeEnvelope(e)).value;
            var received := Text.JsStringValue(Text.Escape(written));
            received == Some(written) &&
            var parsed := Parsing.ParseEnvelope(text, received.value);
            parsed.Success? && parsed.value.msgType == Some(HandShake) && parsed.value.data.Some? &&
            parsed.value.data.value.key == Some(publicKey) && parsed.value.data.value.jwt == Some(token)
  {
    var e := HandshakeReply(publicKey, token, filters, bundleIdentifier);
    Text.EscapeAgreesWithoutBackslash(text.write(EncodeEnvelope(e)).value);
    Parsing.ParseWrittenEnvelope(text, e);
  }

  /**
   * With the corrected escaping the page reads every handshake reply as a
   * HANDSHAKE envelope with the local key, whatever characters the JSON text
   * holds, when the JSON text layer reads back what it wrote.
   */
  lemma HandshakeReplyReadableCorrected(text: JsonText, publicKey: string, token: string,
                                        filters: Option<FilterModel.Filters>, bundleIdentifier: Option<string>)
    requires var e := HandshakeReply(publicKey, token, filters, bundleIdentifier);
             text.write(EncodeEnvelope(e)).Success? && ReadsBack(text, EncodeEnvelope(e))
    ensures var e := HandshakeReply(publicKey, token, filters, bundleIdentifier);
            var written := text.write(EncodeEnvelope(e)).value;
            var received := Text.JsStringValue(Text.ScriptEscape(written));
            received == Some(written) &&
            var parsed := Parsing.ParseEnvelope(text, received.value);
            parsed.Success? && parsed.value.msgType == Some(HandShake) && parsed.value.data.Some? &&
            parsed.value.data.value.key == Some(publicKey) && parsed.value.data.value.jwt == Some(token)
  {
    var e := HandshakeReply(publicKey, token, filters, bundleIdentifier);
    Text.ScriptEscapeReadsBack(text.write(EncodeEnvelope(e)).value);
    Parsing.ParseWrittenEnvelope(text, e);
  }
}
