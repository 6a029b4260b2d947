/**
 * `WebService`: the native end of the web-page bridge. Inbound script messages
 * are classified (log line, corrupted body, cleartext handshake, ciphertext)
 * and dispatched to persistence, the handshake and the message handler;
 * outbound messages are formatted, escaped or encrypted and injected as
 * JavaScript. Calls into the web view, the message handler and the
 * connection-completed closure are recorded in an effect log.
 */
module WebBridge {
  import opened Wrappers
  import opened Foundation
  import opened ResponseModel
  import FilterModel
  import Text
  import Parsing
  import Defaults
  import SavedPaths
  import SecureChannel

  const LogChannel := "logHandler"
  const CorruptedBodyMessage := "Body message corrupted"
  const RefreshFailedMessage := "We couldn't refresh the session"
  const DecryptedErrorPrefix := "Decrypted error: "
  const ScriptPrefix := "javascript:(function() { if (typeof window.postMessage === 'function') { window.postMessage('"
  const ScriptSuffix := "'); } })()"

  /** A call on the `MessageHandler` (the view model). */
  datatype HandlerCall = DidReceive(response: Envelope) | UpdateLoader(loading: bool) | ReportedError(message: string)

  /** What the bridge does outside itself: script evaluated in the web view, a handler call, `connectionCompleted()`. */
  datatype Effect = Script(js: string) | Handler(call: HandlerCall) | ConnectionCompleted

  /** `message.body`: a string, or anything else. */
  datatype Body = StringBody(s: string) | OtherBody

  /** The outcome of `tokenDelegate.refreshToken()` when a delegate is set. */
  datatype TokenReply = Issued(token: string) | Threw(error: Error)

  /**
   * The state the bridge reads and writes: which optional collaborators are set,
   * the secure session's slot, the defaults store and the effects so far.
   */
  datatype Bridge = Bridge(
    handlerSet: bool,
    tokenDelegateSet: bool,
    completionSet: bool,
    secret: Option<SecureChannel.SharedSecret>,
    store: Defaults.Store,
    effects: seq<Effect>)

  /** `formattedAndSentJsMessage(with:)`: the content wrapped in a guarded `window.postMessage('…')` call. */
  function JsCode(content: string): (js: string)
    ensures |js| == |ScriptPrefix| + |content| + |ScriptSuffix|
    ensures js[..|ScriptPrefix|] == ScriptPrefix
    ensures js[|ScriptPrefix|..|js| - |ScriptSuffix|] == content
    ensures js[|js| - |ScriptSuffix|..] == ScriptSuffix
  {
    var js := ScriptPrefix + content + ScriptSuffix;
    assert js[..|ScriptPrefix|] == ScriptPrefix;
    assert js[|ScriptPrefix|..|js| - |ScriptSuffix|] == content;
    js
  }

  /** The content injected by distinct calls differs: the posted content is recoverable from the script. */
  lemma JsCodeInjective(a: string, b: string)
    requires JsCode(a) == JsCode(b)
    ensures a == b
  {
    assert a == JsCode(a)[|ScriptPrefix|..|JsCode(a)| - |ScriptSuffix|];
  }

  /** The message as `post` formats it: wrapped as `{"message":"…"}` only when asked to. */
  function FormatMessage(message: string, includeFormat: bool): string
  {
    if includeFormat then "{\"message\":\"" + message + "\"}" else message
  }

  /**
   * The content `post` hands to the formatter: the ciphertext of the formatted
   * message when encryption was asked for and succeeded; otherwise (not asked,
   * no secret, or the cipher threw) the cleartext with its single quotes
   * escaped. Undoing `\'` recovers the formatted message; the page reads it
   * back unchanged when it holds no backslash and no line break, and reads a
   * different text when its first backslash starts an escape such as `\"`.
   */
  function PostContent(security: SecureChannel.SecurityService, secret: Option<SecureChannel.SharedSecret>,
                       message: string, includeFormat: bool, encrypted: bool): (r: string)
    ensures var formatted := FormatMessage(message, includeFormat);
            (encrypted && secret.Some? && security.encryptData(formatted, secret.value).Success? ==>
               r == security.encryptData(formatted, secret.value).value) &&
            (!encrypted || secret.None? || security.encryptData(formatted, secret.value).Failure? ==>
               Text.Unescape(r) == formatted &&
               (Text.ReadsAsWritten(formatted) ==> Text.JsStringValue(r) == Some(formatted)) &&
               forall i :: Text.FirstBackslashEscapeAt(formatted, i) ==> Text.JsStringValue(r) != Some(formatted))
  {
    var formatted := FormatMessage(message, includeFormat);
    var escaped := Text.Escape(formatted);
    Text.UnescapeEscape(formatted);
    assert Text.ReadsAsWritten(formatted) ==> Text.JsStringValue(escaped) == Some(formatted) by {
      if Text.ReadsAsWritten(formatted) {
        Text.EscapeAgreesWithoutBackslash(formatted);
      }
    }
    assert forall i :: Text.FirstBackslashEscapeAt(formatted, i) ==> Text.JsStringValue(escaped) != Some(formatted) by {
      forall i | Text.FirstBackslashEscapeAt(formatted, i)
        ensures Text.JsStringValue(escaped) != Some(formatted)
      {
        Text.EscapeAltersFirstBackslashEscape(formatted, i);
      }
    }
    if encrypted && SecureChannel.EncryptWith(security, secret, formatted).Some? then
      SecureChannel.EncryptWith(security, secret, formatted).value
    else escaped
  }

  /**
   * The content `post` would hand over with the corrected escaping: the same
   * ciphertext, and a cleartext the page reads back as exactly the formatted
   * message. It agrees with `PostContent` on every message without backslashes
   * or line breaks.
   */
  function PostContentCorrected(security: SecureChannel.SecurityService, secret: Option<SecureChannel.SharedSecret>,
                                message: string, includeFormat: bool, encrypted: bool): (r: string)
    ensures var formatted := FormatMessage(message, includeFormat);
            (encrypted && secret.Some? && security.encryptData(formatted, secret.value).Success? ==>
               r == security.encryptData(formatted, secret.value).value) &&
            (!encrypted || secret.None? || security.encryptData(formatted, secret.value).Failure? ==>
               Text.JsStringValue(r) == Some(formatted))
    ensures Text.ReadsAsWritten(FormatMessage(message, includeFormat)) ==>
              r == PostContent(security, secret, message, includeFormat, encrypted)
  {
    var formatted := FormatMessage(message, includeFormat);
    Text.ScriptEscapeReadsBack(formatted);
    assert Text.ReadsAsWritten(formatted) ==> Text.Escape(formatted) == Text.ScriptEscape(formatted) by {
      if Text.ReadsAsWritten(formatted) {
        Text.EscapeAgreesWithoutBackslash(formatted);
      }
    }
    if encrypted && SecureChannel.EncryptWith(security, secret, formatted).Some? then
      SecureChannel.EncryptWith(security, secret, formatted).value
    else Text.ScriptEscape(formatted)
  }

  // State transitions of the bridge

  /** An effect that only appends: the log of `r` extends that of `b`, and nothing else but the store may change. */
  predicate Extends(b: Bridge, r: Bridge)
  {
    b.effects <= r.effects && r.handlerSet == b.handlerSet && r.tokenDelegateSet == b.tokenDelegateSet &&
    r.completionSet == b.completionSet
  }

  /** No handler call is recorded after `b` when no handler is set. */
  predicate NoHandlerCallsAfter(b: Bridge, r: Bridge)
    requires b.effects <= r.effects
  {
    forall i :: |b.effects| <= i < |r.effects| ==> !r.effects[i].Handler?
  }

  function Notify(b: Bridge, call: HandlerCall): Bridge
  {
    if b.handlerSet then b.(effects := b.effects + [Handler(call)]) else b
  }

  function Report(b: Bridge, message: string): Bridge
  {
    Notify(b, ReportedError(message))
  }

  /** `post`: one script carrying the post content is injected; nothing else changes. */
  function Posted(b: Bridge, security: SecureChannel.SecurityService, message: string,
                  includeFormat: bool, encrypted: bool): (r: Bridge)
    ensures Extends(b, r) && r.secret == b.secret && r.store == b.store && NoHandlerCallsAfter(b, r)
    ensures |r.effects| == |b.effects| + 1 &&
            r.effects[|b.effects|] == Script(JsCode(PostContent(security, b.secret, message, includeFormat, encrypted)))
  {
    b.(effects := b.effects + [Script(JsCode(PostContent(security, b.secret, message, includeFormat, encrypted)))])
  }

  /** The TOKEN envelope `refreshToken` sends. */
  function TokenEnvelope(token: string, bundleIdentifier: Option<string>): (e: Envelope)
    ensures e.msgType == Some(Token) && e.platform == Some(Ios) && e.data.Some?
    ensures e.data.value.value == Some(token) && e.data.value.appId == bundleIdentifier
    ensures e.data.value.key.None? && e.data.value.jwt.None?
  {
    NewEnvelope(Token, NewData(bundleIdentifier).(value := Some(token)))
  }

  /**
   * `refreshToken()`: a refresh only appends effects, keeps the session and the
   * store, makes no handler call without a handler, and injects a script only
   * when a delegate is set and issued a token.
   */
  function Refreshed(b: Bridge, host: Host, security: SecureChannel.SecurityService, reply: TokenReply): (r: Bridge)
    ensures Extends(b, r) && r.secret == b.secret && r.store == b.store
    ensures !b.handlerSet ==> NoHandlerCallsAfter(b, r)
    ensures (exists i :: |b.effects| <= i < |r.effects| && r.effects[i].Script?) ==> b.tokenDelegateSet && reply.Issued?
  {
    if !b.tokenDelegateSet then Report(b, RefreshFailedMessage)
    else
      match reply
      case Threw(e) => Report(b, host.describe(e))
      case Issued(token) =>
        match host.json.write(EncodeEnvelope(TokenEnvelope(token, host.bundleIdentifier)))
        case Failure(e) => Report(b, host.describe(e))
        case Success(message) => Posted(b, security, message, false, true)
  }

  /**
   * The decrypt branch: a decrypted envelope dispatched by type, or the
   * decryption error reported. Effects are only appended, the session is never
   * touched, and no handler call is made without a handler.
   */
  function Decrypted(b: Bridge, host: Host, security: SecureChannel.SecurityService, body: string,
                     renewReply: TokenReply, now: real): (r: Bridge)
    ensures Extends(b, r) && r.secret == b.secret
    ensures !b.handlerSet ==> NoHandlerCallsAfter(b, r)
  {
    match SecureChannel.DecryptWith(security, host, b.secret, body)
    case Failure(e) => Report(b, DecryptedErrorPrefix + host.describe(e))
    case Success(env) => Dispatched(b, host, security, env, renewReply, now)
  }

  /**
   * A decrypted envelope dispatched by its type. Effects are only appended, the
   * session is never touched, no handler call is made without a handler, and
   * only FILTER and PATH messages change the store.
   */
  function Dispatched(b: Bridge, host: Host, security: SecureChannel.SecurityService, env: Envelope,
                      renewReply: TokenReply, now: real): (r: Bridge)
    ensures Extends(b, r) && r.secret == b.secret
    ensures !b.handlerSet ==> NoHandlerCallsAfter(b, r)
    ensures r.store != b.store ==> env.msgType == Some(MessageType.Filters) || env.msgType == Some(Path)
  {
    if env.msgType == Some(Unowned) then b
    else if env.msgType == Some(Token) then Refreshed(b, host, security, renewReply)
    else if env.msgType == Some(Loading) then
      Notify(b, UpdateLoader(if env.data.Some? && env.data.value.setting.Some? then env.data.value.setting.value else false))
    else if env.msgType == Some(MessageType.Filters) then
      if env.data.None? || env.data.value.filters.None? then b
      else b.(store := Defaults.SetAt(b.store, Defaults.Filters,
                                      host.json.write(FilterModel.EncodeFilters(env.data.value.filters.value))))
    else if env.msgType == Some(Path) then
      if env.data.None? || env.data.value.value.None? then b
      else
        var saved := SavedPaths.NewSavedPath(env.data.value.value.value, now);
        Notify(b.(store := Defaults.SetAt(b.store, Defaults.UserAlternatorPath,
                                          host.json.write(SavedPaths.EncodeSavedPath(saved)))),
               DidReceive(env))
    else Notify(b, DidReceive(env))
  }

  /** The filters kept in the store, as `get(forKey: .filters)` reads them. */
  function StoredFilters(store: Defaults.Store, host: Host): Option<FilterModel.Filters>
  {
    Defaults.DecodedAt(store, Defaults.Filters, host.json, FilterModel.DecodeFilters)
  }

  /**
   * A handshake with a token: the escaped reply is injected, the secret
   * derived, then `connectionCompleted()` fires. The store is untouched, no
   * handler call is made, and the session changes only when the reply was
   * serialised.
   */
  function Handshaken(b: Bridge, host: Host, security: SecureChannel.SecurityService, jsPublicKey: string,
                      token: string): (r: Bridge)
    ensures Extends(b, r) && r.store == b.store && NoHandlerCallsAfter(b, r)
    ensures r.secret != b.secret ==> SecureChannel.HandshakeContent(security, host, token, StoredFilters(b.store, host)).Success?
  {
    var content := SecureChannel.HandshakeContent(security, host, token, StoredFilters(b.store, host));
    var b' := if content.Failure? then b
              else b.(secret := SecureChannel.SecretAfterDerivation(b.secret, security.deriveSharedSecretKey(jsPublicKey)),
                      effects := b.effects + [Script(JsCode(Text.Escape(content.value)))]);
    if b.completionSet then b'.(effects := b'.effects + [ConnectionCompleted]) else b'
  }

  /** Whether a cleartext envelope asks for a handshake: HANDSHAKE with a key. */
  predicate IsHandshake(env: Envelope)
  {
    env.msgType == Some(HandShake) && env.data.Some? && env.data.value.key.Some?
  }

  /**
   * `userContentController(_:didReceive:)`. Over every inbound message the
   * effect log only grows, the collaborators stay as they were set, no handler
   * call is made while no handler is set, and the secure session changes only
   * through a handshake request answered with a token.
   */
  function Received(b: Bridge, host: Host, security: SecureChannel.SecurityService, name: string, body: Body,
                    handshakeReply: TokenReply, renewReply: TokenReply, now: real): (r: Bridge)
    ensures Extends(b, r) && (!b.handlerSet ==> NoHandlerCallsAfter(b, r))
    ensures r.secret != b.secret ==>
              name != LogChannel && body.StringBody? && b.tokenDelegateSet && handshakeReply.Issued? &&
              Parsing.ParseEnvelope(host.json, body.s).Success? && IsHandshake(Parsing.ParseEnvelope(host.json, body.s).value)
  {
    if name == LogChannel then b
    else
      match body
      case OtherBody => Report(b, CorruptedBodyMessage)
      case StringBody(s) =>
        match Parsing.ParseEnvelope(host.json, s)
        case Failure(_) => Decrypted(b, host, security, s, renewReply, now)
        case Success(env) =>
          if !IsHandshake(env) then b
          else if !b.tokenDelegateSet then Report(b, RefreshFailedMessage)
          else
            match handshakeReply
            case Threw(_) => Decrypted(b, host, security, s, renewReply, now)
            case Issued(token) => Handshaken(b, host, security, env.data.value.key.value, token)
  }

  class WebService {
    const communicationService: SecureChannel.SecuredCommunicationService
    const userDefaultsHelper: Defaults.UsersDefaultHelper
    var messageHandlerSet: bool
    var tokenDelegateSet: bool
    var connectionCompletedSet: bool
    var effects: seq<Effect>

    /** `init(webView:)`, with the shared secure session and defaults helper. */
    constructor (communicationService: SecureChannel.SecuredCommunicationService, userDefaultsHelper: Defaults.UsersDefaultHelper)
      ensures this.communicationService == communicationService && this.userDefaultsHelper == userDefaultsHelper
      ensures !messageHandlerSet && !tokenDelegateSet && !connectionCompletedSet && effects == []
    {
      this.communicationService := communicationService;
      this.userDefaultsHelper := userDefaultsHelper;
      messageHandlerSet := false;
      tokenDelegateSet := false;
      connectionCompletedSet := false;
      effects := [];
    }

    /** The bridge state spread over this object, the secure session and the defaults helper. */
    function Snapshot(): Bridge
      reads this, communicationService, userDefaultsHelper
    {
      Bridge(messageHandlerSet, tokenDelegateSet, connectionCompletedSet,
             communicationService.sharedSecret, userDefaultsHelper.defaults, effects)
    }

    /** `addListeners(_:)`: the message handler is replaced (possibly by none). */
    method AddListeners(handlerPresent: bool)
      modifies this
      ensures Snapshot() == old(Snapshot()).(handlerSet := handlerPresent)
    {
      messageHandlerSet := handlerPresent;
    }

    /** `formattedAndSentJsMessage(with:)` */
    method FormattedAndSentJsMessage(content: string)
      modifies this
      ensures Snapshot() == old(Snapshot()).(effects := old(effects) + [Script(JsCode(content))])
    {
      var jsCode := ScriptPrefix + content + ScriptSuffix;
      effects := effects + [Script(jsCode)];
    }

    /** `messageHandler?.error(_:)` */
    method ReportError(message: string)
      modifies this
      ensures Snapshot() == Report(old(Snapshot()), message)
    {
      if messageHandlerSet {
        effects := effects + [Handler(ReportedError(message))];
      }
    }

    /** `messageHandler?.didReceive(_:)` / `updateLoader(_:)` */
    method NotifyHandler(call: HandlerCall)
      modifies this
      ensures Snapshot() == Notify(old(Snapshot()), call)
    {
      if messageHandlerSet {
        effects := effects + [Handler(call)];
      }
    }

    /** `post(_:includeFormat:encrypted:)` */
    method Post(message: string, includeFormat: bool, encrypted: bool)
      modifies this
      ensures Snapshot() == Posted(old(Snapshot()), communicationService.securityService, message, includeFormat, encrypted)
    {
      var formattedMessage := FormatMessage(message, includeFormat);
      var escapedMessage := Text.Escape(formattedMessage);
      if encrypted {
        var encryptedMessage := communicationService.Encrypt(formattedMessage);
        if encryptedMessage.Some? {
          escapedMessage := encryptedMessage.value;
        }
      }
      FormattedAndSentJsMessage(escapedMessage);
    }

    /** `refreshToken()`, given what the token delegate would answer. */
    method RefreshToken(reply: TokenReply)
      modifies this
      ensures Snapshot() == Refreshed(old(Snapshot()), communicationService.host, communicationService.securityService, reply)
    {
      var host := communicationService.host;
      if !tokenDelegateSet {
        ReportError(RefreshFailedMessage);
        return;
      }
      match reply
      case Threw(e) =>
        ReportError(host.describe(e));
      case Issued(newToken) =>
        var message := host.json.write(EncodeEnvelope(TokenEnvelope(newToken, host.bundleIdentifier)));
        match message
        case Failure(e) =>
          ReportError(host.describe(e));
        case Success(m) =>
          Post(m, false, true);
    }

    /** The catch branch of `userContentController`: decrypt the body and dispatch by type. */
    method DecryptAndDispatch(body: string, renewReply: TokenReply, now: real)
      modifies this, userDefaultsHelper
      ensures Snapshot() == Decrypted(old(Snapshot()), communicationService.host, communicationService.securityService,
                                      body, renewReply, now)
    {
      var host := communicationService.host;
      var decryptedResult := communicationService.Decrypt(body);
      match decryptedResult
      case Failure(decryptedError) =>
        ReportError(DecryptedErrorPrefix + host.describe(decryptedError));
      case Success(result) =>
        if result.msgType == Some(Unowned) {
          return;
        }
        if result.msgType == Some(Token) {
          RefreshToken(renewReply);
          return;
        }
        if result.msgType == Some(Loading) {
          var isLoading := if result.data.Some? && result.data.value.setting.Some? then result.data.value.setting.value else false;
          NotifyHandler(UpdateLoader(isLoading));
          return;
        }
        if result.msgType == Some(MessageType.Filters) {
          if result.data.None? || result.data.value.filters.None? {
            return;
          }
          userDefaultsHelper.Set(result.data.value.filters.value, Defaults.Filters, host.json, FilterModel.EncodeFilters);
          return;
        }
        if result.msgType == Some(Path) {
          if result.data.None? || result.data.value.value.None? {
            return;
          }
          userDefaultsHelper.Set(SavedPaths.NewSavedPath(result.data.value.value.value, now), Defaults.UserAlternatorPath,
                                 host.json, SavedPaths.EncodeSavedPath);
        }
        NotifyHandler(DidReceive(result));
    }

    /**
     * `userContentController(_:didReceive:)`, given what the token delegate would
     * answer during a handshake and during a TOKEN refresh, and the current time.
     */
    method UserContentController(name: string, body: Body, handshakeReply: TokenReply, renewReply: TokenReply, now: real)
      modifies this, communicationService, userDefaultsHelper
      ensures Snapshot() == Received(old(Snapshot()), communicationService.host, communicationService.securityService,
                                     name, body, handshakeReply, renewReply, now)
    {
      if name == LogChannel {
        return;
      }
      if body.OtherBody? {
        ReportError(CorruptedBodyMessage);
        return;
      }
      var host := communicationService.host;
      var result := Parsing.ParseEnvelope(host.json, body.s);
      var caught := result.Failure?;
      if result.Success? && IsHandshake(result.value) {
        if !tokenDelegateSet {
          ReportError(RefreshFailedMessage);
          return;
        }
        if handshakeReply.Threw? {
          caught := true;
        } else {
          var filters := userDefaultsHelper.Get(Defaults.Filters, host.json, FilterModel.DecodeFilters);
          var delivered := communicationService.EstablishHandShake(result.value.data.value.key.value, handshakeReply.token, filters);
          if delivered.Some? {
            FormattedAndSentJsMessage(delivered.value);
          }
          if connectionCompletedSet {
            effects := effects + [ConnectionCompleted];
          }
        }
      }
      if caught {
        DecryptAndDispatch(body.s, renewReply, now);
      }
    }
  }

  // Properties of the bridge

  /** Messages on the log channel are never parsed, decrypted or dispatched. */
  lemma LogChannelIgnored(b: Bridge, host: Host, security: SecureChannel.SecurityService, body: Body,
                          handshakeReply: TokenReply, renewReply: TokenReply, now: real)
    ensures Received(b, host, security, LogChannel, body, handshakeReply, renewReply, now) == b
  {
  }

  /** A body that is not a string is reported as corrupted, and nothing else happens. */
  lemma CorruptedBodyReported(b: Bridge, host: Host, security: SecureChannel.SecurityService, name: string,
                              handshakeReply: TokenReply, renewReply: TokenReply, now: real)
    requires name != LogChannel
    ensures var r := Received(b, host, security, name, OtherBody, handshakeReply, renewReply, now);
            r.secret == b.secret && r.store == b.store &&
            r.effects == b.effects + (if b.handlerSet then [Handler(ReportedError(CorruptedBodyMessage))] else [])
  {
  }

  /** A message that parses as cleartext but is no handshake request is ignored, with no decryption attempt. */
  lemma CleartextNonHandshakeIgnored(b: Bridge, host: Host, security: SecureChannel.SecurityService, name: string,
                                     s: string, handshakeReply: TokenReply, renewReply: TokenReply, now: real)
    requires name != LogChannel
    requires Parsing.ParseEnvelope(host.json, s).Success? && !IsHandshake(Parsing.ParseEnvelope(host.json, s).value)
    ensures Received(b, host, security, name, StringBody(s), handshakeReply, renewReply, now) == b
  {
  }

  /**
   * A handshake request without a token delegate reports "We couldn't refresh
   * the session": no reply is injected, no secret derived, no completion fired.
   */
  lemma HandshakeWithoutTokenDelegate(b: Bridge, host: Host, security: SecureChannel.SecurityService, name: string,
                                      s: string, handshakeReply: TokenReply, renewReply: TokenReply, now: real)
    requires name != LogChannel && !b.tokenDelegateSet
    requires Parsing.ParseEnvelope(host.json, s).Success? && IsHandshake(Parsing.ParseEnvelope(host.json, s).value)
    ensures var r := Received(b, host, security, name, StringBody(s), handshakeReply, renewReply, now);
            r == Report(b, RefreshFailedMessage) && r.secret == b.secret &&
            forall i :: |b.effects| <= i < |r.effects| ==> r.effects[i] == Handler(ReportedError(RefreshFailedMessage))
  {
  }

  /** When the token delegate throws during a handshake, the message falls through to the decrypt branch. */
  lemma HandshakeTokenThrows(b: Bridge, host: Host, security: SecureChannel.SecurityService, name: string,
                             s: string, e: Error, renewReply: TokenReply, now: real)
    requires name != LogChannel && b.tokenDelegateSet
    requires Parsing.ParseEnvelope(host.json, s).Success? && IsHandshake(Parsing.ParseEnvelope(host.json, s).value)
    ensures Received(b, host, security, name, StringBody(s), Threw(e), renewReply, now)
         == Decrypted(b, host, security, s, renewReply, now)
  {
  }

  /**
   * A handshake with a token injects the escaped reply (carrying the stored
   * filters) when it serialises, derives the secret from the page's key, and
   * then fires `connectionCompleted` when it is set, even when derivation or
   * serialisation failed. The store is untouched.
   */
  lemma HandshakeCompletes(b: Bridge, host: Host, security: SecureChannel.SecurityService, name: string,
                           s: string, token: string, renewReply: TokenReply, now: real)
    requires name != LogChannel && b.tokenDelegateSet
    requires Parsing.ParseEnvelope(host.json, s).Success? && IsHandshake(Parsing.ParseEnvelope(host.json, s).value)
    ensures var env := Parsing.ParseEnvelope(host.json, s).value;
            var r := Received(b, host, security, name, StringBody(s), Issued(token), renewReply, now);
            var content := SecureChannel.HandshakeContent(security, host, token, StoredFilters(b.store, host));
            var sent := if content.Success? then [Script(JsCode(Text.Escape(content.value)))] else [];
            r.store == b.store &&
            r.effects == b.effects + sent + (if b.completionSet then [ConnectionCompleted] else []) &&
            r.secret == (if content.Success?
                         then SecureChannel.SecretAfterDerivation(b.secret, security.deriveSharedSecretKey(env.data.value.key.value))
                         else b.secret)
  {
    var env := Parsing.ParseEnvelope(host.json, s).value;
    var content := SecureChannel.HandshakeContent(security, host, token, StoredFilters(b.store, host));
    if content.Failure? {
      assert b.effects + [] == b.effects;
    }
  }

  /** A body that does not decrypt and parse is reported with the "Decrypted error: " prefix and dropped. */
  lemma DecryptFailureReported(b: Bridge, host: Host, security: SecureChannel.SecurityService, s: string,
                               renewReply: TokenReply, now: real)
    requires SecureChannel.DecryptWith(security, host, b.secret, s).Failure?
    ensures var e := SecureChannel.DecryptWith(security, host, b.secret, s).error;
            Decrypted(b, host, security, s, renewReply, now) == Report(b, DecryptedErrorPrefix + host.describe(e))
  {
  }

  /** Without a secure session every ciphertext fails with "Not connection established". */
  lemma NoSessionNoDispatch(b: Bridge, host: Host, security: SecureChannel.SecurityService, s: string,
                            renewReply: TokenReply, now: real)
    requires b.secret.None?
    ensures Decrypted(b, host, security, s, renewReply, now)
         == Report(b, DecryptedErrorPrefix + host.describe(Other("Not connection established")))
  {
  }

  /** Decrypted UNOWNED messages are dropped; TOKEN refreshes and resends; LOADING updates the loader, defaulting to false. */
  lemma ControlMessagesHandled(b: Bridge, host: Host, security: SecureChannel.SecurityService, env: Envelope,
                               renewReply: TokenReply, now: real)
    ensures env.msgType == Some(Unowned) ==> Dispatched(b, host, security, env, renewReply, now) == b
    ensures env.msgType == Some(Token) ==> Dispatched(b, host, security, env, renewReply, now) == Refreshed(b, host, security, renewReply)
    ensures env.msgType == Some(Loading) ==>
              Dispatched(b, host, security, env, renewReply, now)
              == Notify(b, UpdateLoader(env.data.Some? && env.data.value.setting == Some(true)))
  {
  }

  /** FILTER stores the filters when present and is never forwarded to the handler. */
  lemma FiltersStoredNotForwarded(b: Bridge, host: Host, security: SecureChannel.SecurityService, env: Envelope,
                                  renewReply: TokenReply, now: real)
    requires env.msgType == Some(MessageType.Filters)
    ensures var r := Dispatched(b, host, security, env, renewReply, now);
            r.effects == b.effects && r.secret == b.secret &&
            (env.data.Some? && env.data.value.filters.Some? ==>
               r.store == Defaults.SetAt(b.store, Defaults.Filters,
                                         host.json.write(FilterModel.EncodeFilters(env.data.value.filters.value)))) &&
            (env.data.None? || env.data.value.filters.None? ==> r.store == b.store)
  {
  }

  /** PATH stores a saved path stamped now and is then forwarded; without a value it is dropped. */
  lemma PathStoredAndForwarded(b: Bridge, host: Host, security: SecureChannel.SecurityService, env: Envelope,
                               renewReply: TokenReply, now: real)
    requires env.msgType == Some(Path)
    ensures var r := Dispatched(b, host, security, env, renewReply, now);
            (env.data.None? || env.data.value.value.None? ==> r == b) &&
            (env.data.Some? && env.data.value.value.Some? ==>
               r.store == Defaults.SetAt(b.store, Defaults.UserAlternatorPath,
                                         host.json.write(SavedPaths.EncodeSavedPath(SavedPaths.SavedPath(env.data.value.value.value, now)))) &&
               r.effects == b.effects + (if b.handlerSet then [Handler(DidReceive(env))] else []))
  {
  }

  /** Every other decrypted type, and an envelope with no type, is forwarded to the handler unchanged. */
  lemma OthersForwarded(b: Bridge, host: Host, security: SecureChannel.SecurityService, env: Envelope,
                        renewReply: TokenReply, now: real)
    requires env.msgType !in {Some(Unowned), Some(Token), Some(Loading), Some(MessageType.Filters), Some(Path)}
    ensures Dispatched(b, host, security, env, renewReply, now) == Notify(b, DidReceive(env))
  {
  }

  /** The entry stored under `k` is the same in both stores (present in both with one value, or absent from both). */
  predicate SameEntry(m: Defaults.Store, m': Defaults.Store, k: Defaults.StorageKey)
  {
    (Defaults.KeyName(k) in m' <==> Defaults.KeyName(k) in m) &&
    (Defaults.KeyName(k) in m ==> m'[Defaults.KeyName(k)] == m[Defaults.KeyName(k)])
  }

  lemma SetAtKeepsOthers(m: Defaults.Store, written: Defaults.StorageKey, encoded: Result<string, Error>, k: Defaults.StorageKey)
    requires k != written
    ensures SameEntry(m, Defaults.SetAt(m, written, encoded), k)
  {
    Defaults.KeyNamesDistinct(k, written);
  }

  lemma FiltersDispatchKeepsEntry(b: Bridge, host: Host, security: SecureChannel.SecurityService, env: Envelope,
                                  renewReply: TokenReply, now: real, k: Defaults.StorageKey)
    requires k != Defaults.Filters && env.msgType == Some(MessageType.Filters)
    ensures SameEntry(b.store, Dispatched(b, host, security, env, renewReply, now).store, k)
  {
    if env.data.Some? && env.data.value.filters.Some? {
      SetAtKeepsOthers(b.store, Defaults.Filters,
                       host.json.write(FilterModel.EncodeFilters(env.data.value.filters.value)), k);
    }
  }

  lemma PathDispatchKeepsEntry(b: Bridge, host: Host, security: SecureChannel.SecurityService, env: Envelope,
                               renewReply: TokenReply, now: real, k: Defaults.StorageKey)
    requires k != Defaults.UserAlternatorPath && env.msgType == Some(Path)
    ensures SameEntry(b.store, Dispatched(b, host, security, env, renewReply, now).store, k)
  {
    if env.data.Some? && env.data.value.value.Some? {
      var saved := SavedPaths.NewSavedPath(env.data.value.value.value, now);
      SetAtKeepsOthers(b.store, Defaults.UserAlternatorPath, host.json.write(SavedPaths.EncodeSavedPath(saved)), k);
    }
  }

  lemma DecryptedWritesOnlyFiltersAndPath(b: Bridge, host: Host, security: SecureChannel.SecurityService, s: string,
                                          renewReply: TokenReply, now: real, k: Defaults.StorageKey)
    requires k != Defaults.Filters && k != Defaults.UserAlternatorPath
    ensures SameEntry(b.store, Decrypted(b, host, security, s, renewReply, now).store, k)
  {
    match SecureChannel.DecryptWith(security, host, b.secret, s)
    case Failure(_) =>
    case Success(env) =>
      if env.msgType == Some(MessageType.Filters) {
        FiltersDispatchKeepsEntry(b, host, security, env, renewReply, now, k);
      } else if env.msgType == Some(Path) {
        PathDispatchKeepsEntry(b, host, security, env, renewReply, now, k);
      }
  }

  /** Only FILTER and PATH messages write to the store, and only under their own keys. */
  lemma ReceivedWritesOnlyFiltersAndPath(b: Bridge, host: Host, security: SecureChannel.SecurityService,
                                         name: string, body: Body, handshakeReply: TokenReply,
                                         renewReply: TokenReply, now: real, k: Defaults.StorageKey)
    requires k != Defaults.Filters && k != Defaults.UserAlternatorPath
    ensures SameEntry(b.store, Received(b, host, security, name, body, handshakeReply, renewReply, now).store, k)
  {
    if name != LogChannel && body.StringBody? {
      DecryptedWritesOnlyFiltersAndPath(b, host, security, body.s, renewReply, now, k);
    }
  }
}
