# BonnetAlternator iOS bridge: a Dafny model

BonnetAlternator embeds a hosted web page for EV charging in a native iOS screen. The page and the app talk over the web view's script-message channel. This project models the native side of that bridge and proves properties of the model:

- **Envelope.** The JSON envelope has a `type`, a `platform` and a `data` payload. `type` is an open enum: unknown tags decode to `unowned`. `platform` is a closed enum.
- **Error mapping.** Decoder error kinds are mapped to `SecurityServiceError` messages.
- **Secure session.** One optional shared secret. A handshake overwrites it; encryption and decryption are gated on it.
- **Inbound messages.** The web service classifies each one: a log line, a corrupted body, a cleartext handshake, or ciphertext. It then dispatches it to persistence, the handshake or the message handler.
- **Outbound messages.** They are formatted, escaped or encrypted, and injected as a guarded `window.postMessage('…')` script. The model also states how the page's JavaScript engine reads the single-quoted literal back.
- **View model.** Updates the view-model state when the handler is called: the loader, the keyboard and intercom flags, and URL and map launches.
- **Page load.** The first load uses the saved deep-link path. The path is usable for 12 hours and is consumed once.
- **Environment selection.** The stored environment is used, with a `production` default.
- **HTTP client.** Classifies responses by status code, retries a request a bounded number of times, and preloads the user profile.
- **Location service.** An authorization decision chain, plus a filter: keep the first fix, then only fixes more than 5 away.
- **Debug log.** An append-only list whose ids are positions.

Each core source file has its own module:

| Module | Models |
|---|---|
| `ResponseModel` | the envelope |
| `Parsing` | `parse(data:)` |
| `SavedPaths` | the saved path |
| `Defaults` | `UsersDefaultHelper` |
| `Environments` | `BonnetAlternator` |
| `SecureChannel` | `SecuredCommunicationService` |
| `WebBridge` | `WebService` |
| `ViewModel` | both `AlternatorViewModel` files |
| `Networking` | `HTTPNetworkClient` |
| `Location` | `UserLocationService` |
| `Logging` | `LogService` |

`Wrappers`, `Foundation`, `Text`, `Coding` and `FilterModel` are shared: they hold Option/Result, the JSON value, the error type, script-literal escaping and reading, field codecs and `Filters`.

How the model treats the parts it does not compute:

- **Objects that change state are classes.** This covers the secure session, the defaults helper, the web service, the view model, the location service and the log service. Their methods state their new state with `modifies`/`old`.
- **The web service and its collaborators** are specified by pure functions on a `Bridge` value: `Received`, `Decrypted`, `Dispatched`, `Refreshed`, `Posted` and `Handshaken`. `WebService.Snapshot()` reads the bridge state across three objects, and each method ensures `Snapshot()` equals the pure function of the old snapshot. The lemmas prove the protocol's properties about those functions.
- **Calls out of the bridge are recorded, not executed.** Script injection, message-handler calls and the connection-completed closure go into an effect log (`WebService.effects`). Web-view page loads go into `loadedUrls`, and app and map launches into `launches`. `ViewModel.AlternatorViewModel.Handle` answers a recorded handler call.
- **Foreign code becomes function values.** This covers BFSecurity (key agreement and the cipher), the JSON text layer of JSONEncoder/JSONDecoder, URL parsing, `canOpenURL`, UTF-8 decoding of HTTP bodies, the geodesic distance and error descriptions. Beyond being functions, no law is assumed about them. The round-trip lemmas take as a hypothesis that the text layer reads back what it wrote (`ReadsBack`).
- **Inputs become parameters.** This covers the clock (`now`, seconds as a real), the answers of the host app's token delegate (`TokenReply`) and the outcome of each HTTP attempt.

Behaviours of the code worth knowing, which the model keeps:

- **Ciphertext is not escaped.** `post` sends the ciphertext as it is (`WebService.swift:59-63`); only the cleartext fallback is escaped.
- **Sending without a session.** Without a session, `post` falls back to the escaped cleartext; nothing refuses it.
- **One key pair.** One security service serves the whole shared session, and its public key is a constant of the model; no key pair is made per handshake.
- **Failed derivation.** A failed derivation keeps the previous secret, and `connectionCompleted` still fires. When the token delegate throws during a handshake, the message falls through to the decrypt branch and the throw itself is not reported.
- **Handshake reply.** The reply carries the app id, the public key, the token and the stored filters, and nothing else.
- **`isIntercomOpen`.** The current message handler (`AlternatorViewModel+MessageHandler.swift`) assigns `isIntercomOpen`, which `AlternatorViewModel.swift` does not declare. The model gives the view model that field, initially false. The older handler in `AlternatorViewModel.swift` is modelled as `DidReceiveEarlier`.
- **Escaping.** The code escapes only single quotes before embedding a message in the script's single-quoted literal. The JSON text it embeds escapes `"`, `\` and control characters with backslashes, and the page's JavaScript engine consumes those backslashes. The model keeps this quote-only escaping (`Text.Escape`) in every operation that sends a message; what it does to such text is recorded under "Findings", where `Text.ScriptEscape` is the corrected escaping.

## Model

| member | source | states |
|---|---|---|
| ResponseModel.TypeRawValueRoundTrip | Sources/BonnetAlternator/Helpers/Model/CommomResponseModel.swift:15-27 | the raw tags of the message types are pairwise distinct and each decodes back to its own case, `unowned` included |
| ResponseModel.DecodeTypeOfString | Sources/BonnetAlternator/Helpers/Model/CommomResponseModel.swift:53-58 | every string tag decodes without error: to the case whose raw value it is, and to `unowned` exactly when no other case has that raw value |
| ResponseModel.DecodeType | Sources/BonnetAlternator/Helpers/Model/CommomResponseModel.swift:29-31 | a tag decodes exactly when it is a string; a decoded case other than `unowned` is the tag found; `unowned` comes from a tag that is no other case's raw value; null is value-not-found, any other kind a type mismatch |
| ResponseModel.NonStringTypeFails | Sources/BonnetAlternator/Helpers/Model/CommomResponseModel.swift:55-56 | a present `type` that is not a string makes the whole envelope fail with a type mismatch |
| ResponseModel.UnknownPlatformFails | Sources/BonnetAlternator/Helpers/Model/CommomResponseModel.swift:34-38 | a platform string other than ios/web/android makes the envelope fail as data corrupted, with no fallback |
| ResponseModel.DecodePlatform | Sources/BonnetAlternator/Helpers/Model/CommomResponseModel.swift:34-38 | a decoded platform is exactly the string found; a string other than ios/web/android is data corrupted; null is value-not-found, any other kind a type mismatch |
| ResponseModel.NewEnvelope | Sources/BonnetAlternator/Helpers/Model/CommomResponseModel.swift:11-13 | a newly built envelope carries the given type and payload and platform `ios` |
| ResponseModel.NewData | Sources/BonnetAlternator/Helpers/Model/CommomResponseModel.swift:40-50 | a new payload has every field nil except `app_id`, which is the bundle identifier |
| ResponseModel.DataRoundTrip | Sources/BonnetAlternator/Helpers/Model/CommomResponseModel.swift:40-50 | every payload decodes back unchanged from the JSON value its synthesised encoder writes |
| ResponseModel.DecodeData | Sources/BonnetAlternator/Helpers/Model/CommomResponseModel.swift:40-50 | a null payload is value-not-found and any other non-object a type mismatch; a decoded payload has each field nil exactly when its key is absent or null and otherwise the value found, the filters keeping their own known fields |
| ResponseModel.EnvelopeRoundTrip | Sources/BonnetAlternator/Helpers/Model/CommomResponseModel.swift:10-13 | every envelope decodes back unchanged from the JSON value its synthesised encoder writes |
| ResponseModel.DecodeEnvelope | Sources/BonnetAlternator/Helpers/Model/CommomResponseModel.swift:10-13 | a null envelope is value-not-found and any other non-object a type mismatch; on success the type, platform and payload are nil exactly when their key is absent or null, a known type and the platform are the values found, and the payload holds the fields found |
| FilterModel.FiltersRoundTrip | Sources/BonnetAlternator/Helpers/Model/Filters.swift:10-16 | filters decode back unchanged from their JSON value, absent fields included |
| FilterModel.EncodeFilters | Sources/BonnetAlternator/Helpers/Model/Filters.swift:10-16 | the encoding is an object holding exactly the keys of the fields that are set, none of them null |
| FilterModel.DecodeFilters | Sources/BonnetAlternator/Helpers/Model/Filters.swift:10-16 | null is value-not-found, any other non-object a type mismatch; decoded filters encode back to the known non-null fields of the object, so unknown keys and nulls are all that is lost |
| Coding.DecodeStrings | Sources/BonnetAlternator/Helpers/Model/Filters.swift:13 | a decoded string array is exactly the strings found, in order; a failure is the error of the first element that is no string |
| Coding.DecodeStringArray | Sources/BonnetAlternator/Helpers/Model/Filters.swift:13 | a decoded array is exactly the strings found; a value that is no array fails, null as value-not-found |
| Coding.DecodeInt | Sources/BonnetAlternator/Helpers/Model/Filters.swift:14-15 | a decoded integer is exactly the number found; a fraction or a value beyond 64 bits is data corrupted; a non-number fails, null as value-not-found |
| Coding.DecodeString | Sources/BonnetAlternator/Helpers/Model/CommomResponseModel.swift:41-48 | a decoded string is exactly the JSON string found; null is value-not-found, any other kind a type mismatch |
| Coding.DecodeBool | Sources/BonnetAlternator/Helpers/Model/CommomResponseModel.swift:49 | a decoded boolean is exactly the JSON boolean found; null is value-not-found, any other kind a type mismatch |
| Coding.DecodeDouble | Sources/BonnetAlternator/Helpers/Model/CommomResponseModel.swift:46-47 | a decoded number is exactly the JSON number found; null is value-not-found, any other kind a type mismatch |
| Coding.StringRoundTrip | Sources/BonnetAlternator/Helpers/Model/CommomResponseModel.swift:41-48 | every string decodes back from its encoding |
| Coding.BoolRoundTrip | Sources/BonnetAlternator/Helpers/Model/CommomResponseModel.swift:49 | every boolean decodes back from its encoding |
| Coding.DoubleRoundTrip | Sources/BonnetAlternator/Helpers/Model/CommomResponseModel.swift:46-47 | every number decodes back from its encoding |
| Coding.IntRoundTrip | Sources/BonnetAlternator/Helpers/Model/Filters.swift:14-15 | every 64-bit integer decodes back from its encoding |
| Coding.StringArrayRoundTrip | Sources/BonnetAlternator/Helpers/Model/Filters.swift:13 | every string array decodes back from its encoding |
| Coding.FieldRoundTrip | Sources/BonnetAlternator/Helpers/Model/CommomResponseModel.swift:40-50 | an optional field written only when set is read back as the same optional value, when its codec round-trips |
| Coding.ReadFieldEncodesBack | Sources/BonnetAlternator/Helpers/Model/CommomResponseModel.swift:40-50 | an optional field read with a decoder its encoder inverts is nil exactly when its key is absent or null, and otherwise encodes to the value found |
| Parsing.Parse | Sources/BonnetAlternator/Helpers/Extensions/Decodable+Parse.swift:13-43 | a successful decode is returned unchanged; a decoding error becomes `.other` with its kind's message; any other error is rethrown unchanged |
| Parsing.Rethrown | Sources/BonnetAlternator/Helpers/Extensions/Decodable+Parse.swift:20-41 | a decoding error becomes an `.other` error from whose message its kind is recovered; other errors pass unchanged |
| Parsing.MessageNamesKind | Sources/BonnetAlternator/Helpers/Extensions/Decodable+Parse.swift:20-38 | the four messages "Data Corrupted", "Key not found", "Value not found", "Type Mismatch" are distinct and name their kind |
| Parsing.ParseEnvelope | Sources/BonnetAlternator/Helpers/Extensions/Decodable+Parse.swift:13-43 | parsing an envelope yields it exactly when the text reads and decodes; unreadable text fails with "Data Corrupted", a decoding error with its kind's message, so every failure is an `.other` error naming a decoding kind |
| Parsing.ParseWrittenEnvelope | Sources/BonnetAlternator/Helpers/Extensions/Decodable+Parse.swift:15-18 | the text written for an envelope parses back to that envelope when the text layer reads back what it wrote |
| SecureChannel.HandshakeReply | Sources/BonnetAlternator/Domain/SecuredCommunicationService.swift:33-40 | the reply is a HANDSHAKE envelope from `ios` with the local public key, the token, the given filters and the bundle id |
| SecureChannel.HandshakeReplyReadable | Sources/BonnetAlternator/Domain/SecuredCommunicationService.swift:40-47 | when the JSON text written holds no backslash and no line break, the reply escaped as the code escapes it is read by the page as that JSON text, which parses back to a HANDSHAKE envelope with the local key and the token |
| SecureChannel.HandshakeReplyReadableCorrected | Sources/BonnetAlternator/Domain/SecuredCommunicationService.swift:40-47 | with the corrected escaping, every reply is read by the page as the JSON text written, which parses back to a HANDSHAKE envelope with the local key and the token |
| SecureChannel.SecretAfterDerivation | Sources/BonnetAlternator/Domain/SecuredCommunicationService.swift:50-55 | a successful derivation overwrites the slot; a failed one leaves the previous secret, or none |
| SecureChannel.LastHandshakeWins | Sources/BonnetAlternator/Domain/SecuredCommunicationService.swift:51 | after two handshakes the slot holds the second derived secret, or the first if the second derivation failed |
| SecureChannel.SecuredCommunicationService.EstablishHandShake | Sources/BonnetAlternator/Domain/SecuredCommunicationService.swift:31-56 | when the reply cannot be serialised nothing is sent and the secret is untouched; otherwise the reply with its single quotes escaped (`Text.Escape`) is handed over and the slot is updated by the derivation |
| SecureChannel.EncryptWith | Sources/BonnetAlternator/Domain/SecuredCommunicationService.swift:60-65 | encryption yields the cipher's result exactly when a secret exists and the cipher does not throw, nil otherwise |
| SecureChannel.DecryptWith | Sources/BonnetAlternator/Domain/SecuredCommunicationService.swift:67-83 | without a secret it fails with "Not connection established"; a success is a decrypted text that parses to the envelope; a decryption or parse error is wrapped |
| SecureChannel.SecuredCommunicationService.Encrypt | Sources/BonnetAlternator/Domain/SecuredCommunicationService.swift:60-65 | encryption on the slot the service holds, with the gating of `EncryptWith` |
| SecureChannel.SecuredCommunicationService.Decrypt | Sources/BonnetAlternator/Domain/SecuredCommunicationService.swift:67-83 | decryption and parsing on the slot the service holds, with the outcomes of `DecryptWith` |
| Text.Escape | Sources/BonnetAlternator/Domain/WebService.swift:57 | the code's escaping: a message without single quotes is sent as it is |
| Text.UnescapeEscape | Sources/BonnetAlternator/Domain/WebService.swift:57 | escaping every `'` as `\'` loses nothing: distinct messages stay distinct, and undoing the quote escapes gives the message back |
| Text.EscapedQuotesArePreceded | Sources/BonnetAlternator/Domain/SecuredCommunicationService.swift:45 | in an escaped string every single quote is preceded by a backslash |
| Text.JsStringValue | Sources/BonnetAlternator/Domain/WebService.swift:87-92 | the value of the single-quoted literal in the injected script, as the page reads it (section 12.9.4 of ECMA-262): no longer than the literal's body, and equal to it when the body holds no quote, backslash or line break |
| Text.ScriptEscapeReadsBack | Sources/BonnetAlternator/Domain/WebService.swift:57 | the corrected escaping reaches the page unchanged: every message escaped by it reads back as itself |
| Text.EscapeAgreesWithoutBackslash | Sources/BonnetAlternator/Domain/WebService.swift:57 | on messages without backslashes or line breaks the code's escaping equals the corrected one, so it reaches the page unchanged |
| Text.EscapeAltersBackslashEscapes | Sources/BonnetAlternator/Domain/SecuredCommunicationService.swift:45 | with the code's escaping, text holding the JSON escapes `\"`, `\\` or `\n` reaches the page with those backslashes consumed |
| Text.ReadsEscapedPrefix | Sources/BonnetAlternator/Domain/WebService.swift:57 | a prefix without backslashes, escaped as the code escapes it, is read by the page as itself, ahead of whatever follows |
| Text.EscapeAltersFirstBackslashEscape | Sources/BonnetAlternator/Domain/WebService.swift:57 | for every message whose first backslash starts a single escape other than `\\` (`\"`, `\'`, `\n`, `\t`, …), the page does not read the code's escaping of it as the message |
| WebBridge.JsCode | Sources/BonnetAlternator/Domain/WebService.swift:87-92 | the injected script is the guarded `window.postMessage('` prefix, the content, and the closing suffix |
| WebBridge.JsCodeInjective | Sources/BonnetAlternator/Domain/WebService.swift:87-92 | distinct contents give distinct scripts: the posted content is recoverable from the script |
| WebBridge.PostContent | Sources/BonnetAlternator/Domain/WebService.swift:55-65 | `post` sends the ciphertext of the formatted message when encryption is asked for and succeeds; otherwise (not asked, no session, or the cipher threw) it sends the formatted message with its single quotes escaped: undoing `\'` gives the formatted message back, the page reads it as the formatted message when that holds no backslash or line break, and reads a different text when its first backslash starts an escape such as `\"` |
| WebBridge.PostContentCorrected | Sources/BonnetAlternator/Domain/WebService.swift:55-65 | with the corrected escaping, the cleartext fallback is read by the page as exactly the formatted message; the content equals `PostContent` on every message without backslashes or line breaks |
| WebBridge.TokenEnvelope | Sources/BonnetAlternator/Domain/WebService.swift:76 | the refresh reply is a TOKEN envelope from `ios` whose value is the new token |
| WebBridge.WebService.AddListeners | Sources/BonnetAlternator/Domain/WebService.swift:37-50 | only the message handler is replaced, by the given one or none |
| WebBridge.WebService.FormattedAndSentJsMessage | Sources/BonnetAlternator/Domain/WebService.swift:87-92 | exactly one script, the wrapped content, is injected |
| WebBridge.WebService.ReportError | Sources/BonnetAlternator/Domain/WebService.swift:72 | an error reaches the handler only when one is set |
| WebBridge.WebService.NotifyHandler | Sources/BonnetAlternator/Domain/WebService.swift:153 | a handler call is made only when a handler is set |
| WebBridge.WebService.Post | Sources/BonnetAlternator/Domain/WebService.swift:55-65 | the new state is that of `Posted`: one script carrying the content of `PostContent` (ciphertext, or the quote-escaped cleartext), nothing else changes |
| WebBridge.Posted | Sources/BonnetAlternator/Domain/WebService.swift:55-65 | a post appends exactly one script, carrying the post content, and changes nothing else: no handler call, same session, same store |
| WebBridge.WebService.RefreshToken | Sources/BonnetAlternator/Domain/WebService.swift:69-82 | with no delegate it reports "We couldn't refresh the session"; a throw or a serialisation error is reported by its description; otherwise the TOKEN envelope is posted encrypted and unformatted |
| WebBridge.WebService.DecryptAndDispatch | Sources/BonnetAlternator/Domain/WebService.swift:129-172 | the decrypt branch: the new bridge state is that of the decrypt-and-dispatch specification |
| WebBridge.WebService.UserContentController | Sources/BonnetAlternator/Domain/WebService.swift:97-175 | the new state of the bridge, session slot and store is that of the inbound-message specification, whose properties the lemmas below establish |
| WebBridge.LogChannelIgnored | Sources/BonnetAlternator/Domain/WebService.swift:99-102 | a message on the log channel changes nothing: it is not parsed, decrypted or dispatched |
| WebBridge.CorruptedBodyReported | Sources/BonnetAlternator/Domain/WebService.swift:104-109 | a non-string body only reports "Body message corrupted" to a set handler |
| WebBridge.CleartextNonHandshakeIgnored | Sources/BonnetAlternator/Domain/WebService.swift:113-127 | a cleartext envelope that is not HANDSHAKE with a key is ignored, with no decryption attempt |
| WebBridge.HandshakeWithoutTokenDelegate | Sources/BonnetAlternator/Domain/WebService.swift:119-122 | a handshake request without a token delegate only reports "We couldn't refresh the session": no reply, no secret, no completion |
| WebBridge.HandshakeTokenThrows | Sources/BonnetAlternator/Domain/WebService.swift:119-132 | when the token delegate throws during a handshake the message falls into the decrypt branch |
| WebBridge.HandshakeCompletes | Sources/BonnetAlternator/Domain/WebService.swift:116-127 | a handshake with a token injects the reply with the stored filters, its single quotes escaped as the code does, derives the secret from the page's key, then fires `connectionCompleted` when set, even when derivation or serialisation failed |
| WebBridge.DecryptFailureReported | Sources/BonnetAlternator/Domain/WebService.swift:170-171 | a body that does not decrypt and parse is reported as "Decrypted error: …" and dropped |
| WebBridge.NoSessionNoDispatch | Sources/BonnetAlternator/Domain/WebService.swift:132-171 | before any handshake every ciphertext is reported as "Decrypted error: " with the no-connection error |
| WebBridge.ControlMessagesHandled | Sources/BonnetAlternator/Domain/WebService.swift:137-155 | UNOWNED is dropped; TOKEN refreshes and resends; LOADING updates the loader with the setting, false when absent |
| WebBridge.FiltersStoredNotForwarded | Sources/BonnetAlternator/Domain/WebService.swift:157-161 | FILTER stores the filters under the filters key when present and is never forwarded |
| WebBridge.PathStoredAndForwarded | Sources/BonnetAlternator/Domain/WebService.swift:163-168 | PATH stores a saved path stamped now and is then forwarded; without a value it is dropped |
| WebBridge.OthersForwarded | Sources/BonnetAlternator/Domain/WebService.swift:142-168 | every other decrypted type, and a missing type, is forwarded to the handler unchanged |
| WebBridge.Refreshed | Sources/BonnetAlternator/Domain/WebService.swift:69-82 | a refresh only appends effects, keeps the session and store, makes no handler call without a handler, and injects a script only when a delegate is set and issued a token |
| WebBridge.Decrypted | Sources/BonnetAlternator/Domain/WebService.swift:129-172 | the decrypt branch only appends effects, never touches the session, and makes no handler call without a handler |
| WebBridge.Dispatched | Sources/BonnetAlternator/Domain/WebService.swift:137-168 | dispatching a decrypted envelope only appends effects, never touches the session, makes no handler call without a handler, and changes the store only for FILTER and PATH |
| WebBridge.Handshaken | Sources/BonnetAlternator/Domain/WebService.swift:116-127 | a tokened handshake only appends effects (the quote-escaped reply, then `connectionCompleted`), never calls the handler, keeps the store, and changes the session only when the reply was serialised |
| WebBridge.Received | Sources/BonnetAlternator/Domain/WebService.swift:97-175 | for every inbound message the effect log only grows, the collaborators stay set as they were, no handler call is made without a handler, and the session changes only through a handshake request answered with a token |
| WebBridge.DecryptedWritesOnlyFiltersAndPath | Sources/BonnetAlternator/Domain/WebService.swift:129-172 | the decrypt branch writes the store only under the filters and saved-path keys |
| WebBridge.ReceivedWritesOnlyFiltersAndPath | Sources/BonnetAlternator/Domain/WebService.swift:97-175 | no inbound message changes the environment or user-profile entries of the store |
| ViewModel.InitialScreen | Sources/BonnetAlternator/Views/AlternatorView/ViewModel/AlternatorViewModel.swift:18-21 | the screen starts with no toast, sending disabled, loader shown, keyboard changes allowed, intercom closed |
| ViewModel.AfterDidReceive | Sources/BonnetAlternator/Views/AlternatorView/ViewModel/AlternatorViewModel+MessageHandler.swift:16-58 | a handler message never touches the toast, the send or the loading flag; at most one app is launched, only for BROWSER or NAVIGATE; the intercom flag changes only for INTERCOM and the keyboard flag only for INTERCOM or PATH |
| ViewModel.AfterDidReceiveEarlier | Sources/BonnetAlternator/Views/AlternatorView/ViewModel/AlternatorViewModel.swift:152-173 | the older handler changes nothing for a message without a value, never touches the toast, send, loading or intercom flags, launches at most one app and only for BROWSER, and moves the keyboard flag only for INTERCOM |
| ViewModel.AfterHandlerCall | Sources/BonnetAlternator/Views/AlternatorView/ViewModel/AlternatorViewModel+MessageHandler.swift:14-67 | an error report changes nothing; a loader update sets only the loading flag; no call touches the toast or the send flag, and at most one app is launched |
| ViewModel.AlternatorViewModel.constructor | Sources/BonnetAlternator/Views/AlternatorView/ViewModel/AlternatorViewModel.swift:34-55 | the environment is the stored one if it parses, else production; the bridge shares the session and store, has the token delegate and the completion closure set |
| ViewModel.AlternatorViewModel.SavedPath | Sources/BonnetAlternator/Views/AlternatorView/ViewModel/AlternatorViewModel.swift:85-87 | the saved path is what the store decodes under the saved-path key |
| ViewModel.AlternatorViewModel.DidReceive | Sources/BonnetAlternator/Views/AlternatorView/ViewModel/AlternatorViewModel+MessageHandler.swift:16-58 | the screen after a handler message is the per-type specification applied to the old screen and the stored path |
| ViewModel.AlternatorViewModel.OpenMaps | Sources/BonnetAlternator/Views/AlternatorView/ViewModel/AlternatorViewModel+MessageHandler.swift:71-80 | one maps launch at the coordinate with the given name |
| ViewModel.AlternatorViewModel.UpdateLoader | Sources/BonnetAlternator/Views/AlternatorView/ViewModel/AlternatorViewModel+MessageHandler.swift:60-63 | only the loader flag changes, to the given value |
| ViewModel.AlternatorViewModel.Handle | Sources/BonnetAlternator/Views/AlternatorView/ViewModel/AlternatorViewModel+MessageHandler.swift:14-67 | the handler calls: a message goes to `didReceive`, the loader flag is set, an error changes nothing |
| ViewModel.AlternatorViewModel.DidReceiveEarlier | Sources/BonnetAlternator/Views/AlternatorView/ViewModel/AlternatorViewModel.swift:152-173 | the older handler's screen update, per its specification |
| ViewModel.AlternatorViewModel.LoadUrl | Sources/BonnetAlternator/Views/AlternatorView/ViewModel/AlternatorViewModel.swift:91-106 | a saved path is removed whenever one exists; the target is loaded and the handler registered only when it parses as a URL |
| ViewModel.AlternatorViewModel.UpdateToast | Sources/BonnetAlternator/Views/AlternatorView/ViewModel/AlternatorViewModel.swift:130-134 | the toast changes only in the staging environment |
| ViewModel.AlternatorViewModel.ConnectionCompleted | Sources/BonnetAlternator/Views/AlternatorView/ViewModel/AlternatorViewModel.swift:62-70 | sending is enabled and when-in-use location permission is requested |
| ViewModel.AlternatorViewModel.UpdateLocation | Sources/BonnetAlternator/Views/AlternatorView/ViewModel/AlternatorViewModel.swift:138-148 | the USER_LOCATION envelope is posted encrypted and unformatted when it serialises, nothing otherwise |
| ViewModel.AlternatorViewModel.CoordinateChanged | Sources/BonnetAlternator/Views/AlternatorView/ViewModel/AlternatorViewModel.swift:72-78 | nothing is posted for no coordinate or while sending is disabled; otherwise the location update is posted |
| ViewModel.AlternatorViewModel.OpenBrowser | Sources/BonnetAlternator/Views/AlternatorView/ViewModel/AlternatorViewModel.swift:110-112 | a BROWSER message for the test address is handled like any other |
| ViewModel.AlternatorViewModel.RequestJSToken | Sources/BonnetAlternator/Views/AlternatorView/ViewModel/AlternatorViewModel.swift:114-128 | a generated token is toasted as a warning in staging; no delegate, a throw, or production changes nothing |
| ViewModel.LoadTarget | Sources/BonnetAlternator/Views/AlternatorView/ViewModel/AlternatorViewModel.swift:92-98 | the loaded address is the base plus the saved path when one exists and is usable, else the base alone |
| ViewModel.LocationEnvelope | Sources/BonnetAlternator/Views/AlternatorView/ViewModel/AlternatorViewModel.swift:141 | the location update is a USER_LOCATION envelope from `ios` with the coordinate's latitude and longitude |
| ViewModel.BrowserOpensOnlyOpenable | Sources/BonnetAlternator/Views/AlternatorView/ViewModel/AlternatorViewModel+MessageHandler.swift:17-28 | BROWSER opens the value exactly when it is present, parses as a URL and can be opened; nothing else changes |
| ViewModel.IntercomSetsFlags | Sources/BonnetAlternator/Views/AlternatorView/ViewModel/AlternatorViewModel+MessageHandler.swift:30-39 | INTERCOM with setting b sets the intercom flag to b and allows keyboard changes exactly when b is false |
| ViewModel.NavigateNeedsBothCoordinates | Sources/BonnetAlternator/Views/AlternatorView/ViewModel/AlternatorViewModel+MessageHandler.swift:41-47 | NAVIGATE launches maps, named by the operator, only when both coordinates are present |
| ViewModel.PathUsesStoredPath | Sources/BonnetAlternator/Views/AlternatorView/ViewModel/AlternatorViewModel+MessageHandler.swift:49-57 | PATH sets the keyboard flag from the stored path, not from the message: keyboard changes are allowed exactly when it is no `/locations/` page |
| ViewModel.OtherMessagesChangeNothing | Sources/BonnetAlternator/Views/AlternatorView/ViewModel/AlternatorViewModel+MessageHandler.swift:16-58 | other types, a missing type, or messages lacking the fields their type needs, leave the screen unchanged |
| ViewModel.LoaderAndErrorCalls | Sources/BonnetAlternator/Views/AlternatorView/ViewModel/AlternatorViewModel+MessageHandler.swift:60-67 | `updateLoader(b)` sets only the loader flag; `error` changes no state |
| ViewModel.EarlierVariant | Sources/BonnetAlternator/Views/AlternatorView/ViewModel/AlternatorViewModel.swift:152-173 | the older handler ignores messages without a value, never touches the intercom flag, and for INTERCOM allows keyboard changes exactly when the setting is false |
| ViewModel.VariantsDisagreeOnIntercomWithoutValue | Sources/BonnetAlternator/Views/AlternatorView/ViewModel/AlternatorViewModel.swift:152-170 | on an INTERCOM message with a setting but no value the current handler disables keyboard changes and the older one does not |
| ViewModel.SavedPathConsumedOnce | Sources/BonnetAlternator/Views/AlternatorView/ViewModel/AlternatorViewModel.swift:94-101 | after a load removed the saved path, the next load asks for the base alone |
| ViewModel.SavedPathResumed | Sources/BonnetAlternator/Views/AlternatorView/ViewModel/AlternatorViewModel.swift:91-106 | a path stored by PATH dispatch is appended to the base by a load within twelve hours |
| SavedPaths.NewSavedPath | Sources/BonnetAlternator/Helpers/Model/SavedPath.swift:14-17 | a new saved path keeps the path unchanged and is dated now |
| SavedPaths.ElapsedHours | Sources/BonnetAlternator/Helpers/Model/SavedPath.swift:21 | the hour component is the whole hours elapsed, truncated toward zero: h hours cover [3600h, 3600(h+1)) seconds forwards and (3600(h-1), 3600h] backwards |
| SavedPaths.CanBeUsed | Sources/BonnetAlternator/Helpers/Model/SavedPath.swift:19-28 | with whole hours truncated, a path is usable exactly while less than 12 hours (43200 s) have passed since its date, a future date included |
| SavedPaths.FreshPathUsable | Sources/BonnetAlternator/Helpers/Model/SavedPath.swift:19-25 | a path dated now, or in the future, is usable |
| SavedPaths.TwelveHourBoundary | Sources/BonnetAlternator/Helpers/Model/SavedPath.swift:19-28 | 11 h 59 min after its date a path is usable; at 12 h and at 13 h it is not |
| SavedPaths.SavedPathRoundTrip | Sources/BonnetAlternator/Helpers/Model/SavedPath.swift:10-12 | a saved path decodes back unchanged from its JSON value |
| SavedPaths.DecodeSavedPath | Sources/BonnetAlternator/Helpers/Model/SavedPath.swift:10-12 | null is value-not-found, any other non-object a type mismatch, a missing `path` key-not-found and a null `path` value-not-found; a decoded path and date are exactly the string and number found |
| Defaults.KeyNamesDistinct | Sources/BonnetAlternator/Helpers/UsersDefaultHelper.swift:16-21 | the four storage keys have pairwise distinct raw strings |
| Defaults.StringAt | Sources/BonnetAlternator/Helpers/UsersDefaultHelper.swift:29-31 | a string is read only where a string is stored |
| Defaults.DecodedAt | Sources/BonnetAlternator/Helpers/UsersDefaultHelper.swift:45-53 | an object is returned only where `Data`, not a string, is stored under the key |
| Defaults.SetAt | Sources/BonnetAlternator/Helpers/UsersDefaultHelper.swift:36-42 | a successful encoding is stored as data under the key; a failed one leaves the store unchanged |
| Defaults.UsersDefaultHelper.Save | Sources/BonnetAlternator/Helpers/UsersDefaultHelper.swift:25-27 | the string is stored under the key, nothing else changes |
| Defaults.UsersDefaultHelper.GetString | Sources/BonnetAlternator/Helpers/UsersDefaultHelper.swift:29-31 | reads the string stored under the key |
| Defaults.UsersDefaultHelper.Set | Sources/BonnetAlternator/Helpers/UsersDefaultHelper.swift:36-42 | the store is updated as `SetAt` says |
| Defaults.UsersDefaultHelper.Get | Sources/BonnetAlternator/Helpers/UsersDefaultHelper.swift:45-53 | reads the object decoded from the data stored under the key |
| Defaults.UsersDefaultHelper.RemoveObject | Sources/BonnetAlternator/Helpers/UsersDefaultHelper.swift:56-59 | only the entry under the key is removed |
| Defaults.GetStringAfterSave | Sources/BonnetAlternator/Helpers/UsersDefaultHelper.swift:25-31 | `getString` after `save` returns the saved string |
| Defaults.GetAfterSet | Sources/BonnetAlternator/Helpers/UsersDefaultHelper.swift:36-53 | `get` after `set` returns the object when encoding succeeded and the value reads back and decodes |
| Defaults.GetAfterRemoveOrSave | Sources/BonnetAlternator/Helpers/UsersDefaultHelper.swift:45-59 | `get` returns nil after `removeObject` and where `save` stored a string |
| Defaults.OtherKeysUnchanged | Sources/BonnetAlternator/Helpers/UsersDefaultHelper.swift:25-59 | writing or removing one key leaves what every other key reads unchanged |
| Environments.EnvironmentIn | Sources/BonnetAlternator/BonnetAlternator.swift:17-22 | with no stored environment, or an unrecognised one, the environment is production |
| Environments.EnvironmentFromStored | Sources/BonnetAlternator/BonnetAlternator.swift:18-21 | a stored string that is a raw value selects that environment; any other selects production |
| Environments.SetEnvironment | Sources/BonnetAlternator/BonnetAlternator.swift:11-14 | the raw value is saved under the environment key |
| Environments.ActiveEnvironment | Sources/BonnetAlternator/BonnetAlternator.swift:17-22 | the active environment is the one the store selects |
| Environments.ActiveAfterSet | Sources/BonnetAlternator/BonnetAlternator.swift:11-22 | after `setEnvironment(e)` the active environment is `e` |
| Networking.CheckHTTPStatus | Sources/BonnetAlternator/Networking/HTTPNetworkClient.swift:70-97 | 200–299 returns the data; 400–500 throws the UTF-8 body or the default message; any other status, no response or a non-HTTP response throws the default message |
| Networking.Retrying | Sources/BonnetAlternator/Networking/HTTPNetworkClient.swift:104-126 | at most maxRetryCount+1 attempts; the first success is returned; every earlier attempt failed; a failure is the last attempt's error |
| Networking.PreloadBody | Sources/BonnetAlternator/Networking/HTTPNetworkClient.swift:44-48 | the body has platform "ios" and the token, and `app_id` exactly when a bundle identifier exists |
| Networking.PreloadResult | Sources/BonnetAlternator/Networking/HTTPNetworkClient.swift:51-60 | transport and status errors propagate; a success comes only from a 2xx response whose data decodes as UTF-8, and is that text |
| Networking.PreloadUserProfile | Sources/BonnetAlternator/Networking/HTTPNetworkClient.swift:32-68 | an invalid profile URL throws the unavailable message with no request; otherwise at most three requests (two retries) are made and their outcome decides the result |
| Networking.PreloadOutcomes | Sources/BonnetAlternator/Networking/HTTPNetworkClient.swift:53-95 | a 2xx response without UTF-8 data, a 3xx or a 501+ status ends in the default message; a 400–500 body is passed on as the message |
| Location.StartDecision | Sources/BonnetAlternator/Helpers/UserLocationService.swift:48-71 | the first failing check wins (not enabled, then denied or restricted, then not determined); updates start exactly when enabled and authorized |
| Location.StartRequests | Sources/BonnetAlternator/Helpers/UserLocationService.swift:48-71 | updates are started exactly on the success path; always-authorization is requested exactly when the status is not determined |
| Location.EnabledFor | Sources/BonnetAlternator/Helpers/UserLocationService.swift:117 | the service is enabled exactly when the status is neither denied nor restricted |
| Location.NextCoordinate | Sources/BonnetAlternator/Helpers/UserLocationService.swift:97-113 | an empty list changes nothing; the first fix is stored; a later fix replaces the coordinate only when more than 5 away |
| Location.UserLocationService.constructor | Sources/BonnetAlternator/Helpers/UserLocationService.swift:15-29 | no coordinate and not enabled at the start |
| Location.UserLocationService.AskUserPermissionForWhenInUseAuthorizationIfNeeded | Sources/BonnetAlternator/Helpers/UserLocationService.swift:41-43 | requests when-in-use authorization, nothing else |
| Location.UserLocationService.StartUpdatingLocation | Sources/BonnetAlternator/Helpers/UserLocationService.swift:47-71 | returns the decision of the check chain and makes the requests it calls for |
| Location.UserLocationService.DidChangeAuthorizationStatus | Sources/BonnetAlternator/Helpers/UserLocationService.swift:73-92 | only the authorized statuses go on to start updates |
| Location.UserLocationService.DidChangeAuthorization | Sources/BonnetAlternator/Helpers/UserLocationService.swift:116-119 | the status is taken over, enabled exactly when neither denied nor restricted, and updates start exactly for the authorized statuses |
| Location.UserLocationService.DidUpdateLocations | Sources/BonnetAlternator/Helpers/UserLocationService.swift:97-113 | the coordinate becomes the filtered one, nothing else changes |
| Location.AuthorizationChangeStarts | Sources/BonnetAlternator/Helpers/UserLocationService.swift:73-119 | an authorized status, which also enables the service, always passes the decision chain |
| Location.SmallMovesIgnored | Sources/BonnetAlternator/Helpers/UserLocationService.swift:100-106 | any series of fixes no further than 5 from the held coordinate leaves it unchanged |
| Location.Replay | Sources/BonnetAlternator/Helpers/UserLocationService.swift:97-113 | over any series of updates, once a coordinate is held one is always held, and the coordinate held is the earlier one or the last fix of some batch |
| Logging.LogService.AddLog | Sources/BonnetAlternator/Helpers/LogViewModifier/LogService.swift:34-38 | appends exactly one entry numbered with the old count, and keeps ids equal to positions |
| Logging.LogService.RemoveLastLog | Sources/BonnetAlternator/Helpers/LogViewModifier/LogService.swift:40-42 | on a non-empty list drops only the last entry, keeping ids equal to positions |
| Logging.LogService.Clear | Sources/BonnetAlternator/Helpers/LogViewModifier/LogService.swift:44-46 | leaves the list empty |
| Logging.Added | Sources/BonnetAlternator/Helpers/LogViewModifier/LogService.swift:34-38 | a series of additions yields one entry per text, in order, with ids equal to positions |
| Logging.AddThenRemove | Sources/BonnetAlternator/Helpers/LogViewModifier/LogService.swift:34-42 | removing the last entry after adding one restores the list |
| Logging.AppendKeepsIds | Sources/BonnetAlternator/Helpers/LogViewModifier/LogService.swift:34-38 | appending numbered by the old count keeps ids equal to positions |

## Left out

- BFSecurity key generation, key agreement and the cipher are foreign. They are function values with no further laws, so the model cannot say that decryption inverts encryption.
- BFSecurity is assumed to hold no key state of its own: the public key is a constant of the security service and derivation depends only on the page's key. A service that rotated its key pair or kept state between calls is not modelled.
- The byte layer of JSONEncoder/JSONDecoder (`toString()`, `decode(_:from:)`) and `JSONSerialization` of the preload body are foreign. The model works on JSON values; the request body is a string map.
- `Data` is modelled as its UTF-8 text in the store and on the script channel, so `body.data(using: .utf8)` cannot fail. HTTP bodies are bytes with a foreign UTF-8 decoder.
- Swift's `Task`, `MainActor` and `DispatchQueue.main.async` are not modelled. Every handler runs to completion in order, and the deferred keyboard-flag updates apply at once.
- A message that arrives while another is still suspended at a token request is not modelled.
- In `Task.retrying`, the sleeps, the retry delay, its priority and the cancellation check are not modelled. A negative `maxRetryCount`, which traps in Swift, is excluded by the `nat` type.
- URLSession, request headers and the request timeout are left out. Each attempt's outcome is an input.
- The environment's `profileURL` is not defined in `AlternatorEnvironment.swift`. Whether it parses is an input of `PreloadUserProfile`.
- The WKWebView machinery is recorded as effects: script-handler registration and the console-capturing user script in `addListeners`, `evaluateJavaScript`, and `webView.load`. `UIApplication.open`, `canOpenURL`, `URL(string:)` and `MKMapItem` are foreign too. Only the handler-set flag, the script, the loaded URL and the launch are kept.
- The decision about the handshake reply is kept, but delivery through `messagingDelegate` is simplified. `EstablishHandShake` returns the escaped reply, and the web service injects it after the derivation instead of before. Derivation has no effect of its own, so the recorded effects are the same.
- `debugPrint` logging, the log-channel text and `LogService`'s colour and date are left out.
- The SwiftUI/UIKit presentation is left out: views, toasts as drawn, bottom sheet, spinner, keyboard modifier and logo sizes. So is the Combine debouncer.
- `Double` values and JSON numbers are reals. Integer filter fields are 64-bit integers. Geodesic distance is a foreign function.
- `Calendar`'s hour component is modelled as truncation toward zero of the elapsed seconds over 3600. Daylight-saving changes and time zones are not modelled.
- `UserDefaults.string(forKey:)` also converts stored numbers to strings. That is not modelled, because `save` only ever receives strings here. `synchronize()` is left out.
- `error.message` and `localizedDescription` are both a foreign `describe` function.
- `@unknown default` authorization statuses are left out.
- Deallocation of the view model (the `[weak self]` guards) is left out.
- SecureChannel.SecuredCommunicationService.EstablishHandShake: states the outcome for the web service as the delegate. With no messaging delegate, the Swift code sends nothing and still derives the secret; this case is not modelled.
- Text.JsStringValue: legacy octal escapes (`\1` to `\7`, `\8`, `\9`, which sloppy-mode scripts accept), `\u{…}` code-point escapes and lone surrogates are read as invalid. Characters are Unicode scalar values, not UTF-16 code units. The corrected escaping produces none of these; the code's escaping passes them through when the message holds them, and what the model proves about it rests only on the single escapes.
- SecureChannel.HandshakeReplyReadable: states that the page reads the quote-escaped reply back only for JSON text without backslashes or line breaks, because the code's escaping does not keep other text (see "Findings"); `Text.EscapeAltersFirstBackslashEscape` states the other side.
- WebBridge.PostContent: for the cleartext fallback it states what the page reads when the formatted message has no backslash or line break, and that it reads something else when the first backslash starts a single escape other than `\\`; a message whose first backslash is `\\` or starts a `\x`, `\u` or line-continuation escape is read as some text the model does not pin down.

## Findings

| source | as written | input that shows it | evidently intended | confidence | as-written member | corrected member |
|---|---|---|---|---|---|---|
| Sources/BonnetAlternator/Domain/WebService.swift:57 | the cleartext sent by `post` escapes only `'` before it is embedded in the single-quoted literal of `window.postMessage('…')`; backslashes and line breaks pass unescaped | a message whose JSON text holds `\"`, such as `{"value":"a\"b"}`: the page reads `{"value":"a"b"}`, which is no longer that JSON (likewise `\\` becomes `\`, `\n` a line break) | escape `\`, `'`, LF and CR so the page receives the formatted message unchanged | high that the text changes on the way; not executed | Text.Escape, Text.EscapeAltersFirstBackslashEscape, WebBridge.PostContent | Text.ScriptEscape, Text.ScriptEscapeReadsBack, WebBridge.PostContentCorrected |
| Sources/BonnetAlternator/Domain/SecuredCommunicationService.swift:45 | the handshake reply, JSON text from JSONEncoder, is escaped only for `'` before injection | stored filters whose `firebase_uid` holds a `"`: JSONEncoder writes `\"`, and the page reads a bare `"` inside the JSON string | the page reads exactly the JSON text written | high that the text changes on the way; not executed | Text.Escape, Text.EscapeAltersFirstBackslashEscape, SecureChannel.HandshakeReplyReadable | Text.ScriptEscape, SecureChannel.HandshakeReplyReadableCorrected |

The bridge in this model sends every message, handshake reply included, with the code's quote-only escaping, `Text.Escape`, as `post` and `establishHandShake` do. The corrected half stands beside the operations: `Text.ScriptEscape`, `WebBridge.PostContentCorrected` and `SecureChannel.HandshakeReplyReadableCorrected`. `Text.EscapeAgreesWithoutBackslash` shows that the two escapings agree on every message without backslashes or line breaks, and `WebBridge.PostContentCorrected` that the two contents are then equal.
