/**
 * `AlternatorViewModel`: the screen state the bridge's handler calls update
 * (loader, keyboard and intercom flags), the URL and map launches it decides
 * on, the page load with the one-shot saved path, the staging-only toasts and
 * the gating of location updates on a completed connection.
 */
module ViewModel {
  import opened Wrappers
  import opened Foundation
  import opened ResponseModel
  import Text
  import Defaults
  import SavedPaths
  import Environments
  import SecureChannel
  import WebBridge
  import Location

  const BaseUrl := "https://test.alternator.bonnetapps.com"
  const LocationDetailsMarker := "/locations/"
  const TestBrowserUrl := "https://www.google.co.uk/"

  /** A hand-off to another app: `UIApplication.open(_:)` or `MKMapItem.openInMaps`. */
  datatype Launch = UrlLaunch(url: string) | MapsLaunch(latitude: real, longitude: real, name: Option<string>)

  /** Platform checks on a URL string: `URL(string:)` accepts it, `canOpenURL` says it can be opened. */
  datatype Device = Device(parsesAsUrl: string -> bool, canOpenUrl: string -> bool)

  datatype ToastStyle = ErrorToast | WarningToast | SuccessToast | InfoToast
  datatype ToastPosition = Bottom | Top
  datatype Toast = Toast(style: ToastStyle, message: string, duration: real, position: ToastPosition)

  /** The published state of the view model, and the launches it made. */
  datatype Screen = Screen(
    toast: Option<Toast>,
    sendMessageDisable: bool,
    isLoading: bool,
    allowKeyboardChanges: bool,
    isIntercomOpen: bool,
    launches: seq<Launch>)

  /** The state of a freshly built view model. */
  function InitialScreen(): (s: Screen)
    ensures s.toast.None? && s.sendMessageDisable && s.isLoading && s.allowKeyboardChanges && !s.isIntercomOpen
    ensures s.launches == []
  {
    Screen(None, true, true, true, false, [])
  }

  /** Whether a browser request may be opened: a value that is a URL the device can open. */
  predicate Openable(response: Envelope, device: Device)
  {
    response.data.Some? && response.data.value.value.Some? &&
    device.parsesAsUrl(response.data.value.value.value) && device.canOpenUrl(response.data.value.value.value)
  }

  /**
   * `didReceive(_:)` of the message handler, given the saved path in the store.
   * The toast, the send and loading flags are never touched; at most one app
   * is launched, and only for BROWSER or NAVIGATE; the intercom flag follows
   * INTERCOM only, the keyboard flag INTERCOM and PATH only.
   */
  function AfterDidReceive(s: Screen, response: Envelope, device: Device, savedPath: Option<SavedPaths.SavedPath>): (r: Screen)
    ensures r.toast == s.toast && r.sendMessageDisable == s.sendMessageDisable && r.isLoading == s.isLoading
    ensures s.launches <= r.launches && |r.launches| <= |s.launches| + 1
    ensures |r.launches| > |s.launches| ==> response.msgType == Some(Browser) || response.msgType == Some(Navigate)
    ensures r.isIntercomOpen != s.isIntercomOpen ==> response.msgType == Some(Intercom)
    ensures r.allowKeyboardChanges != s.allowKeyboardChanges ==>
              response.msgType == Some(Intercom) || response.msgType == Some(Path)
  {
    if response.msgType == Some(Browser) then
      if Openable(response, device) then s.(launches := s.launches + [UrlLaunch(response.data.value.value.value)]) else s
    else if response.msgType == Some(Intercom) && response.data.Some? && response.data.value.setting.Some? then
      s.(isIntercomOpen := response.data.value.setting.value, allowKeyboardChanges := !response.data.value.setting.value)
    else if response.msgType == Some(Navigate) && response.data.Some? &&
            response.data.value.latitude.Some? && response.data.value.longitude.Some? then
      s.(launches := s.launches + [MapsLaunch(response.data.value.latitude.value, response.data.value.longitude.value,
                                            response.data.value.operator)])
    else if response.msgType == Some(Path) && savedPath.Some? then
      s.(allowKeyboardChanges := !Text.Contains(savedPath.value.path, LocationDetailsMarker))
    else s
  }

  /**
   * The older `didReceive(_:)`: nothing without a value; BROWSER opens, INTERCOM
   * only toggles the keyboard flag. The toast, the send, loading and intercom
   * flags are never touched; at most one app is launched, and only for BROWSER.
   */
  function AfterDidReceiveEarlier(s: Screen, response: Envelope, device: Device): (r: Screen)
    ensures r.toast == s.toast && r.sendMessageDisable == s.sendMessageDisable && r.isLoading == s.isLoading
    ensures r.isIntercomOpen == s.isIntercomOpen
    ensures s.launches <= r.launches && |r.launches| <= |s.launches| + 1
    ensures |r.launches| > |s.launches| ==> response.msgType == Some(Browser)
    ensures r.allowKeyboardChanges != s.allowKeyboardChanges ==> response.msgType == Some(Intercom)
    ensures response.data.None? || response.data.value.value.None? ==> r == s
  {
    if response.data.None? || response.data.value.value.None? then s
    else if response.msgType == Some(Browser) then
      if Openable(response, device) then s.(launches := s.launches + [UrlLaunch(response.data.value.value.value)]) else s
    else if response.msgType == Some(Intercom) && response.data.value.setting.Some? then
      s.(allowKeyboardChanges := !response.data.value.setting.value)
    else s
  }

  /**
   * A handler call of the bridge, as the view model answers it: an error
   * report changes nothing, only a loader update moves the loading flag, and
   * at most one app is launched.
   */
  function AfterHandlerCall(s: Screen, call: WebBridge.HandlerCall, device: Device,
                            savedPath: Option<SavedPaths.SavedPath>): (r: Screen)
    ensures call.ReportedError? ==> r == s
    ensures call.UpdateLoader? ==> r == s.(isLoading := call.loading)
    ensures r.toast == s.toast && r.sendMessageDisable == s.sendMessageDisable
    ensures !call.UpdateLoader? ==> r.isLoading == s.isLoading
    ensures s.launches <= r.launches && |r.launches| <= |s.launches| + 1
  {
    match call
    case DidReceive(response) => AfterDidReceive(s, response, device, savedPath)
    case UpdateLoader(loading) => s.(isLoading := loading)
    case ReportedError(_) => s
  }

  /** The page `loadUrl` asks for: the base, followed by the saved path when it is still usable. */
  function LoadTarget(savedPath: Option<SavedPaths.SavedPath>, now: real): (url: string)
    ensures savedPath.Some? && SavedPaths.CanBeUsed(savedPath.value, now) ==> url == BaseUrl + savedPath.value.path
    ensures savedPath.None? || !SavedPaths.CanBeUsed(savedPath.value, now) ==> url == BaseUrl
  {
    if savedPath.Some? && SavedPaths.CanBeUsed(savedPath.value, now) then BaseUrl + savedPath.value.path else BaseUrl
  }

  /** The USER_LOCATION envelope `updateLocation(with:)` sends. */
  function LocationEnvelope(c: Location.Coordinate, bundleIdentifier: Option<string>): (e: Envelope)
    ensures e.msgType == Some(UserLocation) && e.platform == Some(Ios) && e.data.Some?
    ensures e.data.value.latitude == Some(c.latitude) && e.data.value.longitude == Some(c.longitude)
    ensures e.data.value.key.None? && e.data.value.jwt.None? && e.data.value.value.None?
    ensures e.data.value.appId == bundleIdentifier
  {
    NewEnvelope(UserLocation, NewData(bundleIdentifier).(latitude := Some(c.latitude), longitude := Some(c.longitude)))
  }

  class AlternatorViewModel {
    var toast: Option<Toast>
    var sendMessageDisable: bool
    var isLoading: bool
    var allowKeyboardChanges: bool
    var isIntercomOpen: bool
    var launches: seq<Launch>
    /** The URLs handed to `webView.load` */
    var loadedUrls: seq<string>

    const environment: Environments.AlternatorEnvironment
    const device: Device
    const webService: WebBridge.WebService
    const userLocationService: Location.UserLocationService
    const userDefaultHelper: Defaults.UsersDefaultHelper

    /**
     * `init(tokenDelegate:)`: a bridge over the shared session and store, the
     * environment read from the store, and `addListeners()`, which sets the
     * bridge's connection-completed closure.
     */
    constructor (hasTokenDelegate: bool, device: Device, communicationService: SecureChannel.SecuredCommunicationService,
                 userDefaultHelper: Defaults.UsersDefaultHelper, locationStatus: Location.AuthorizationStatus)
      ensures Current() == InitialScreen() && loadedUrls == []
      ensures environment == Environments.EnvironmentIn(userDefaultHelper.defaults)
      ensures this.device == device && this.userDefaultHelper == userDefaultHelper
      ensures fresh(webService) && fresh(userLocationService)
      ensures webService.communicationService == communicationService && webService.userDefaultsHelper == userDefaultHelper
      ensures webService.tokenDelegateSet == hasTokenDelegate && webService.connectionCompletedSet
      ensures !webService.messageHandlerSet && webService.effects == []
      ensures !userLocationService.isEnabled && userLocationService.currentCoordinate.None?
      ensures userLocationService.requests == []
    {
      toast := None;
      sendMessageDisable := true;
      isLoading := true;
      allowKeyboardChanges := true;
      isIntercomOpen := false;
      launches := [];
      loadedUrls := [];
      this.device := device;
      this.userDefaultHelper := userDefaultHelper;
      var ws := new WebBridge.WebService(communicationService, userDefaultHelper);
      webService := ws;
      userLocationService := new Location.UserLocationService(locationStatus);
      var envString := userDefaultHelper.GetString(Defaults.Environment);
      if envString.Some? && Environments.EnvironmentFromRawValue(envString.value).Some? {
        environment := Environments.EnvironmentFromRawValue(envString.value).value;
      } else {
        environment := Environments.Production;
      }
      new;
      ws.tokenDelegateSet := hasTokenDelegate;
      ws.connectionCompletedSet := true;
    }

    function Current(): Screen
      reads this
    {
      Screen(toast, sendMessageDisable, isLoading, allowKeyboardChanges, isIntercomOpen, launches)
    }

    /** The `savedPath` property: the saved path in the store, if one decodes. */
    function SavedPath(): (p: Option<SavedPaths.SavedPath>)
      reads this, userDefaultHelper
      ensures p == Defaults.DecodedAt(userDefaultHelper.defaults, Defaults.UserAlternatorPath,
                                      webService.communicationService.host.json, SavedPaths.DecodeSavedPath)
    {
      userDefaultHelper.Get(Defaults.UserAlternatorPath, webService.communicationService.host.json, SavedPaths.DecodeSavedPath)
    }

    /** `didReceive(_:)` (the message-handler extension in use) */
    method DidReceive(response: Envelope)
      modifies this
      ensures Current() == AfterDidReceive(old(Current()), response, device, SavedPath())
      ensures loadedUrls == old(loadedUrls)
    {
      if response.msgType == Some(Browser) {
        if response.data.None? || response.data.value.value.None? {
          return;
        }
        var message := response.data.value.value.value;
        if !(device.parsesAsUrl(message) && device.canOpenUrl(message)) {
          return;
        }
        launches := launches + [UrlLaunch(message)];
        return;
      }
      if response.msgType == Some(Intercom) && response.data.Some? && response.data.value.setting.Some? {
        var open := response.data.value.setting.value;
        isIntercomOpen := open;
        allowKeyboardChanges := !open;
        return;
      }
      if response.msgType == Some(Navigate) && response.data.Some? &&
         response.data.value.latitude.Some? && response.data.value.longitude.Some? {
        OpenMaps(Location.Coordinate(response.data.value.latitude.value, response.data.value.longitude.value),
                 response.data.value.operator);
        return;
      }
      var savedPath := SavedPath();
      if response.msgType == Some(Path) && savedPath.Some? {
        var isLocationDetails := Text.Contains(savedPath.value.path, LocationDetailsMarker);
        allowKeyboardChanges := !isLocationDetails;
      }
    }

    /** `openMaps(with:name:)` */
    method OpenMaps(coordinate: Location.Coordinate, name: Option<string>)
      modifies this
      ensures Current() == old(Current()).(launches := old(launches) + [MapsLaunch(coordinate.latitude, coordinate.longitude, name)])
      ensures loadedUrls == old(loadedUrls)
    {
      launches := launches + [MapsLaunch(coordinate.latitude, coordinate.longitude, name)];
    }

    /** The older `didReceive(_:)` of `AlternatorViewModel.swift` */
    method DidReceiveEarlier(response: Envelope)
      modifies this
      ensures Current() == AfterDidReceiveEarlier(old(Current()), response, device)
      ensures loadedUrls == old(loadedUrls)
    {
      if response.data.None? || response.data.value.value.None? {
        return;
      }
      var message := response.data.value.value.value;
      if response.msgType == Some(Browser) {
        if !(device.parsesAsUrl(message) && device.canOpenUrl(message)) {
          return;
        }
        launches := launches + [UrlLaunch(message)];
        return;
      }
      if response.msgType == Some(Intercom) && response.data.value.setting.Some? {
        var isOpen := response.data.value.setting.value;
        allowKeyboardChanges := !isOpen;
      }
    }

    /** `updateLoader(_:)` */
    method UpdateLoader(loading: bool)
      modifies this
      ensures Current() == old(Current()).(isLoading := loading)
      ensures loadedUrls == old(loadedUrls)
    {
      isLoading := loading;
    }

    /** A call on the `MessageHandler` protocol; `error(_:)` only logs. */
    method Handle(call: WebBridge.HandlerCall)
      modifies this
      ensures Current() == AfterHandlerCall(old(Current()), call, device, SavedPath())
      ensures loadedUrls == old(loadedUrls)
    {
      match call
      case DidReceive(response) => DidReceive(response);
      case UpdateLoader(loading) => UpdateLoader(loading);
      case ReportedError(_) =>
    }

    /** `loadUrl()` at time `now`: the saved path, if any, is consumed whether or not it was still usable. */
    method LoadUrl(now: real)
      modifies this, userDefaultHelper, webService
      ensures var saved := old(SavedPath());
              userDefaultHelper.defaults ==
                (if saved.Some? then old(userDefaultHelper.defaults) - {Defaults.KeyName(Defaults.UserAlternatorPath)}
                 else old(userDefaultHelper.defaults))
      ensures var target := LoadTarget(old(SavedPath()), now);
              if device.parsesAsUrl(target) then
                loadedUrls == old(loadedUrls) + [target] && webService.messageHandlerSet
              else
                loadedUrls == old(loadedUrls) && webService.messageHandlerSet == old(webService.messageHandlerSet)
      ensures webService.effects == old(webService.effects) && webService.tokenDelegateSet == old(webService.tokenDelegateSet)
      ensures webService.connectionCompletedSet == old(webService.connectionCompletedSet)
      ensures Current() == old(Current())
    {
      var updatedPath := BaseUrl;
      var savedPath := SavedPath();
      if savedPath.Some? {
        if SavedPaths.CanBeUsed(savedPath.value, now) {
          updatedPath := updatedPath + savedPath.value.path;
        }
        userDefaultHelper.RemoveObject(Defaults.UserAlternatorPath);
      }
      if !device.parsesAsUrl(updatedPath) {
        return;
      }
      loadedUrls := loadedUrls + [updatedPath];
      webService.AddListeners(true);
    }

    /** `updateToast(with:)`: toasts are shown in the staging environment only. */
    method UpdateToast(t: Toast)
      modifies this
      ensures Current() == old(Current()).(toast := if environment == Environments.Staging then Some(t) else old(toast))
      ensures loadedUrls == old(loadedUrls)
    {
      if environment != Environments.Staging {
        return;
      }
      toast := Some(t);
    }

    /** The connection-completed closure: sending is enabled and when-in-use permission is asked for. */
    method ConnectionCompleted()
      modifies this, userLocationService
      ensures Current() == old(Current()).(sendMessageDisable := false)
      ensures userLocationService.requests == old(userLocationService.requests) + [Location.RequestWhenInUseAuthorization]
      ensures userLocationService.currentCoordinate == old(userLocationService.currentCoordinate)
      ensures userLocationService.isEnabled == old(userLocationService.isEnabled)
      ensures loadedUrls == old(loadedUrls)
    {
      sendMessageDisable := false;
      userLocationService.AskUserPermissionForWhenInUseAuthorizationIfNeeded();
    }

    /** `updateLocation(with:)`: the coordinate is posted encrypted; a serialisation error is only logged. */
    method UpdateLocation(coordinate: Location.Coordinate)
      modifies webService
      ensures var host := webService.communicationService.host;
              var content := host.json.write(EncodeEnvelope(LocationEnvelope(coordinate, host.bundleIdentifier)));
              webService.Snapshot() ==
                (if content.Success?
                 then WebBridge.Posted(old(webService.Snapshot()), webService.communicationService.securityService,
                                       content.value, false, true)
                 else old(webService.Snapshot()))
    {
      var host := webService.communicationService.host;
      var content := host.json.write(EncodeEnvelope(LocationEnvelope(coordinate, host.bundleIdentifier)));
      if content.Success? {
        webService.Post(content.value, false, true);
      }
    }

    /** The `currentCoordinate` subscriber: nothing is sent for no coordinate or while sending is disabled. */
    method CoordinateChanged(newValue: Option<Location.Coordinate>)
      modifies webService
      ensures newValue.None? || sendMessageDisable ==> webService.Snapshot() == old(webService.Snapshot())
      ensures newValue.Some? && !sendMessageDisable ==>
                var host := webService.communicationService.host;
                var content := host.json.write(EncodeEnvelope(LocationEnvelope(newValue.value, host.bundleIdentifier)));
                webService.Snapshot() ==
                  (if content.Success?
                   then WebBridge.Posted(old(webService.Snapshot()), webService.communicationService.securityService,
                                         content.value, false, true)
                   else old(webService.Snapshot()))
    {
      if newValue.None? || sendMessageDisable {
        return;
      }
      UpdateLocation(newValue.value);
    }

    /** `openBrowser()`: a test BROWSER message for a fixed address. */
    method OpenBrowser()
      modifies this
      ensures var response := Envelope(Some(Browser), Some(Ios),
                                       Some(NewData(webService.communicationService.host.bundleIdentifier).(value := Some(TestBrowserUrl))));
              Current() == AfterDidReceive(old(Current()), response, device, SavedPath())
      ensures loadedUrls == old(loadedUrls)
    {
      var response := Envelope(Some(Browser), Some(Ios),
                               Some(NewData(webService.communicationService.host.bundleIdentifier).(value := Some(TestBrowserUrl))));
      DidReceive(response);
    }

    /** `requestJSToken()`, given what the token delegate would answer: the token is toasted (in staging). */
    method RequestJSToken(reply: WebBridge.TokenReply)
      modifies this
      ensures webService.tokenDelegateSet && reply.Issued? && environment == Environments.Staging ==>
                Current() == old(Current()).(toast := Some(Toast(WarningToast, "Generated token: " + reply.token, 3.0, Bottom)))
      ensures !(webService.tokenDelegateSet && reply.Issued? && environment == Environments.Staging) ==>
                Current() == old(Current())
      ensures loadedUrls == old(loadedUrls)
    {
      if !webService.tokenDelegateSet {
        return;
      }
      match reply
      case Threw(_) =>
      case Issued(token) =>
        UpdateToast(Toast(WarningToast, "Generated token: " + token, 3.0, Bottom));
    }
  }

  // Properties of the handler's state updates

  /** BROWSER opens the value exactly when it is a URL the device can open, and changes nothing else. */
  lemma BrowserOpensOnlyOpenable(s: Screen, response: Envelope, device: Device, savedPath: Option<SavedPaths.SavedPath>)
    requires response.msgType == Some(Browser)
    ensures var r := AfterDidReceive(s, response, device, savedPath);
            r.(launches := s.launches) == s &&
            (Openable(response, device) ==> r.launches == s.launches + [UrlLaunch(response.data.value.value.value)]) &&
            (!Openable(response, device) ==> r.launches == s.launches)
  {
  }

  /** INTERCOM with a setting records whether intercom is open and allows keyboard changes only while it is closed. */
  lemma IntercomSetsFlags(s: Screen, response: Envelope, device: Device, savedPath: Option<SavedPaths.SavedPath>, open: bool)
    requires response.msgType == Some(Intercom) && response.data.Some? && response.data.value.setting == Some(open)
    ensures AfterDidReceive(s, response, device, savedPath) == s.(isIntercomOpen := open, allowKeyboardChanges := !open)
  {
  }

  /** NAVIGATE launches maps only with both coordinates, named by the operator. */
  lemma NavigateNeedsBothCoordinates(s: Screen, response: Envelope, device: Device, savedPath: Option<SavedPaths.SavedPath>)
    requires response.msgType == Some(Navigate)
    ensures var r := AfterDidReceive(s, response, device, savedPath);
            if response.data.Some? && response.data.value.latitude.Some? && response.data.value.longitude.Some? then
              r == s.(launches := s.launches + [MapsLaunch(response.data.value.latitude.value,
                                                           response.data.value.longitude.value,
                                                           response.data.value.operator)])
            else r == s
  {
  }

  /**
   * PATH decides the keyboard flag from the path in the store, not from the
   * message: any two PATH messages have the same effect, and keyboard changes
   * are allowed exactly when the stored path is not a location-details page.
   */
  lemma PathUsesStoredPath(s: Screen, response: Envelope, other: Envelope, device: Device, savedPath: Option<SavedPaths.SavedPath>)
    requires response.msgType == Some(Path) && other.msgType == Some(Path)
    ensures AfterDidReceive(s, response, device, savedPath) == AfterDidReceive(s, other, device, savedPath)
    ensures savedPath.None? ==> AfterDidReceive(s, response, device, savedPath) == s
    ensures savedPath.Some? ==>
              AfterDidReceive(s, response, device, savedPath)
              == s.(allowKeyboardChanges := !Text.Contains(savedPath.value.path, LocationDetailsMarker))
  {
  }

  /** Any other type, a missing type, or a message missing the fields its type needs, leaves the screen as it was. */
  lemma OtherMessagesChangeNothing(s: Screen, response: Envelope, device: Device, savedPath: Option<SavedPaths.SavedPath>)
    requires response.msgType !in {Some(Browser), Some(Intercom), Some(Navigate), Some(Path)} ||
             (response.msgType == Some(Intercom) && (response.data.None? || response.data.value.setting.None?)) ||
             (response.msgType == Some(Navigate) &&
                (response.data.None? || response.data.value.latitude.None? || response.data.value.longitude.None?)) ||
             (response.msgType == Some(Path) && savedPath.None?)
    ensures AfterDidReceive(s, response, device, savedPath) == s
  {
  }

  /** `updateLoader(b)` sets only the loader flag; `error(_:)` changes no state. */
  lemma LoaderAndErrorCalls(s: Screen, device: Device, savedPath: Option<SavedPaths.SavedPath>, b: bool, message: string)
    ensures AfterHandlerCall(s, WebBridge.UpdateLoader(b), device, savedPath) == s.(isLoading := b)
    ensures AfterHandlerCall(s, WebBridge.ReportedError(message), device, savedPath) == s
  {
  }

  /**
   * The older variant ignores anything without a `value`, and for INTERCOM only
   * toggles the keyboard flag, never the intercom flag.
   */
  lemma EarlierVariant(s: Screen, response: Envelope, device: Device)
    ensures response.data.None? || response.data.value.value.None? ==> AfterDidReceiveEarlier(s, response, device) == s
    ensures AfterDidReceiveEarlier(s, response, device).isIntercomOpen == s.isIntercomOpen
    ensures response.msgType == Some(Intercom) && response.data.Some? && response.data.value.value.Some? &&
            response.data.value.setting.Some? ==>
              AfterDidReceiveEarlier(s, response, device) == s.(allowKeyboardChanges := !response.data.value.setting.value)
  {
  }

  /** The two variants disagree on an INTERCOM message that carries a setting but no value. */
  lemma VariantsDisagreeOnIntercomWithoutValue(device: Device)
    ensures var response := Envelope(Some(Intercom), Some(Web), Some(NewData(None).(setting := Some(true))));
            AfterDidReceive(InitialScreen(), response, device, None).allowKeyboardChanges == false &&
            AfterDidReceiveEarlier(InitialScreen(), response, device).allowKeyboardChanges == true
  {
  }

  /**
   * The saved path is consumed once: after `loadUrl` removed it, the next load
   * asks for the base alone, whatever the time.
   */
  lemma SavedPathConsumedOnce(m: Defaults.Store, text: JsonText, now: real, later: real)
    ensures var afterLoad := if Defaults.DecodedAt(m, Defaults.UserAlternatorPath, text, SavedPaths.DecodeSavedPath).Some?
                             then m - {Defaults.KeyName(Defaults.UserAlternatorPath)} else m;
            LoadTarget(Defaults.DecodedAt(afterLoad, Defaults.UserAlternatorPath, text, SavedPaths.DecodeSavedPath), later) == BaseUrl
  {
    Defaults.GetAfterRemoveOrSave(m, Defaults.UserAlternatorPath, "", text, SavedPaths.DecodeSavedPath);
  }

  /** A path saved by the bridge's PATH dispatch is loaded on the next `loadUrl` within twelve hours. */
  lemma SavedPathResumed(m: Defaults.Store, text: JsonText, path: string, now: real, later: real)
    requires text.write(SavedPaths.EncodeSavedPath(SavedPaths.NewSavedPath(path, now))).Success?
    requires ReadsBack(text, SavedPaths.EncodeSavedPath(SavedPaths.NewSavedPath(path, now)))
    requires now <= later < now + 43200.0
    ensures var stored := Defaults.SetAt(m, Defaults.UserAlternatorPath,
                                         text.write(SavedPaths.EncodeSavedPath(SavedPaths.NewSavedPath(path, now))));
            LoadTarget(Defaults.DecodedAt(stored, Defaults.UserAlternatorPath, text, SavedPaths.DecodeSavedPath), later)
            == BaseUrl + path
  {
    var p := SavedPaths.NewSavedPath(path, now);
    SavedPaths.SavedPathRoundTrip(p);
    Defaults.GetAfterSet(m, Defaults.UserAlternatorPath, p, text, SavedPaths.EncodeSavedPath, SavedPaths.DecodeSavedPath);
  }
}
