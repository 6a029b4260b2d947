/**
 * `UserLocationService`: the authorization decision chain before location
 * updates start, and the filter that keeps the first fix and then only fixes
 * more than five metres away. The location manager is foreign: its status is a
 * field the platform sets, and the requests made of it are logged.
 */
module Location {
  import opened Wrappers

  /** `CLLocationCoordinate2D`, degrees as reals. */
  datatype Coordinate = Coordinate(latitude: real, longitude: real)

  /** `CLAuthorizationStatus` */
  datatype AuthorizationStatus = NotDetermined | Restricted | Denied | AuthorizedAlways | AuthorizedWhenInUse

  /** `UserLocationError` */
  datatype LocationError = NotEnabled | NeedAskUserPermission | UserDidNotAllowed

  /** A request made of the `CLLocationManager`. */
  datatype ManagerRequest = RequestWhenInUseAuthorization | RequestAlwaysAuthorization | StartUpdating

  predicate Authorized(s: AuthorizationStatus)
  {
    s == AuthorizedAlways || s == AuthorizedWhenInUse
  }

  /** The outcome of `startUpdatingLocation()`: the first failing check, or none when updates start. */
  function StartDecision(isEnabled: bool, status: AuthorizationStatus): (r: Option<LocationError>)
    ensures r.None? <==> isEnabled && Authorized(status)
    ensures !isEnabled ==> r == Some(NotEnabled)
    ensures isEnabled && (status == Denied || status == Restricted) ==> r == Some(UserDidNotAllowed)
    ensures isEnabled && status == NotDetermined ==> r == Some(NeedAskUserPermission)
  {
    if !isEnabled then Some(NotEnabled)
    else if status == Denied || status == Restricted then Some(UserDidNotAllowed)
    else if status == NotDetermined then Some(NeedAskUserPermission)
    else None
  }

  /** The requests `startUpdatingLocation()` makes of the manager. */
  function StartRequests(isEnabled: bool, status: AuthorizationStatus): (r: seq<ManagerRequest>)
    ensures r == [StartUpdating] <==> StartDecision(isEnabled, status).None?
    ensures r == [RequestAlwaysAuthorization] <==> StartDecision(isEnabled, status) == Some(NeedAskUserPermission)
    ensures r == [] <==> StartDecision(isEnabled, status) in {Some(NotEnabled), Some(UserDidNotAllowed)}
  {
    match StartDecision(isEnabled, status)
    case None => [StartUpdating]
    case Some(NeedAskUserPermission) => [RequestAlwaysAuthorization]
    case Some(_) => []
  }

  /** `isEnabled` after an authorization change */
  function EnabledFor(status: AuthorizationStatus): (r: bool)
    ensures r <==> status != Denied && status != Restricted
  {
    status != Denied && status != Restricted
  }

  /**
   * The coordinate after `didUpdateLocations`: the last fix is taken when there
   * was none yet, or when it lies more than 5 (metres) from the current one.
   */
  function NextCoordinate(current: Option<Coordinate>, locations: seq<Coordinate>,
                          distance: (Coordinate, Coordinate) -> real): (r: Option<Coordinate>)
    ensures locations == [] ==> r == current
    ensures locations != [] && current.None? ==> r == Some(locations[|locations| - 1])
    ensures locations != [] && current.Some? ==>
              (r == Some(locations[|locations| - 1]) && distance(current.value, locations[|locations| - 1]) > 5.0) ||
              (r == current && distance(current.value, locations[|locations| - 1]) <= 5.0)
  {
    if locations == [] then current
    else
      var fix := locations[|locations| - 1];
      if current.None? then Some(fix)
      else if distance(current.value, fix) > 5.0 then Some(fix)
      else current
  }

  class UserLocationService {
    var currentCoordinate: Option<Coordinate>
    var isEnabled: bool
    /** `locationManager.authorizationStatus`, as the platform last reported it */
    var authorizationStatus: AuthorizationStatus
    /** The requests made of the location manager so far */
    var requests: seq<ManagerRequest>

    constructor (status: AuthorizationStatus)
      ensures currentCoordinate.None? && !isEnabled && authorizationStatus == status && requests == []
    {
      currentCoordinate := None;
      isEnabled := false;
      authorizationStatus := status;
      requests := [];
    }

    /** `askUserPermissionForWhenInUseAuthorizationIfNeeded()` */
    method AskUserPermissionForWhenInUseAuthorizationIfNeeded()
      modifies this
      ensures requests == old(requests) + [RequestWhenInUseAuthorization]
      ensures currentCoordinate == old(currentCoordinate) && isEnabled == old(isEnabled)
      ensures authorizationStatus == old(authorizationStatus)
    {
      requests := requests + [RequestWhenInUseAuthorization];
    }

    /** `startUpdatingLocation()` */
    method StartUpdatingLocation() returns (error: Option<LocationError>)
      modifies this
      ensures error == StartDecision(isEnabled, authorizationStatus)
      ensures requests == old(requests) + StartRequests(isEnabled, authorizationStatus)
      ensures currentCoordinate == old(currentCoordinate) && isEnabled == old(isEnabled)
      ensures authorizationStatus == old(authorizationStatus)
    {
      if !isEnabled {
        return Some(NotEnabled);
      }
      var status := authorizationStatus;
      if status == Denied || status == Restricted {
        return Some(UserDidNotAllowed);
      }
      if status == NotDetermined {
        requests := requests + [RequestAlwaysAuthorization];
        return Some(NeedAskUserPermission);
      }
      requests := requests + [StartUpdating];
      return None;
    }

    /** `locationManagerDidChangeAuthorizationStatus(_:status:)`: only the authorized statuses start updates. */
    method DidChangeAuthorizationStatus(status: AuthorizationStatus)
      modifies this
      ensures requests == old(requests) + (if Authorized(status) then StartRequests(isEnabled, authorizationStatus) else [])
      ensures currentCoordinate == old(currentCoordinate) && isEnabled == old(isEnabled)
      ensures authorizationStatus == old(authorizationStatus)
    {
      if Authorized(status) {
        var _ := StartUpdatingLocation();
      }
    }

    /** `locationManagerDidChangeAuthorization(_:)`, the platform having moved the status to `status`. */
    method DidChangeAuthorization(status: AuthorizationStatus)
      modifies this
      ensures authorizationStatus == status && isEnabled == EnabledFor(status)
      ensures requests == old(requests) + (if Authorized(status) then [StartUpdating] else [])
      ensures currentCoordinate == old(currentCoordinate)
    {
      authorizationStatus := status;
      isEnabled := authorizationStatus != Denied && authorizationStatus != Restricted;
      DidChangeAuthorizationStatus(authorizationStatus);
    }

    /** `locationManager(_:didUpdateLocations:)`, with the geodesic distance as a parameter. */
    method DidUpdateLocations(locations: seq<Coordinate>, distance: (Coordinate, Coordinate) -> real)
      modifies this
      ensures currentCoordinate == NextCoordinate(old(currentCoordinate), locations, distance)
      ensures isEnabled == old(isEnabled) && authorizationStatus == old(authorizationStatus) && requests == old(requests)
    {
      if locations != [] {
        var locationCoordinate := locations[|locations| - 1];
        if currentCoordinate.Some? {
          var d := distance(currentCoordinate.value, locationCoordinate);
          if d > 5.0 {
            currentCoordinate := Some(locationCoordinate);
          }
        } else {
          currentCoordinate := Some(locationCoordinate);
        }
      }
    }
  }

  /**
   * An authorization change starts updates exactly for the authorized statuses:
   * they also enable the service, so the decision chain lets them through.
   */
  lemma AuthorizationChangeStarts(status: AuthorizationStatus)
    ensures (if Authorized(status) then StartRequests(EnabledFor(status), status) else []) ==
            (if Authorized(status) then [StartUpdating] else [])
    ensures Authorized(status) ==> StartDecision(EnabledFor(status), status).None?
  {
  }

  /** A fix no further than 5 from the current one is ignored, however many such fixes arrive. */
  lemma {:induction false} SmallMovesIgnored(c: Coordinate, fixes: seq<seq<Coordinate>>, distance: (Coordinate, Coordinate) -> real)
    requires forall i :: 0 <= i < |fixes| && fixes[i] != [] ==> distance(c, fixes[i][|fixes[i]| - 1]) <= 5.0
    ensures Replay(Some(c), fixes, distance) == Some(c)
    decreases |fixes|
  {
    if fixes != [] {
      assert NextCoordinate(Some(c), fixes[0], distance) == Some(c);
      SmallMovesIgnored(c, fixes[1..], distance);
    }
  }

  /**
   * The coordinate after a series of `didUpdateLocations` calls: once a fix is
   * held some coordinate is always held, and the coordinate held is the one
   * held before or the last fix of one of the batches.
   */
  function Replay(current: Option<Coordinate>, fixes: seq<seq<Coordinate>>, distance: (Coordinate, Coordinate) -> real)
    : (r: Option<Coordinate>)
    ensures current.Some? ==> r.Some?
    ensures r == current || exists i :: 0 <= i < |fixes| && fixes[i] != [] && r == Some(fixes[i][|fixes[i]| - 1])
    decreases |fixes|
  {
    if fixes == [] then current
    else
      var r := Replay(NextCoordinate(current, fixes[0], distance), fixes[1..], distance);
      assert forall i :: 1 <= i < |fixes| ==> fixes[1..][i - 1] == fixes[i];
      r
  }
}
