/**
 * `HTTPNetworkClient`: classification of an HTTP response by status code, the
 * bounded retry loop around a request, and the user-profile preload built on
 * them. The request itself is a foreign operation, given per attempt.
 */
module Networking {
  import opened Wrappers
  import opened Foundation

  const DefaultErrorMessage := "Sorry something went wrong. Please try again later."
  const UnavailableMessage := "Sorry the service is currently unavailable. Please try again later."
  /** `callAPI` retries twice: at most three requests. */
  const CallApiMaxRetryCount: nat := 2

  /** `URLResponse`: an HTTP response with its status code, or some other kind. */
  datatype URLResponse = HTTPURLResponse(statusCode: int) | OtherResponse

  /** `NetworkResponse`, the `(Data?, URLResponse?)` pair a request yields. */
  datatype NetworkResponse = NetworkResponse(data: Option<seq<bv8>>, response: Option<URLResponse>)

  /** `checkHTTPStatus(for:)`, with `String(bytes:encoding: .utf8)` as `utf8`. */
  function CheckHTTPStatus(r: NetworkResponse, utf8: seq<bv8> -> Option<string>): (result: Result<Option<seq<bv8>>, Error>)
    ensures result.Failure? ==> result.error.Other?
    ensures r.response.Some? && r.response.value.HTTPURLResponse? && 200 <= r.response.value.statusCode <= 299 ==>
              result == Success(r.data)
    ensures r.response.Some? && r.response.value.HTTPURLResponse? && 400 <= r.response.value.statusCode <= 500 ==>
              result == Failure(Other(if r.data.Some? && utf8(r.data.value).Some? then utf8(r.data.value).value
                                      else DefaultErrorMessage))
    ensures r.response.None? || r.response.value.OtherResponse? ||
            !(200 <= r.response.value.statusCode <= 299 || 400 <= r.response.value.statusCode <= 500) ==>
              result == Failure(Other(DefaultErrorMessage))
  {
    match r.response
    case None => Failure(Other(DefaultErrorMessage))
    case Some(OtherResponse) => Failure(Other(DefaultErrorMessage))
    case Some(HTTPURLResponse(code)) =>
      if 200 <= code <= 299 then Success(r.data)
      else if 400 <= code <= 500 then
        var message := if r.data.Some? && utf8(r.data.value).Some? then utf8(r.data.value).value else DefaultErrorMessage;
        Failure(Other(message))
      else Failure(Other(DefaultErrorMessage))
  }

  /**
   * `Task.retrying(maxRetryCount:operation:)`: `operation(i)` is the outcome of
   * attempt `i`. The first success is returned; after `maxRetryCount` failures
   * one last attempt is made and its outcome, success or error, is returned.
   */
  method Retrying<T>(maxRetryCount: nat, operation: nat -> Result<T, Error>) returns (r: Result<T, Error>, attempts: nat)
    ensures 1 <= attempts <= maxRetryCount + 1
    ensures r == operation(attempts - 1)
    ensures forall i :: 0 <= i < attempts - 1 ==> operation(i).Failure?
    ensures r.Failure? ==> attempts == maxRetryCount + 1
  {
    for i := 0 to maxRetryCount
      invariant forall j :: 0 <= j < i ==> operation(j).Failure?
    {
      var outcome := operation(i);
      if outcome.Success? {
        return outcome, i + 1;
      }
    }
    r := operation(maxRetryCount);
    attempts := maxRetryCount + 1;
  }

  /** The JSON body of the preload request. */
  function PreloadBody(token: string, bundleIdentifier: Option<string>): (body: map<string, string>)
    ensures "platform" in body && body["platform"] == "ios"
    ensures "token" in body && body["token"] == token
    ensures "app_id" in body <==> bundleIdentifier.Some?
    ensures bundleIdentifier.Some? ==> body["app_id"] == bundleIdentifier.value
    ensures body.Keys <= {"platform", "token", "app_id"}
  {
    var body := map["platform" := "ios", "token" := token];
    if bundleIdentifier.Some? then body["app_id" := bundleIdentifier.value] else body
  }

  /** What `preloadUserProfile` makes of the response `callAPI` produced. */
  function PreloadResult(response: Result<NetworkResponse, Error>, utf8: seq<bv8> -> Option<string>): (r: Result<string, Error>)
    ensures response.Failure? ==> r == Failure(response.error)
    ensures r.Success? ==>
              response.Success? && CheckHTTPStatus(response.value, utf8) == Success(response.value.data) &&
              response.value.data.Some? && utf8(response.value.data.value) == Some(r.value)
    ensures response.Success? && CheckHTTPStatus(response.value, utf8).Failure? ==>
              r == Failure(CheckHTTPStatus(response.value, utf8).error)
  {
    match response
    case Failure(e) => Failure(e)
    case Success(resp) =>
      match CheckHTTPStatus(resp, utf8)
      case Failure(e) => Failure(e)
      case Success(data) =>
        if data.Some? && utf8(data.value).Some? then Success(utf8(data.value).value)
        else Failure(Other(DefaultErrorMessage))
  }

  /**
   * `preloadUserProfile(with:for:)`. `profileUrlValid` says whether the
   * environment's profile address parses as a URL; `request(i)` is the outcome
   * of the i-th request with the body `PreloadBody(token, bundleIdentifier)`.
   */
  method PreloadUserProfile(profileUrlValid: bool, token: string, bundleIdentifier: Option<string>,
                            request: nat -> Result<NetworkResponse, Error>, utf8: seq<bv8> -> Option<string>)
    returns (r: Result<string, Error>, body: map<string, string>, attempts: nat)
    ensures !profileUrlValid ==> r == Failure(Other(UnavailableMessage)) && attempts == 0
    ensures profileUrlValid ==>
              body == PreloadBody(token, bundleIdentifier) &&
              1 <= attempts <= CallApiMaxRetryCount + 1 &&
              (forall i :: 0 <= i < attempts - 1 ==> request(i).Failure?) &&
              r == PreloadResult(request(attempts - 1), utf8)
  {
    body := map[];
    if !profileUrlValid {
      return Failure(Other(UnavailableMessage)), body, 0;
    }
    body := map["platform" := "ios", "token" := token];
    if bundleIdentifier.Some? {
      body := body["app_id" := bundleIdentifier.value];
    }
    var response;
    response, attempts := Retrying(CallApiMaxRetryCount, request);
    if response.Failure? {
      return Failure(response.error), body, attempts;
    }
    var data :- CheckHTTPStatus(response.value, utf8);
    if data.Some? && utf8(data.value).Some? {
      return Success(utf8(data.value).value), body, attempts;
    }
    r := Failure(Other(DefaultErrorMessage));
  }

  /** A 2xx response without UTF-8 text, like any failed check, ends in an error; a 400–500 body is passed on as the message. */
  lemma PreloadOutcomes(resp: NetworkResponse, utf8: seq<bv8> -> Option<string>)
    requires resp.response.Some? && resp.response.value.HTTPURLResponse?
    ensures var code := resp.response.value.statusCode;
            200 <= code <= 299 && (resp.data.None? || utf8(resp.data.value).None?) ==>
              PreloadResult(Success(resp), utf8) == Failure(Other(DefaultErrorMessage))
    ensures var code := resp.response.value.statusCode;
            400 <= code <= 500 && resp.data.Some? && utf8(resp.data.value).Some? ==>
              PreloadResult(Success(resp), utf8) == Failure(Other(utf8(resp.data.value).value))
    ensures var code := resp.response.value.statusCode;
            (300 <= code <= 399 || 501 <= code) ==> PreloadResult(Success(resp), utf8) == Failure(Other(DefaultErrorMessage))
  {
  }
}
