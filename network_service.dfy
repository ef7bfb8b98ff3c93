/**
 * `NetworkService`: builds a request for an endpoint (adding the bearer token where the endpoint needs
 * authentication), and turns the HTTP status and body into a value or a `NetworkError`.
 *
 * The transport and the JSON decoders are not modelled: the outcome of the round trip enters as a
 * `Transport` value holding the status, the body, what the error-body decoder produced and what the
 * response decoder produced.
 */
module Network {
  import opened Wrappers
  import opened Text
  import opened Endpoints

  newtype byte = x: int | 0 <= x < 256
  type Bytes = seq<byte>

  datatype NetworkError =
    | InvalidURL
    | NoData
    | DecodingError(reason: string)
    | EncodingError(reason: string)
    | HttpError(statusCode: int, data: Option<Bytes>)
    | NetworkFailure(failure: Failure)
    | Unauthorized
    | ServerError(message: string)

  /** `errorDescription`. */
  function ErrorDescription(e: NetworkError): string {
    match e
    case InvalidURL => "Invalid URL"
    case NoData => "No data received from server"
    case DecodingError(reason) => "Failed to decode response: " + reason
    case EncodingError(reason) => "Failed to encode request: " + reason
    case HttpError(statusCode, _) => "HTTP Error: " + IntToString(statusCode)
    case NetworkFailure(failure) => "Network error: " + LocalizedDescription(failure)
    case Unauthorized => "Unauthorized access. Please login again."
    case ServerError(message) => "Server error: " + message
  }

  /**
   * The `Error` a `networkError` wraps: one the session raised, carrying its own description, or an
   * `NSError` the service builds from a domain and a code.
   */
  datatype Failure = SessionError(description: string) | DomainError(domain: string, code: int)

  /** Foundation's sentence for an `NSError` without user info, up to its domain. */
  const CouldNotComplete := "The operation couldn\U{2019}t be completed. ("

  /** `localizedDescription`: an `NSError` without user info names its domain and code in Foundation's sentence. */
  function LocalizedDescription(f: Failure): (r: string)
    ensures f.SessionError? ==> r == f.description
    ensures f.DomainError? ==> CouldNotComplete <= r && r[|r| - 2..] == ".)"
    ensures f.DomainError? ==> f.domain <= r[|CouldNotComplete|..]
  {
    match f
    case SessionError(description) => description
    case DomainError(domain, code) => CouldNotComplete + domain + " error " + IntToString(code) + ".)"
  }

  /** A session error shows its own description; the service's own errors show Foundation's sentence, not their domain alone. */
  lemma NetworkFailureDescription(description: string)
    ensures ErrorDescription(NetworkFailure(SessionError(description))) == "Network error: " + description
    ensures ErrorDescription(NetworkFailure(InvalidResponse)) ==
      "Network error: " + CouldNotComplete + "Invalid response error -1.)"
  {
    assert DigitChar(1) == '1';
    assert NatToString(1) == "1";
    assert IntToString(-1) == "-1";
    assert "Invalid response" + " error " + "-1" + ".)" == "Invalid response error -1.)";
    assert LocalizedDescription(InvalidResponse) == CouldNotComplete + "Invalid response error -1.)";
  }

  /** The error body some servers send. */
  datatype ErrorResponse = ErrorResponse(message: Option<string>, code: Option<string>, error: Option<string>, detail: Option<string>)

  /** `message ?? error ?? detail ?? fallback`. */
  function ErrorMessage(r: ErrorResponse, fallback: string): (m: string)
    ensures m == fallback || Some(m) == r.message || Some(m) == r.error || Some(m) == r.detail
  {
    if r.message.Some? then r.message.value
    else if r.error.Some? then r.error.value
    else if r.detail.Some? then r.detail.value
    else fallback
  }

  /** The message is the first field present, in the order message, error, detail; the fallback only when none is. */
  lemma ErrorMessageFallback(r: ErrorResponse, fallback: string)
    ensures r.message.Some? ==> ErrorMessage(r, fallback) == r.message.value
    ensures r.message.None? && r.error.Some? ==> ErrorMessage(r, fallback) == r.error.value
    ensures r.message.None? && r.error.None? && r.detail.Some? ==> ErrorMessage(r, fallback) == r.detail.value
    ensures r.message.None? && r.error.None? && r.detail.None? ==> ErrorMessage(r, fallback) == fallback
    ensures r.code.Some? && r.message.None? && r.error.None? && r.detail.None? ==> ErrorMessage(r, fallback) == fallback
  {
  }

  // ---------------------------------------------------------------------------
  // Status classification

  /** The status switch of `request`: `None` lets the response through to decoding. */
  function StatusError(statusCode: int, data: Bytes, errorBody: Option<ErrorResponse>): (r: Option<NetworkError>)
    ensures r.None? <==> 200 <= statusCode <= 299
    ensures r.Some? && r.value.HttpError? ==> r.value.statusCode == statusCode && r.value.data == Some(data)
  {
    if 200 <= statusCode <= 299 then None
    else if statusCode == 401 then Some(Unauthorized)
    else if statusCode == 403 then
      Some(if errorBody.Some? then ServerError("Forbidden: " + ErrorMessage(errorBody.value, "Access forbidden"))
           else ServerError("Access forbidden"))
    else if 400 <= statusCode <= 499 then
      Some(if errorBody.Some? then ServerError(ErrorMessage(errorBody.value, "Request failed"))
           else HttpError(statusCode, Some(data)))
    else if 500 <= statusCode <= 599 then Some(ServerError("Internal server error"))
    else Some(HttpError(statusCode, Some(data)))
  }

  /** The status classes of RFC 9110, section 15. */
  datatype StatusClass = Informational | Successful | Redirection | ClientError | ServerFault | Unknown

  function ClassOf(statusCode: int): StatusClass {
    if 100 <= statusCode <= 199 then Informational
    else if 200 <= statusCode <= 299 then Successful
    else if 300 <= statusCode <= 399 then Redirection
    else if 400 <= statusCode <= 499 then ClientError
    else if 500 <= statusCode <= 599 then ServerFault
    else Unknown
  }

  /** Each status class leads to one kind of outcome; 401 wins over the rest of the client errors. */
  lemma StatusErrorByClass(statusCode: int, data: Bytes, errorBody: Option<ErrorResponse>)
    ensures StatusError(statusCode, data, errorBody).None? <==> ClassOf(statusCode) == Successful
    ensures statusCode == 401 ==> StatusError(statusCode, data, errorBody) == Some(Unauthorized)
    ensures ClassOf(statusCode) == ServerFault ==>
      StatusError(statusCode, data, errorBody) == Some(ServerError("Internal server error"))
    ensures ClassOf(statusCode) in {Informational, Redirection, Unknown} ==>
      StatusError(statusCode, data, errorBody) == Some(HttpError(statusCode, Some(data)))
    ensures ClassOf(statusCode) == ClientError && statusCode != 401 ==>
      (errorBody.None? && statusCode != 403 <==> StatusError(statusCode, data, errorBody) == Some(HttpError(statusCode, Some(data))))
    ensures ClassOf(statusCode) == ClientError && statusCode != 401 && statusCode != 403 && errorBody.Some? ==>
      StatusError(statusCode, data, errorBody) == Some(ServerError(ErrorMessage(errorBody.value, "Request failed")))
  {
  }

  /** A 403 always becomes a server error, with the body's message behind `Forbidden: ` when the body decodes. */
  lemma ForbiddenMessage(data: Bytes, errorBody: Option<ErrorResponse>)
    ensures StatusError(403, data, errorBody).Some? && StatusError(403, data, errorBody).value.ServerError?
    ensures errorBody.None? ==> StatusError(403, data, errorBody) == Some(ServerError("Access forbidden"))
    ensures errorBody.Some? ==>
      StatusError(403, data, errorBody) == Some(ServerError("Forbidden: " + ErrorMessage(errorBody.value, "Access forbidden")))
    ensures errorBody.Some? ==>
      HasPrefix(StatusError(403, data, errorBody).value.message, "Forbidden: ")
  {
    if errorBody.Some? {
      var m := ErrorMessage(errorBody.value, "Access forbidden");
      assert ("Forbidden: " + m)[..|"Forbidden: "|] == "Forbidden: ";
    }
  }

  // ---------------------------------------------------------------------------
  // Requests

  /** Endpoints that get the bearer token: all but login, sign-up and the Auth0 callback. */
  predicate RequiresAuth(e: Endpoint): (r: bool)
    ensures !r <==> IsAuthEndpoint(e) && !e.RefreshToken? && !e.Logout?
  {
    !(e.Login? || e.Signup? || e.Auth0Callback?)
  }

  /** The `Authorization` value of RFC 6750, section 2.1. */
  function Bearer(token: string): string {
    "Bearer " + token
  }

  /** The header map `request` sends. */
  function RequestHeaders(e: Endpoint, token: Option<string>): map<string, string> {
    if RequiresAuth(e) && token.Some? then Headers(e)["Authorization" := Bearer(token.value)] else Headers(e)
  }

  /** The header map `delete` sends: the token goes along whatever the endpoint. */
  function DeleteHeaders(e: Endpoint, token: Option<string>): (h: map<string, string>)
    ensures h.Keys == Headers(e).Keys + (if token.Some? then {"Authorization"} else {})
    ensures token.Some? ==> h["Authorization"] == Bearer(token.value)
    ensures forall k | k in Headers(e) :: h[k] == Headers(e)[k]
  {
    if token.Some? then Headers(e)["Authorization" := Bearer(token.value)] else Headers(e)
  }

  /** An `Authorization` header is sent iff the endpoint needs one and a token is stored; the JSON headers always are. */
  lemma AuthorizationRule(e: Endpoint, token: Option<string>)
    ensures "Authorization" in RequestHeaders(e, token) <==> RequiresAuth(e) && token.Some?
    ensures "Authorization" in RequestHeaders(e, token) ==>
      RequestHeaders(e, token)["Authorization"] == "Bearer " + token.value
    ensures forall k | k in Headers(e) :: k in RequestHeaders(e, token) && RequestHeaders(e, token)[k] == Headers(e)[k]
    ensures "Authorization" in DeleteHeaders(e, token) <==> token.Some?
    ensures RequiresAuth(e) ==> DeleteHeaders(e, token) == RequestHeaders(e, token)
  {
    HeadersAreJson(e);
    assert "Authorization" !in Headers(e);
  }

  /** The fields of the `URLRequest` handed to the session. */
  datatype UrlRequest = UrlRequest(url: string, httpMethod: string, headerFields: map<string, string>, body: Option<Bytes>)

  /** What the round trip produced: a transport failure, a non-HTTP response, or an HTTP response. */
  datatype Transport<T> =
    | TransportFailed(reason: string)
    | NotHttp
    | Http(statusCode: int, data: Bytes, errorBody: Option<ErrorResponse>, decoded: Result<T, string>)

  /** The error `request` and `delete` wrap for a response that is not HTTP: domain `Invalid response`, code -1. */
  const InvalidResponse := DomainError("Invalid response", -1)

  /** What `request` returns or throws for a round trip once the request was sent. */
  function ResponseResult<T>(t: Transport<T>): (r: Result<T, NetworkError>)
    ensures r.Ok? ==> t.Http? && 200 <= t.statusCode <= 299 && t.decoded == Ok(r.value)
  {
    match t
    case TransportFailed(reason) => Err(NetworkFailure(SessionError(reason)))
    case NotHttp => Err(NetworkFailure(InvalidResponse))
    case Http(statusCode, data, errorBody, decoded) =>
      match StatusError(statusCode, data, errorBody)
      case Some(e) => Err(e)
      case None =>
        match decoded
        case Ok(v) => Ok(v)
        case Err(reason) => Err(DecodingError(reason))
  }

  /**
   * A 2xx response gives the decoded value or a decoding error; any other status gives its status error
   * unchanged; only failures outside the service are wrapped as network errors.
   */
  lemma ResponseResultCases<T>(t: Transport<T>)
    ensures t.Http? && StatusError(t.statusCode, t.data, t.errorBody).Some? ==>
      ResponseResult(t) == Err(StatusError(t.statusCode, t.data, t.errorBody).value)
    ensures t.Http? && 200 <= t.statusCode <= 299 ==>
      ResponseResult(t) == (if t.decoded.Ok? then Ok(t.decoded.value) else Err(DecodingError(t.decoded.error)))
    ensures ResponseResult(t).Err? && ResponseResult(t).error.NetworkFailure? ==> !t.Http?
    ensures t.TransportFailed? ==> ResponseResult(t) == Err(NetworkFailure(SessionError(t.reason)))
    ensures t.NotHttp? ==> ResponseResult(t) == Err(NetworkFailure(DomainError("Invalid response", -1)))
    ensures ResponseResult(t).Ok? ==> t.Http? && ClassOf(t.statusCode) == Successful
  {
    if t.Http? {
      StatusErrorByClass(t.statusCode, t.data, t.errorBody);
    }
  }

  /** What `delete` throws: one of the service's errors, or the transport's own error passed through. */
  datatype Thrown = Service(error: NetworkError) | Foreign(reason: string)

  function DeleteResult(t: Transport<()>): (r: Result<(), Thrown>)
    ensures r.Ok? <==> t.Http? && 200 <= t.statusCode <= 299
  {
    match t
    case TransportFailed(reason) => Err(Foreign(reason))
    case NotHttp => Err(Service(NetworkFailure(InvalidResponse)))
    case Http(statusCode, _, _, _) =>
      if 200 <= statusCode <= 299 then Ok(()) else Err(Service(HttpError(statusCode, None)))
  }

  /** `delete` checks only for a 2xx status, never decodes, and reports other statuses without the body. */
  lemma DeleteResultCases(t: Transport<()>)
    ensures t.Http? ==> (DeleteResult(t).Ok? <==> ClassOf(t.statusCode) == Successful)
    ensures t.Http? && DeleteResult(t).Err? ==> DeleteResult(t).error == Service(HttpError(t.statusCode, None))
    ensures DeleteResult(t).Err? && DeleteResult(t).error.Foreign? <==> t.TransportFailed?
  {
  }

  class NetworkService {
    /** The stored token (persisted under `authToken`). */
    var authToken: Option<string>

    constructor (storedToken: Option<string>)
      ensures authToken == storedToken
    {
      authToken := storedToken;
    }

    method SetAuthToken(token: Option<string>)
      modifies this`authToken
      ensures authToken == token
    {
      authToken := token;
    }

    function GetAuthToken(): Option<string>
      reads this
    {
      authToken
    }

    method ClearAuthToken()
      modifies this`authToken
      ensures authToken.None?
    {
      authToken := None;
    }

    /** The `setValue(_:forHTTPHeaderField:)` loop: every header becomes a field of the request. */
    static method SetHeaderFields(headers: map<string, string>) returns (fields: map<string, string>)
      ensures fields == headers
    {
      fields := map[];
      var pending := headers.Keys;
      while pending != {}
        invariant pending <= headers.Keys
        invariant fields.Keys == headers.Keys - pending
        invariant forall k | k in fields :: fields[k] == headers[k]
        decreases |pending|
      {
        var key :| key in pending;
        fields := fields[key := headers[key]];
        pending := pending - {key};
      }
    }

    /**
     * `request`: without a URL it throws `invalidURL` and sends nothing; otherwise it sends the endpoint's
     * method, its headers (with the token where required) and the body, and maps the round trip's outcome.
     */
    method Request<T>(endpoint: Endpoint, body: Option<Bytes>, urlParses: bool, transport: Transport<T>)
      returns (result: Result<T, NetworkError>, sent: Option<UrlRequest>)
      ensures !urlParses ==> result == Err(InvalidURL) && sent.None?
      ensures urlParses ==>
        sent == Some(UrlRequest(UrlString(endpoint), MethodName(Method(endpoint)), RequestHeaders(endpoint, authToken), body))
      ensures urlParses ==> result == ResponseResult(transport)
    {
      if !urlParses {
        return Err(InvalidURL), None;
      }
      var headers := Headers(endpoint);
      var requiresAuth := !(endpoint.Login? || endpoint.Signup? || endpoint.Auth0Callback?);
      if requiresAuth && authToken.Some? {
        headers := headers["Authorization" := "Bearer " + authToken.value];
      }
      var fields := SetHeaderFields(headers);
      sent := Some(UrlRequest(UrlString(endpoint), MethodName(Method(endpoint)), fields, body));
      match transport {
        case TransportFailed(reason) =>
          result := Err(NetworkFailure(SessionError(reason)));
        case NotHttp =>
          result := Err(NetworkFailure(InvalidResponse));
        case Http(statusCode, data, errorBody, decoded) =>
          var statusError := StatusError(statusCode, data, errorBody);
          if statusError.Some? {
            result := Err(statusError.value);
          } else if decoded.Ok? {
            result := Ok(decoded.value);
          } else {
            result := Err(DecodingError(decoded.error));
          }
      }
    }

    /** `delete`: sends `DELETE` with the token whenever one is stored, and accepts any 2xx status. */
    method Delete(endpoint: Endpoint, urlParses: bool, transport: Transport<()>)
      returns (result: Result<(), Thrown>, sent: Option<UrlRequest>)
      ensures !urlParses ==> result == Err(Service(InvalidURL)) && sent.None?
      ensures urlParses ==>
        sent == Some(UrlRequest(UrlString(endpoint), MethodName(HttpMethod.Delete), DeleteHeaders(endpoint, authToken), None))
      ensures urlParses ==> result == DeleteResult(transport)
    {
      if !urlParses {
        return Err(Service(InvalidURL)), None;
      }
      var headers := Headers(endpoint);
      if authToken.Some? {
        headers := headers["Authorization" := "Bearer " + authToken.value];
      }
      var fields := SetHeaderFields(headers);
      sent := Some(UrlRequest(UrlString(endpoint), "DELETE", fields, None));
      match transport {
        case TransportFailed(reason) =>
          result := Err(Foreign(reason));
        case NotHttp =>
          result := Err(Service(NetworkFailure(InvalidResponse)));
        case Http(statusCode, _, _, _) =>
          if !(200 <= statusCode <= 299) {
            result := Err(Service(HttpError(statusCode, None)));
          } else {
            result := Ok(());
          }
      }
    }
  }
}
