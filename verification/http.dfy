/** The authenticated client of `ServerManager` (src/module/server.rs): URL resolution
    against the discovered address, the bearer header, and the sorting of a reply into a
    decoded value, a structured API error, or a transport/decoding failure. The network
    and `serde_json` are not modelled: a send is given as its `Exchange`, the outcome the
    transport and the two body decoders produced. */
module Http {
  import opened Common
  import Json

  datatype Method = Get | Post

  /** Where the server listens and the token it expects, once known. */
  datatype Access = Access(address: Option<string>, token: Option<string>)

  const NoAccess := Access(None, None)

  datatype Header = Header(name: string, value: string)

  datatype Request = Request(verb: Method, url: string, headers: seq<Header>, body: Option<Json.Json>)

  const BearerPrefix := "Bearer "

  /** The address followed by the path when an address is known; the path alone otherwise. */
  function RequestUrl(access: Access, path: string): string
  {
    match access.address
    case Some(address) => address + path
    case None => path
  }

  /** The `Authorization` header when a token is known, and no header otherwise. */
  function AuthHeaders(access: Access): seq<Header>
  {
    match access.token
    case Some(token) => [Header("Authorization", BearerPrefix + token)]
    case None => []
  }

  /** What a server reading the request's headers learns as the bearer token. */
  function BearerToken(headers: seq<Header>): Option<string>
  {
    if headers == [] then None
    else if headers[0].name == "Authorization" && |BearerPrefix| <= |headers[0].value|
            && headers[0].value[..|BearerPrefix|] == BearerPrefix
    then Some(headers[0].value[|BearerPrefix|..])
    else BearerToken(headers[1..])
  }

  function BuildRequest(access: Access, verb: Method, path: string, body: Option<Json.Json>): (r: Request)
    ensures r.url == RequestUrl(access, path) && r.headers == AuthHeaders(access)
    ensures r.verb == verb && r.body == body
  {
    Request(verb, RequestUrl(access, path), AuthHeaders(access), body)
  }

  /** The request carries exactly the known token: a bearer header iff a token is known,
      at most one header, and the token read back from it is the one stored. */
  lemma AuthHeadersCarryToken(access: Access)
    ensures |AuthHeaders(access)| <= 1
    ensures AuthHeaders(access) != [] <==> access.token.Some?
    ensures BearerToken(AuthHeaders(access)) == access.token
  {
    match access.token
    case Some(token) =>
      var v := BearerPrefix + token;
      assert v[..|BearerPrefix|] == BearerPrefix && v[|BearerPrefix|..] == token;
    case None =>
  }

  /** With a known address the URL extends it by the path; without one the path is used as is. */
  lemma RequestUrlResolution(access: Access, path: string)
    ensures access.address.Some? ==>
      var url := RequestUrl(access, path);
      |url| == |access.address.value| + |path|
      && url[..|access.address.value|] == access.address.value
      && url[|access.address.value|..] == path
    ensures access.address.None? ==> RequestUrl(access, path) == path
  {
  }

  /** An HTTP status code as `reqwest::StatusCode` holds it. */
  type StatusCode = c: int | 100 <= c <= 999 witness 200

  /** `is_success() || is_redirection()`. */
  predicate IsSuccessOrRedirect(c: StatusCode) {
    200 <= c <= 399
  }

  /** The `{code, message}` body the server sends with an error status. */
  datatype ErrorBody = ErrorBody(code: string, message: string)

  /** A received body as the decoders see it: unreadable (`text()` failed), or the value
      each schema would decode it to (`None` when it does not match that schema). */
  datatype Body<T> = Unreadable | Readable(asValue: Option<T>, asError: Option<ErrorBody>)

  /** What one send produced: no response at all, or a status with a body. */
  datatype Exchange<T> = SendFailed | Received(status: StatusCode, body: Body<T>)

  /** A page of results as the server lists them. */
  datatype ListResult<T> = ListResult(total: int, result: seq<T>)

  /** An id with the warnings the server attached to it. */
  datatype IdWithWarning = IdWithWarning(id: int, warnings: seq<ErrorBody>)

  /** Transport (network or body read), Malformed (a body matching neither schema), or a
      structured API error. */
  datatype ReqError = Transport | Malformed | Api(code: string, message: string)

  /** `req`, `req_with_query` and `req_with_body`: a 2xx/3xx body decodes as the success
      shape, any other status decodes `{code, message}` into an API error. */
  function Decode<T>(ex: Exchange<T>): (r: Result<T, ReqError>)
    ensures r.Success? <==>
      ex.Received? && IsSuccessOrRedirect(ex.status) && ex.body.Readable? && ex.body.asValue.Some?
    ensures r.Success? ==> r.value == ex.body.asValue.value
    ensures r.Failure? && r.error.Api? <==>
      ex.Received? && !IsSuccessOrRedirect(ex.status) && ex.body.Readable? && ex.body.asError.Some?
    ensures r.Failure? && r.error.Api? ==> ex.body.asError.value == ErrorBody(r.error.code, r.error.message)
    ensures r == Failure(Transport) <==> ex.SendFailed? || ex.body.Unreadable?
  {
    match ex
    case SendFailed => Failure(Transport)
    case Received(status, Unreadable) => Failure(Transport)
    case Received(status, Readable(asValue, asError)) =>
      if IsSuccessOrRedirect(status) then
        match asValue
        case Some(v) => Success(v)
        case None => Failure(Malformed)
      else
        match asError
        case Some(e) => Failure(Api(e.code, e.message))
        case None => Failure(Malformed)
  }

  /** `ServerManager::req_without_res`: a 2xx/3xx status succeeds without reading the body;
      any other status is decoded like `Decode` does. */
  function DecodeNoContent<T>(ex: Exchange<T>): (r: Result<(), ReqError>)
    ensures r.Success? <==> ex.Received? && IsSuccessOrRedirect(ex.status)
    ensures ex.Received? && !IsSuccessOrRedirect(ex.status) ==> r == DropValue(Decode(ex))
    ensures ex.SendFailed? ==> r == Failure(Transport)
  {
    match ex
    case SendFailed => Failure(Transport)
    case Received(status, body) =>
      if IsSuccessOrRedirect(status) then Success(())
      else DropValue(Decode(ex))
  }

  function DropValue<T>(r: Result<T, ReqError>): Result<(), ReqError>
  {
    match r
    case Success(_) => Success(())
    case Failure(e) => Failure(e)
  }

  /** `MaintainComponent::req_without_res`: every received response is a success, whatever
      its status; only a failed send is an error. */
  function DecodeLenient<T>(ex: Exchange<T>): (r: Result<(), ReqError>)
    ensures r.Success? <==> ex.Received?
    ensures r.Failure? ==> r.error == Transport
  {
    match ex
    case SendFailed => Failure(Transport)
    case Received(_, _) => Success(())
  }

  /** The three decoders are successively more permissive: a decoded value implies a
      no-content success, which implies a lenient success, and the lenient decoder fails
      only when nothing was received. */
  lemma DecodersNested<T>(ex: Exchange<T>)
    ensures Decode(ex).Success? ==> DecodeNoContent(ex).Success?
    ensures DecodeNoContent(ex).Success? ==> DecodeLenient(ex).Success?
    ensures DecodeLenient(ex).Failure? ==> DecodeNoContent(ex) == Failure(Transport) && Decode(ex) == Failure(Transport)
  {
  }
}
