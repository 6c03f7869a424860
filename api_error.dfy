/**
 * The API's error type (crates/api/src/error.rs): its display text, the HTTP response each
 * variant becomes, and the conversions from the DAO, authentication and OAuth errors.
 */
module ApiErrors {

  datatype ApiError =
    | NotFound(msg: string)
    | BadRequest(msg: string)
    | Unauthorized(msg: string)
    | Forbidden(msg: string)
    | Conflict(msg: string)
    | Internal(msg: string)
    | Validation(msg: string)

  /** The label `Display` puts before the message. */
  function Label(e: ApiError): string
  {
    match e
    case NotFound(_) => "Not found: "
    case BadRequest(_) => "Bad request: "
    case Unauthorized(_) => "Unauthorized: "
    case Forbidden(_) => "Forbidden: "
    case Conflict(_) => "Conflict: "
    case Internal(_) => "Internal error: "
    case Validation(_) => "Validation: "
  }

  function Display(e: ApiError): string
  {
    Label(e) + e.msg
  }

  /** Two errors display alike only when they are the same error: the labels start with distinct letters. */
  lemma DisplayInjective(e1: ApiError, e2: ApiError)
    ensures Display(e1) == Display(e2) <==> e1 == e2
  {
    if Display(e1) == Display(e2) {
      assert Display(e1)[0] == Label(e1)[0] && Display(e2)[0] == Label(e2)[0];
      assert Label(e1) == Label(e2);
      assert e1.msg == Display(e1)[|Label(e1)|..];
      assert e2.msg == Display(e2)[|Label(e2)|..];
    }
  }

  /** `into_response`'s status code. */
  function Status(e: ApiError): (code: nat)
    ensures 400 <= code <= 500
    ensures code == 500 <==> e.Internal?
  {
    match e
    case NotFound(_) => 404
    case BadRequest(_) => 400
    case Unauthorized(_) => 401
    case Forbidden(_) => 403
    case Conflict(_) => 409
    case Internal(_) => 500
    case Validation(_) => 422
  }

  /** The `error` field of the body: the variant's snake-case name. */
  function ErrorTag(e: ApiError): string
  {
    match e
    case NotFound(_) => "not_found"
    case BadRequest(_) => "bad_request"
    case Unauthorized(_) => "unauthorized"
    case Forbidden(_) => "forbidden"
    case Conflict(_) => "conflict"
    case Internal(_) => "internal"
    case Validation(_) => "validation"
  }

  datatype ErrorBody = ErrorBody(error: string, message: string)

  datatype Response = Response(status: nat, body: ErrorBody)

  function IntoResponse(e: ApiError): Response
  {
    Response(Status(e), ErrorBody(ErrorTag(e), e.msg))
  }

  /** The response determines the error: the status names the variant and the body keeps the message verbatim. */
  lemma ResponseDeterminesError(e1: ApiError, e2: ApiError)
    ensures IntoResponse(e1).status == IntoResponse(e2).status <==> e1.(msg := []) == e2.(msg := [])
    ensures IntoResponse(e1) == IntoResponse(e2) <==> e1 == e2
    ensures IntoResponse(e1).body.message == e1.msg
  {
    if IntoResponse(e1) == IntoResponse(e2) {
      assert Status(e1) == Status(e2);
    }
  }

  // ---------------------------------------------------------------- conversions

  /** The DAO layer's error (crates/services/src/dao/base.rs is not part of this model; its variants are). */
  datatype DaoError =
    | DaoNotFound
    | DuplicateKey(msg: string)
    | DaoForbidden(msg: string)
    | DaoValidation(msg: string)
    | Mongo(msg: string)
    | BsonSer(msg: string)
    | BsonDe(msg: string)

  function FromDao(e: DaoError): (r: ApiError)
    ensures Status(r) == 500 <==> e.Mongo? || e.BsonSer? || e.BsonDe?
    ensures e.DaoNotFound? <==> r == NotFound("Resource not found")
    ensures !e.DaoNotFound? ==> r.msg == e.msg
    ensures e.DuplicateKey? <==> r.Conflict?
    ensures e.DaoForbidden? <==> r.Forbidden?
    ensures e.DaoValidation? <==> r.Validation?
  {
    match e
    case DaoNotFound => NotFound("Resource not found")
    case DuplicateKey(m) => Conflict(m)
    case DaoForbidden(m) => Forbidden(m)
    case DaoValidation(m) => Validation(m)
    case Mongo(m) => Internal(m)
    case BsonSer(m) => Internal(m)
    case BsonDe(m) => Internal(m)
  }

  /** The authentication error (crates/services/src/auth is not part of this model; its variants are). */
  datatype AuthError = InvalidCredentials | TokenExpired | InvalidToken(msg: string) | HashError(msg: string)

  function FromAuth(e: AuthError): (r: ApiError)
    ensures r.Unauthorized? <==> !e.HashError?
    ensures r.Internal? <==> e.HashError?
    ensures (e.InvalidToken? || e.HashError?) ==> r.msg == e.msg
  {
    match e
    case InvalidCredentials => Unauthorized("Invalid credentials")
    case TokenExpired => Unauthorized("Token expired")
    case InvalidToken(m) => Unauthorized(m)
    case HashError(m) => Internal(m)
  }

  /** The OAuth error of crates/services/src/oauth/mod.rs. */
  datatype OAuthError =
    | ProviderNotConfigured(msg: string)
    | UnknownProvider(msg: string)
    | TokenExchangeFailed(msg: string)
    | UserInfoFailed(msg: string)
    | InvalidState

  /** Its display text, as its error attributes give it. */
  function OAuthDisplay(e: OAuthError): string
  {
    match e
    case ProviderNotConfigured(m) => "Provider not configured: " + m
    case UnknownProvider(m) => "Unknown provider: " + m
    case TokenExchangeFailed(m) => "Token exchange failed: " + m
    case UserInfoFailed(m) => "User info fetch failed: " + m
    case InvalidState => "Invalid state parameter"
  }

  function FromOAuth(e: OAuthError): (r: ApiError)
    ensures r.BadRequest? <==> e.ProviderNotConfigured? || e.UnknownProvider? || e.InvalidState?
    ensures r.Internal? <==> e.TokenExchangeFailed? || e.UserInfoFailed?
    ensures r.Internal? ==> r.msg == OAuthDisplay(e)
    ensures e.ProviderNotConfigured? || e.UnknownProvider? ==> r.msg == OAuthDisplay(e)
  {
    match e
    case ProviderNotConfigured(m) => BadRequest("Provider not configured: " + m)
    case UnknownProvider(m) => BadRequest("Unknown provider: " + m)
    case InvalidState => BadRequest("Invalid OAuth state")
    case _ => Internal(OAuthDisplay(e))
  }
}
