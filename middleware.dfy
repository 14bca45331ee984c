/**
 * backend/internal/infrastructure/auth/middleware.go: finding the
 * Authorization header, the development shortcut, the Bearer format, and
 * the translation of validator and subject errors into domain errors. The
 * JWT validator (signature, key set, issuer, audience) is the parameter
 * `validate`, from token to claims or error; the configured environment is
 * the parameter `env`.
 */
module Middleware {
  import opened Wrappers
  import opened Text
  import opened GoErrors
  import opened DomainErrors
  import opened Uuids
  import opened Claims
  import CognitoErrors
  import InfraErrors

  /** `AuthResult`. */
  datatype AuthResult = AuthResult(userID: Uuid, claims: ClaimsData)

  const BearerPrefix := "Bearer "
  const DevHeader := "Bearer dev-token"
  const DevUserID: Uuid := "00000000-0000-0000-0000-000000000001"

  /** The fixed claims of the development user. */
  const DevClaims := NoClaims.(subject := DevUserID, tokenUse := "access", email := "dev@example.com",
                               name := "Development User", cognitoUsername := "dev-user",
                               issuer := "dev-environment")

  const JWKSFailureText := "認証サービスエラー"
  const HTTPFailureText := "認証サービス接続エラー"
  const OtherFailureText := "認証に失敗しました"

  // ---------------------------------------------------------------------
  // The header

  /** A Go map lookup: a missing key reads as "". */
  function Lookup(headers: map<string, string>, key: string): string
  {
    if key in headers then headers[key] else ""
  }

  /**
   * The answers `getAuthorizationHeader` may give: the exact key, then the
   * lower-case key, then the value of any key that lower-cases to
   * "authorization" (which one depends on Go's map order), else "".
   */
  predicate HeaderChoice(headers: map<string, string>, h: string)
  {
    if Lookup(headers, "Authorization") != "" then h == Lookup(headers, "Authorization")
    else if Lookup(headers, "authorization") != "" then h == Lookup(headers, "authorization")
    else if exists k :: k in headers && Lower(k) == "authorization" then
      exists k :: k in headers && Lower(k) == "authorization" && h == headers[k]
    else h == ""
  }

  /** Without any key that lower-cases to "authorization" the header is "", and with one it is that key's value. */
  lemma HeaderChoiceProperties(headers: map<string, string>, h: string)
    requires HeaderChoice(headers, h)
    ensures (forall k :: k in headers ==> Lower(k) != "authorization") ==> h == ""
    ensures h != "" ==> exists k :: k in headers && Lower(k) == "authorization" && h == headers[k]
  {
    if Lookup(headers, "Authorization") != "" {
      assert Lower("Authorization") == "authorization";
    } else if Lookup(headers, "authorization") != "" {
      assert Lower("authorization") == "authorization";
    }
  }

  /** `getAuthorizationHeader`: the two spellings, then a scan of the keys in an unspecified order. */
  method GetAuthorizationHeader(headers: map<string, string>) returns (h: string)
    ensures HeaderChoice(headers, h)
  {
    if Lookup(headers, "Authorization") != "" {
      return Lookup(headers, "Authorization");
    }
    if Lookup(headers, "authorization") != "" {
      return Lookup(headers, "authorization");
    }
    var keys := headers.Keys;
    while keys != {}
      invariant keys <= headers.Keys
      invariant forall k :: k in headers.Keys - keys ==> Lower(k) != "authorization"
      decreases |keys|
    {
      var k :| k in keys;
      if Lower(k) == "authorization" {
        return headers[k];
      }
      keys := keys - {k};
    }
    return "";
  }

  predicate IsDevelopmentEnvironment(env: string)
  {
    env == "development" || env == "dev"
  }

  // ---------------------------------------------------------------------
  // Validator errors, as written and as intended

  /** The validator-error translation as written: the tests use the application's JWT sentinels. */
  function ValidatorFailureAsWritten(e: Error): (d: Error)
    ensures InfraErrors.IsJWTError(e) && Is(e, App(ErrJWTTokenExpired)) ==> d == NewTokenExpiredError()
    ensures !InfraErrors.IsJWTError(e) && !InfraErrors.IsJWKSError(e) && !InfraErrors.IsHTTPError(e)
            ==> d == NewUnauthorizedError(OtherFailureText)
  {
    if InfraErrors.IsJWTError(e) && Is(e, App(ErrJWTTokenExpired)) then NewTokenExpiredError()
    else if InfraErrors.IsJWTError(e)
            && (Is(e, App(ErrJWTTokenInvalid)) || Is(e, App(ErrJWTParsingFailed)) || Is(e, App(ErrJWTSignatureInvalid)))
    then NewInvalidTokenError()
    else if InfraErrors.IsJWKSError(e) then NewUnauthorizedError(JWKSFailureText)
    else if InfraErrors.IsHTTPError(e) then NewUnauthorizedError(HTTPFailureText)
    else NewUnauthorizedError(OtherFailureText)
  }

  /** The validator's own JWT sentinels. */
  predicate IsAuthJWTError(e: Error)
  {
    Is(e, Auth(JWTParsingFailed)) || Is(e, Auth(JWTTokenInvalid)) || Is(e, Auth(JWTTokenExpired))
    || Is(e, Auth(JWTSignatureInvalid))
  }

  /** The translation with the validator's sentinels and its own JWKS and HTTP classifiers. */
  function ValidatorFailure(e: Error): (d: Error)
    ensures Is(e, Auth(JWTTokenExpired)) ==> d == NewTokenExpiredError()
    ensures !Is(e, Auth(JWTTokenExpired)) && CognitoErrors.IsInvalidTokenError(e) ==> d == NewInvalidTokenError()
    ensures !IsAuthJWTError(e) && CognitoErrors.IsJWKSError(e) ==> d == NewUnauthorizedError(JWKSFailureText)
    ensures !IsAuthJWTError(e) && !CognitoErrors.IsJWKSError(e) && CognitoErrors.IsHTTPError(e)
            ==> d == NewUnauthorizedError(HTTPFailureText)
    ensures !IsAuthJWTError(e) && !CognitoErrors.IsJWKSError(e) && !CognitoErrors.IsHTTPError(e)
            ==> d == NewUnauthorizedError(OtherFailureText)
  {
    CognitoErrors.TokenClassifiersArePlainIs(e);
    if IsAuthJWTError(e) && CognitoErrors.IsTokenExpiredError(e) then NewTokenExpiredError()
    else if IsAuthJWTError(e) && CognitoErrors.IsInvalidTokenError(e) then NewInvalidTokenError()
    else if CognitoErrors.IsJWKSError(e) then NewUnauthorizedError(JWKSFailureText)
    else if CognitoErrors.IsHTTPError(e) then NewUnauthorizedError(HTTPFailureText)
    else NewUnauthorizedError(OtherFailureText)
  }

  /**
   * As written, every validator error that carries no sentinel of the shared
   * error package (the validator's own sentinels, and a `*CognitoAuthError`
   * over them or over a library error) becomes the generic "authentication
   * failed", expired tokens included. Claims sentinels passed on by the
   * validator are outside this lemma.
   */
  lemma ValidatorErrorsGenericAsWritten(e: Error)
    requires forall a: AppSentinel :: !Is(e, App(a))
    ensures ValidatorFailureAsWritten(e) == NewUnauthorizedError(OtherFailureText)
    ensures ValidatorFailureAsWritten(Leaf(Auth(JWTTokenExpired))) == NewUnauthorizedError(OtherFailureText)
  {
  }

  /** As written, a key-set failure over a cause without a shared sentinel is the generic failure too. */
  lemma TaggedValidatorErrorsGenericAsWritten(cause: Option<Error>)
    requires forall a: AppSentinel :: !IsOpt(cause, App(a))
    ensures ValidatorFailureAsWritten(CognitoErrors.NewJWKSError(cause)) == NewUnauthorizedError(OtherFailureText)
  {
  }

  /** With the validator's classifiers, each token failure reaches its own domain error. */
  lemma ValidatorErrorsClassified()
    ensures ValidatorFailure(Leaf(Auth(JWTTokenExpired))) == NewTokenExpiredError()
    ensures ValidatorFailure(Leaf(Auth(JWTTokenInvalid))) == NewInvalidTokenError()
    ensures ValidatorFailure(Leaf(Auth(JWTSignatureInvalid))) == NewInvalidTokenError()
    ensures ValidatorFailure(CognitoErrors.NewJWTParsingError(Some(Leaf(Auth(JWTParsingFailed))))) == NewInvalidTokenError()
  {
  }

  /** A key-set or HTTP failure over a cause without a JWT sentinel gets its own unauthorized message. */
  lemma TaggedValidatorErrorsClassified(cause: Option<Error>)
    requires forall s: AuthSentinel :: !IsOpt(cause, Auth(s))
    ensures ValidatorFailure(CognitoErrors.NewJWKSError(cause)) == NewUnauthorizedError(JWKSFailureText)
    ensures ValidatorFailure(CognitoErrors.NewPublicKeyError(cause)) == NewUnauthorizedError(JWKSFailureText)
    ensures ValidatorFailure(CognitoErrors.NewHTTPError(cause)) == NewUnauthorizedError(HTTPFailureText)
  {
    CognitoErrors.TagClassifiers(cause, Auth(JWTTokenExpired));
  }

  /** The subject errors: the claims' two sentinels, else an invalid token. */
  function UserIDFailure(e: Error): (d: Error)
    ensures Is(e, App(ErrInvalidSubject)) ==> d == NewInvalidSubjectError()
    ensures !Is(e, App(ErrInvalidSubject)) && Is(e, App(ErrMissingSubject)) ==> d == NewMissingSubjectError()
    ensures !Is(e, App(ErrInvalidSubject)) && !Is(e, App(ErrMissingSubject)) ==> d == NewInvalidTokenError()
  {
    if Is(e, App(ErrInvalidSubject)) then NewInvalidSubjectError()
    else if Is(e, App(ErrMissingSubject)) then NewMissingSubjectError()
    else NewInvalidTokenError()
  }

  /** `GetUserID` fails only with a parser error, which is never a subject sentinel: an invalid token. */
  lemma UserIDFailureIsInvalidToken(c: ClaimsData)
    requires GetUserID(c).Failure?
    ensures UserIDFailure(GetUserID(c).error) == NewInvalidTokenError()
  {
  }

  // ---------------------------------------------------------------------
  // Authentication

  /** `getDevTokenAuthResult`. */
  function DevTokenAuthResult(): (r: Result<AuthResult, Error>)
    ensures r == Ok(AuthResult(DevUserID, DevClaims))
  {
    ParseCanonical(DevUserID);
    match Parse(DevUserID)
    case Failure(e) => Failure(NewInternalError(Some(Wrapped("dev-token ユーザーID解析エラー: ", e, ""))))
    case Ok(id) => Ok(AuthResult(id, DevClaims))
  }

  /** `authenticateWithCognito`, with validator errors mapped by the corrected `ValidatorFailure`. */
  function AuthenticateWithCognito(header: string, validate: string -> Result<ClaimsData, Error>)
    : (r: Result<AuthResult, Error>)
    ensures !HasPrefix(header, BearerPrefix) ==> r == Failure(NewInvalidFormatError())
    ensures header == BearerPrefix ==> r == Failure(NewInvalidTokenError())
    ensures HasPrefix(header, BearerPrefix) && header != BearerPrefix
            ==> (var answer := validate(header[|BearerPrefix|..]);
                 (answer.Failure? ==> r == Failure(ValidatorFailure(answer.error)))
                 && (answer.Ok? && GetUserID(answer.value).Failure? ==> r == Failure(NewInvalidTokenError()))
                 && (answer.Ok? && GetUserID(answer.value).Ok?
                     ==> r == Ok(AuthResult(GetUserID(answer.value).value, answer.value))))
  {
    if !HasPrefix(header, BearerPrefix) then Failure(NewInvalidFormatError())
    else
      var token := header[|BearerPrefix|..];
      if token == "" then Failure(NewInvalidTokenError())
      else match validate(token)
        case Failure(e) => Failure(ValidatorFailure(e))
        case Ok(claims) =>
          match GetUserID(claims)
          case Failure(e) =>
            UserIDFailureIsInvalidToken(claims);
            Failure(UserIDFailure(e))
          case Ok(id) => Ok(AuthResult(id, claims))
  }

  /** `Authenticate`, once the header is known. */
  function AuthenticateHeader(header: string, env: string, validate: string -> Result<ClaimsData, Error>)
    : (r: Result<AuthResult, Error>)
    ensures header == "" ==> r == Failure(NewTokenNotFoundError())
    ensures IsDevelopmentEnvironment(env) && header == DevHeader ==> r == Ok(AuthResult(DevUserID, DevClaims))
    ensures !IsDevelopmentEnvironment(env) && header == DevHeader ==> r == AuthenticateWithCognito(header, validate)
    ensures r.Ok? && r != Ok(AuthResult(DevUserID, DevClaims))
            ==> (HasPrefix(header, BearerPrefix) && validate(header[|BearerPrefix|..]) == Ok(r.value.claims)
                 && Parse(r.value.claims.subject) == Ok(r.value.userID))
  {
    if header == "" then Failure(NewTokenNotFoundError())
    else if IsDevelopmentEnvironment(env) && header == DevHeader then DevTokenAuthResult()
    else AuthenticateWithCognito(header, validate)
  }

  /** `Authenticate`: the header found, and what it leads to. */
  method Authenticate(headers: map<string, string>, env: string, validate: string -> Result<ClaimsData, Error>)
    returns (r: Result<AuthResult, Error>, header: string)
    ensures HeaderChoice(headers, header)
    ensures r == AuthenticateHeader(header, env, validate)
  {
    header := GetAuthorizationHeader(headers);
    if header == "" {
      return Failure(NewTokenNotFoundError()), header;
    }
    if IsDevelopmentEnvironment(env) && header == DevHeader {
      return DevTokenAuthResult(), header;
    }
    r := AuthenticateWithCognito(header, validate);
  }

  /** `GetUserIDFromRequest`: the authenticated user id, or the nil UUID with the error. */
  method GetUserIDFromRequest(headers: map<string, string>, env: string,
                              validate: string -> Result<ClaimsData, Error>)
    returns (id: Uuid, err: Option<Error>)
    ensures exists h :: HeaderChoice(headers, h)
                        && (var r := AuthenticateHeader(h, env, validate);
                            (r.Ok? ==> id == r.value.userID && err.None?)
                            && (r.Failure? ==> id == Nil && err == Some(r.error)))
  {
    var r, header := Authenticate(headers, env, validate);
    if r.Failure? {
      return Nil, Some(r.error);
    }
    return r.value.userID, None;
  }
}
