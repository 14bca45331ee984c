/**
 * `*CognitoAuthError` of infrastructure/repository/auth/errors/cognito.go:
 * an error type tag, a message and a cause, its `Error`/`Unwrap`/`Is`
 * methods, the tagged constructors, and the classifiers.
 */
module CognitoErrors {
  import opened Wrappers
  import opened GoErrors

  function NewCognitoAuthError(kind: string, message: string, cause: Option<Error>): Error
  {
    Cognito(kind, message, cause)
  }

  function NewJWTParsingError(cause: Option<Error>): Error { NewCognitoAuthError("JWT_PARSING", "JWTトークンの解析に失敗しました", cause) }
  function NewPublicKeyError(cause: Option<Error>): Error { NewCognitoAuthError("PUBLIC_KEY", "公開キーの取得または処理に失敗しました", cause) }
  function NewJWKSError(cause: Option<Error>): Error { NewCognitoAuthError("JWKS", "JWKS取得に失敗しました", cause) }
  function NewHTTPError(cause: Option<Error>): Error { NewCognitoAuthError("HTTP", "HTTP通信に失敗しました", cause) }

  /** Expired: through the first `*CognitoAuthError`'s cause if there is one, else on the error itself. */
  predicate IsTokenExpiredError(e: Error)
  {
    match AsCognito(e)
    case Some(c) => IsOpt(c.cause, Auth(JWTTokenExpired))
    case None => Is(e, Auth(JWTTokenExpired))
  }

  predicate IsInvalidTokenError(e: Error)
  {
    match AsCognito(e)
    case Some(c) =>
      IsOpt(c.cause, Auth(JWTTokenInvalid)) || IsOpt(c.cause, Auth(JWTParsingFailed))
      || IsOpt(c.cause, Auth(JWTSignatureInvalid))
    case None =>
      Is(e, Auth(JWTTokenInvalid)) || Is(e, Auth(JWTParsingFailed)) || Is(e, Auth(JWTSignatureInvalid))
  }

  predicate IsJWKSError(e: Error)
  {
    match AsCognito(e)
    case Some(c) => c.kind == "JWKS" || c.kind == "PUBLIC_KEY"
    case None => false
  }

  predicate IsHTTPError(e: Error)
  {
    match AsCognito(e)
    case Some(c) => c.kind == "HTTP"
    case None => false
  }

  /** `Error()` renders the tag and message, with " (原因: cause)" only when there is a cause. */
  lemma CognitoRender(kind: string, message: string, cause: Option<Error>)
    ensures cause.None? ==>
      Render(NewCognitoAuthError(kind, message, cause)) == "Cognito認証エラー [" + kind + "]: " + message
    ensures cause.Some? ==>
      Render(NewCognitoAuthError(kind, message, cause))
        == "Cognito認証エラー [" + kind + "]: " + message + " (原因: " + Render(cause.value) + ")"
  {
  }

  /** `Unwrap` returns the cause and `Is(target)` is `errors.Is(Cause, target)`. */
  lemma CognitoUnwrapIs(kind: string, message: string, cause: Option<Error>, t: Sentinel)
    ensures Unwrap(NewCognitoAuthError(kind, message, cause)) == cause
    ensures Is(NewCognitoAuthError(kind, message, cause), t) <==> IsOpt(cause, t)
  {
  }

  /** The first `*CognitoAuthError` on the chain answers `errors.Is` as the whole error does. */
  lemma {:induction false} FirstCognitoAgrees(e: Error, t: Sentinel)
    requires AsCognito(e).Some?
    ensures IsOpt(AsCognito(e).value.cause, t) <==> Is(e, t)
  {
    if !e.Cognito? {
      match Unwrap(e)
      case Some(c) => FirstCognitoAgrees(c, t);
    }
  }

  /** The `errors.As` branch of the token classifiers changes nothing: they are plain `errors.Is` tests. */
  lemma TokenClassifiersArePlainIs(e: Error)
    ensures IsTokenExpiredError(e) <==> Is(e, Auth(JWTTokenExpired))
    ensures IsInvalidTokenError(e) <==>
      (Is(e, Auth(JWTTokenInvalid)) || Is(e, Auth(JWTParsingFailed)) || Is(e, Auth(JWTSignatureInvalid)))
  {
    if AsCognito(e).Some? {
      FirstCognitoAgrees(e, Auth(JWTTokenExpired));
      FirstCognitoAgrees(e, Auth(JWTTokenInvalid));
      FirstCognitoAgrees(e, Auth(JWTParsingFailed));
      FirstCognitoAgrees(e, Auth(JWTSignatureInvalid));
    }
  }

  /** The tag classifiers: JWKS and PUBLIC_KEY are JWKS errors, HTTP is an HTTP error, a bare sentinel is neither. */
  lemma TagClassifiers(cause: Option<Error>, s: Sentinel)
    ensures IsJWKSError(NewJWKSError(cause)) && IsJWKSError(NewPublicKeyError(cause))
    ensures !IsJWKSError(NewHTTPError(cause)) && !IsJWKSError(NewJWTParsingError(cause))
    ensures IsHTTPError(NewHTTPError(cause)) && !IsHTTPError(NewJWKSError(cause))
    ensures !IsJWKSError(Leaf(s)) && !IsHTTPError(Leaf(s))
  {
  }
}
