/**
 * Go `error` values as used by the backend.
 *
 * A sentinel (`errors.New`) is identified by the package that declares it and
 * its variable name: two sentinels with the same text in two packages are
 * different values, exactly as with `errors.New`. The structured error types
 * (`*DomainError`, `*InfrastructureError`, `*CognitoAuthError`) carry an
 * optional cause; `fmt.Errorf` with `%w` wraps one error between two texts; anything else
 * (driver, parser and library errors) is an opaque leaf that only has a text.
 */
module GoErrors {
  import opened Wrappers

  /** Sentinels of internal/errors (domain.go and infrastructure.go). */
  datatype AppSentinel =
    // domain.go
    | ErrUserNotFound | ErrUserEmailDuplicate | ErrUserInvalidData | ErrUserCreationFailed
    | ErrUserUpdateFailed | ErrUserDeleteFailed
    | ErrTaskNotFound | ErrTaskAlreadyDone | ErrTaskInvalidState | ErrTaskInProgress | ErrTaskInvalidType
    | ErrSessionNotFound | ErrSessionInProgress | ErrSessionAlreadyEnded | ErrSessionInvalidState
    | ErrRoundNotFound | ErrRoundAlreadyEnded | ErrRoundInProgress | ErrRoundInvalidState
    | ErrRoundInvalidType | ErrNoRoundsInSession
    | ErrUserConfigNotFound | ErrUserConfigInvalid | ErrUserConfigCreateFailed
    | ErrUserConfigUpdateFailed | ErrUserConfigDeleteFailed
    | ErrStatisticsNotFound | ErrStatisticsInvalid
    | ErrUnauthorized | ErrAccessDenied | ErrTokenExpired | ErrInvalidToken | ErrTokenNotFound
    | ErrInvalidFormat | ErrInvalidIssuer | ErrInvalidAudience | ErrInvalidSignature
    | ErrMissingSubject | ErrInvalidSubject | ErrMissingTokenUse | ErrInvalidTokenUse
    | ErrValidationFailed | ErrRequiredField | ErrInvalidValue | ErrInvalidEmail
    | ErrBusinessRuleViolation | ErrConflict | ErrNotFound | ErrBadRequest | ErrForbidden
    | ErrInternalError
    // infrastructure.go
    | ErrDatabaseConnection | ErrDatabaseQuery | ErrRecordNotFound | ErrUniqueConstraint
    | ErrTransactionFailed | ErrSQLExecution
    | ErrDynamoDBConnection | ErrDynamoDBOperation | ErrDynamoDBItemNotFound | ErrDynamoDBCondition
    | ErrHTTPRequest | ErrHTTPResponse | ErrHTTPTimeout | ErrHTTPStatusCode
    | ErrHTTPRequestFailed | ErrHTTPResponseInvalid
    | ErrJWTParsingFailed | ErrJWTTokenInvalid | ErrJWTTokenExpired | ErrJWTSignatureInvalid
    | ErrJWKSFetchFailed | ErrJWKSDecodeFailed | ErrPublicKeyNotFound | ErrPublicKeyInvalid
    | ErrKeyIDNotFound
    | ErrSQSSendFailed | ErrSQSConnectionFailed | ErrSQSMessageInvalid | ErrSQSTimeout
    | ErrConfigMissing | ErrConfigInvalid
    | ErrCacheExpired | ErrCacheNotFound | ErrCacheInvalid
    | ErrFileNotFound | ErrFileRead | ErrFileWrite | ErrFileInvalid
    | ErrNetworkConnection | ErrNetworkTimeout | ErrNetworkUnavailable
    | ErrExternalServiceUnavailable | ErrExternalServiceTimeout | ErrExternalServiceError

  /** Sentinels of infrastructure/repository/auth/errors (cognito.go). */
  datatype AuthSentinel =
    | JWTTokenNotFound | JWTTokenExpired | JWTTokenInvalid | JWTParsingFailed | JWTSignatureInvalid
    | JWTInvalidIssuer | JWTInvalidAudience | JWTMissingSubject | JWTInvalidSubject
    | JWTMissingTokenUse | JWTInvalidTokenUse
    | JWKSFetchFailed | JWKSDecodeFailed | PublicKeyNotFound | PublicKeyInvalid | KeyIDNotFound
    | HTTPRequestFailed | HTTPResponseInvalid
    | CacheExpired | CacheNotFound

  /** Sentinels of infrastructure/repository/postgres/errors (round.go). */
  datatype PgRoundSentinel =
    | PgRoundNotFound | PgRoundCreationFailed | PgRoundUpdateFailed | PgNoRoundsInSession
    | PgRoundAlreadyEnded

  /** Sentinels declared inside repository/dynamodb/userconfig_repository.go. */
  datatype DynamoConfigSentinel =
    | DynUserConfigNotFound | DynUserConfigCreateFailed | DynUserConfigUpdateFailed
    | DynUserConfigDeleteFailed

  /** Sentinels declared inside repository/postgres/user_repository.go. */
  datatype PgUserSentinel =
    | PgUserNotFound | PgUserCreationFailed | PgUserUpdateFailed | PgUserDeleteFailed
    | PgEmailAlreadyExists

  datatype Sentinel =
    | App(app: AppSentinel)
    | Auth(auth: AuthSentinel)
    | PgRound(pg: PgRoundSentinel)
    | DynamoConfig(dyn: DynamoConfigSentinel)
    | PgUser(pgUser: PgUserSentinel)

  datatype Error =
    | Leaf(sentinel: Sentinel)
    | Opaque(text: string)
    | Wrapped(prefix: string, inner: Error, suffix: string)
    | Domain(code: string, message: string, cause: Option<Error>)
    | Infra(component: string, operation: string, message: string, cause: Option<Error>)
    | Cognito(kind: string, message: string, cause: Option<Error>)

  /** The error that `errors.Unwrap` returns, if any. */
  function Unwrap(e: Error): (r: Option<Error>)
    ensures r.Some? ==> r.value < e
  {
    match e
    case Leaf(_) => None
    case Opaque(_) => None
    case Wrapped(_, inner, _) => Some(inner)
    case Domain(_, _, c) => c
    case Infra(_, _, _, c) => c
    case Cognito(_, _, c) => c
  }

  /**
   * `errors.Is(e, Leaf(t))`: some error on the unwrap chain is the sentinel.
   * `*CognitoAuthError` also has an `Is` method, which asks the same question
   * of its cause, so it adds nothing to the walk.
   */
  predicate Is(e: Error, t: Sentinel)
  {
    match e
    case Leaf(s) => s == t
    case Opaque(_) => false
    case Wrapped(_, inner, _) => Is(inner, t)
    case Domain(_, _, c) => c.Some? && Is(c.value, t)
    case Infra(_, _, _, c) => c.Some? && Is(c.value, t)
    case Cognito(_, _, c) => c.Some? && Is(c.value, t)
  }

  /** `errors.Is` with an optional error: a nil error is nothing. */
  predicate IsOpt(e: Option<Error>, t: Sentinel) { e.Some? && Is(e.value, t) }

  /** The unwrap chain, starting with the error itself. */
  function Chain(e: Error): (s: seq<Error>)
    ensures |s| > 0 && s[0] == e
  {
    match Unwrap(e)
    case None => [e]
    case Some(c) => [e] + Chain(c)
  }

  /** Reference definition of `errors.Is`: the sentinel occurs on the chain. */
  lemma {:induction false} IsIffOnChain(e: Error, t: Sentinel)
    ensures Is(e, t) <==> Leaf(t) in Chain(e)
  {
    match Unwrap(e)
    case None =>
    case Some(c) => IsIffOnChain(c, t);
  }

  /** Wrapping never hides a sentinel from `errors.Is`, and never adds one. */
  lemma WrapPreservesIs(prefix: string, e: Error, suffix: string, t: Sentinel)
    ensures Is(Wrapped(prefix, e, suffix), t) <==> Is(e, t)
  {
  }

  /** `errors.As(e, &*DomainError)`: the first `*DomainError` on the chain. */
  function AsDomain(e: Error): (r: Option<Error>)
    ensures r.Some? ==> r.value.Domain? && r.value in Chain(e)
  {
    if e.Domain? then Some(e)
    else match Unwrap(e)
      case None => None
      case Some(c) => AsDomain(c)
  }

  /** `errors.As(e, &*InfrastructureError)`. */
  function AsInfra(e: Error): (r: Option<Error>)
    ensures r.Some? ==> r.value.Infra? && r.value in Chain(e)
  {
    if e.Infra? then Some(e)
    else match Unwrap(e)
      case None => None
      case Some(c) => AsInfra(c)
  }

  /** `errors.As(e, &*CognitoAuthError)`. */
  function AsCognito(e: Error): (r: Option<Error>)
    ensures r.Some? ==> r.value.Cognito? && r.value in Chain(e)
  {
    if e.Cognito? then Some(e)
    else match Unwrap(e)
      case None => None
      case Some(c) => AsCognito(c)
  }

  /** `errors.As` for `*DomainError` finds one exactly when the chain holds one. */
  lemma {:induction false} AsDomainIffOnChain(e: Error)
    ensures AsDomain(e).Some? <==> exists x :: x in Chain(e) && x.Domain?
  {
    match Unwrap(e)
    case None =>
    case Some(c) =>
      AsDomainIffOnChain(c);
      assert Chain(e) == [e] + Chain(c);
  }

  /** `errors.As` for `*InfrastructureError` finds one exactly when the chain holds one. */
  lemma {:induction false} AsInfraIffOnChain(e: Error)
    ensures AsInfra(e).Some? <==> exists x :: x in Chain(e) && x.Infra?
  {
    match Unwrap(e)
    case None =>
    case Some(c) =>
      AsInfraIffOnChain(c);
      assert Chain(e) == [e] + Chain(c);
  }

  /** The text of `Error()` for each sentinel (the argument of its `errors.New`). */
  function SentinelText(s: Sentinel): string
  {
    match s
    case App(a) => AppText(a)
    case Auth(b) => AuthText(b)
    case PgRound(p) => (
      match p
      case PgRoundNotFound => "ラウンドが見つかりません"
      case PgRoundCreationFailed => "ラウンドの作成に失敗しました"
      case PgRoundUpdateFailed => "ラウンドの更新に失敗しました"
      case PgNoRoundsInSession => "セッションにラウンドが存在しません"
      case PgRoundAlreadyEnded => "ラウンドは既に終了しています")
    case DynamoConfig(d) => (
      match d
      case DynUserConfigNotFound => "ユーザー設定が見つかりません"
      case DynUserConfigCreateFailed => "ユーザー設定の作成に失敗しました"
      case DynUserConfigUpdateFailed => "ユーザー設定の更新に失敗しました"
      case DynUserConfigDeleteFailed => "ユーザー設定の削除に失敗しました")
    case PgUser(u) => (
      match u
      case PgUserNotFound => "ユーザーが見つかりません"
      case PgUserCreationFailed => "ユーザーの作成に失敗しました"
      case PgUserUpdateFailed => "ユーザーの更新に失敗しました"
      case PgUserDeleteFailed => "ユーザーの削除に失敗しました"
      case PgEmailAlreadyExists => "メールアドレスが既に使用されています")
  }

  function AuthText(b: AuthSentinel): string
  {
    match b
    case JWTTokenNotFound => "JWTトークンが見つかりません"
    case JWTTokenExpired => "JWTトークンの有効期限が切れています"
    case JWTTokenInvalid => "無効なJWTトークンです"
    case JWTParsingFailed => "JWTトークンの解析に失敗しました"
    case JWTSignatureInvalid => "JWTトークンの署名が無効です"
    case JWTInvalidIssuer => "JWTトークンの発行者が無効です"
    case JWTInvalidAudience => "JWTトークンのaudienceが無効です"
    case JWTMissingSubject => "JWTトークンのsubjectが見つかりません"
    case JWTInvalidSubject => "JWTトークンのsubjectが無効です"
    case JWTMissingTokenUse => "JWTトークンのtoken_useが見つかりません"
    case JWTInvalidTokenUse => "JWTトークンのtoken_useが無効です"
    case JWKSFetchFailed => "JWKS取得に失敗しました"
    case JWKSDecodeFailed => "JWKSデコードに失敗しました"
    case PublicKeyNotFound => "公開キーが見つかりません"
    case PublicKeyInvalid => "公開キーが無効です"
    case KeyIDNotFound => "指定されたKey IDが見つかりません"
    case HTTPRequestFailed => "HTTPリクエストに失敗しました"
    case HTTPResponseInvalid => "HTTPレスポンスが無効です"
    case CacheExpired => "キャッシュの有効期限が切れています"
    case CacheNotFound => "キャッシュが見つかりません"
  }

  function AppText(a: AppSentinel): string
  {
    match a
    case ErrUserNotFound => "user not found"
    case ErrUserEmailDuplicate => "email already exists"
    case ErrUserInvalidData => "invalid user data"
    case ErrUserCreationFailed => "user creation failed"
    case ErrUserUpdateFailed => "user update failed"
    case ErrUserDeleteFailed => "user delete failed"
    case ErrTaskNotFound => "task not found"
    case ErrTaskAlreadyDone => "task already completed"
    case ErrTaskInvalidState => "invalid task state"
    case ErrTaskInProgress => "task in progress"
    case ErrTaskInvalidType => "invalid task type"
    case ErrSessionNotFound => "session not found"
    case ErrSessionInProgress => "session already in progress"
    case ErrSessionAlreadyEnded => "session already ended"
    case ErrSessionInvalidState => "invalid session state"
    case ErrRoundNotFound => "round not found"
    case ErrRoundAlreadyEnded => "round already ended"
    case ErrRoundInProgress => "round in progress"
    case ErrRoundInvalidState => "invalid round state"
    case ErrRoundInvalidType => "invalid round type"
    case ErrNoRoundsInSession => "no rounds in session"
    case ErrUserConfigNotFound => "user config not found"
    case ErrUserConfigInvalid => "invalid user config"
    case ErrUserConfigCreateFailed => "user config creation failed"
    case ErrUserConfigUpdateFailed => "user config update failed"
    case ErrUserConfigDeleteFailed => "user config delete failed"
    case ErrStatisticsNotFound => "statistics not found"
    case ErrStatisticsInvalid => "invalid statistics data"
    case ErrUnauthorized => "authentication required"
    case ErrAccessDenied => "access denied"
    case ErrTokenExpired => "token expired"
    case ErrInvalidToken => "invalid token"
    case ErrTokenNotFound => "token not found"
    case ErrInvalidFormat => "invalid format"
    case ErrInvalidIssuer => "invalid issuer"
    case ErrInvalidAudience => "invalid audience"
    case ErrInvalidSignature => "invalid signature"
    case ErrMissingSubject => "missing subject"
    case ErrInvalidSubject => "invalid subject"
    case ErrMissingTokenUse => "missing token use"
    case ErrInvalidTokenUse => "invalid token use"
    case ErrValidationFailed => "validation failed"
    case ErrRequiredField => "required field missing"
    case ErrInvalidValue => "invalid value"
    case ErrInvalidEmail => "invalid email"
    case ErrBusinessRuleViolation => "business rule violation"
    case ErrConflict => "resource conflict"
    case ErrNotFound => "resource not found"
    case ErrBadRequest => "bad request"
    case ErrForbidden => "forbidden"
    case ErrInternalError => "internal error"
    case ErrDatabaseConnection => "database connection failed"
    case ErrDatabaseQuery => "database query failed"
    case ErrRecordNotFound => "record not found"
    case ErrUniqueConstraint => "unique constraint violation"
    case ErrTransactionFailed => "transaction failed"
    case ErrSQLExecution => "SQL execution failed"
    case ErrDynamoDBConnection => "DynamoDB connection failed"
    case ErrDynamoDBOperation => "DynamoDB operation failed"
    case ErrDynamoDBItemNotFound => "DynamoDB item not found"
    case ErrDynamoDBCondition => "DynamoDB condition failed"
    case ErrHTTPRequest => "HTTP request failed"
    case ErrHTTPResponse => "HTTP response invalid"
    case ErrHTTPTimeout => "HTTP timeout"
    case ErrHTTPStatusCode => "HTTP status code error"
    case ErrHTTPRequestFailed => "HTTP request failed"
    case ErrHTTPResponseInvalid => "HTTP response invalid"
    case ErrJWTParsingFailed => "JWT parsing failed"
    case ErrJWTTokenInvalid => "JWT token invalid"
    case ErrJWTTokenExpired => "JWT token expired"
    case ErrJWTSignatureInvalid => "JWT signature invalid"
    case ErrJWKSFetchFailed => "JWKS fetch failed"
    case ErrJWKSDecodeFailed => "JWKS decode failed"
    case ErrPublicKeyNotFound => "public key not found"
    case ErrPublicKeyInvalid => "public key invalid"
    case ErrKeyIDNotFound => "key ID not found"
    case ErrSQSSendFailed => "SQS send failed"
    case ErrSQSConnectionFailed => "SQS connection failed"
    case ErrSQSMessageInvalid => "SQS message invalid"
    case ErrSQSTimeout => "SQS timeout"
    case ErrConfigMissing => "configuration missing"
    case ErrConfigInvalid => "configuration invalid"
    case ErrCacheExpired => "cache expired"
    case ErrCacheNotFound => "cache not found"
    case ErrCacheInvalid => "cache invalid"
    case ErrFileNotFound => "file not found"
    case ErrFileRead => "file read failed"
    case ErrFileWrite => "file write failed"
    case ErrFileInvalid => "file invalid"
    case ErrNetworkConnection => "network connection failed"
    case ErrNetworkTimeout => "network timeout"
    case ErrNetworkUnavailable => "network unavailable"
    case ErrExternalServiceUnavailable => "external service unavailable"
    case ErrExternalServiceTimeout => "external service timeout"
    case ErrExternalServiceError => "external service error"
  }

  /** `e.Error()`: the `%v` rendering of each kind of error. */
  function Render(e: Error): string
  {
    match e
    case Leaf(s) => SentinelText(s)
    case Opaque(t) => t
    case Wrapped(p, inner, q) => p + Render(inner) + q
    case Domain(_, m, c) => if c.Some? then m + ": " + Render(c.value) else m
    case Infra(comp, op, m, c) =>
      comp + "." + op + " failed: " + m + (if c.Some? then " (" + Render(c.value) + ")" else "")
    case Cognito(k, m, c) =>
      "Cognito認証エラー [" + k + "]: " + m + (if c.Some? then " (原因: " + Render(c.value) + ")" else "")
  }

  /** Same-text sentinels stay distinct for `errors.Is`. */
  lemma SameTextDistinctIdentity()
    ensures SentinelText(App(ErrHTTPRequest)) == SentinelText(App(ErrHTTPRequestFailed))
    ensures !Is(Leaf(App(ErrHTTPRequestFailed)), App(ErrHTTPRequest))
  {
    assert AppText(ErrHTTPRequest) == "HTTP request failed";
    assert AppText(ErrHTTPRequestFailed) == "HTTP request failed";
  }
}
