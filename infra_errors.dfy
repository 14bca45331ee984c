/**
 * Structured infrastructure errors of internal/errors/infrastructure.go:
 * `*InfrastructureError` with component, operation, message and cause, the
 * per-component helpers, and the sentinel-based classification predicates.
 */
module InfraErrors {
  import opened Wrappers
  import opened GoErrors
  import Text

  function NewInfrastructureError(component: string, operation: string, message: string, cause: Option<Error>): Error
  {
    Infra(component, operation, message, cause)
  }

  function NewDatabaseError(operation: string, cause: Option<Error>): Error { NewInfrastructureError("database", operation, "データベースエラー", cause) }
  function NewDatabaseConnectionError(cause: Option<Error>): Error { NewInfrastructureError("database", "connect", "データベース接続エラー", cause) }
  function NewDatabaseQueryError(cause: Option<Error>): Error { NewInfrastructureError("database", "query", "データベースクエリエラー", cause) }
  function NewTransactionError(cause: Option<Error>): Error { NewInfrastructureError("database", "transaction", "トランザクションエラー", cause) }
  function NewSQLExecutionError(cause: Option<Error>): Error { NewInfrastructureError("database", "execute", "SQL実行エラー", cause) }
  function NewUniqueConstraintError(cause: Option<Error>): Error { NewInfrastructureError("database", "constraint", "一意制約違反", cause) }
  function NewDynamoDBError(operation: string, cause: Option<Error>): Error { NewInfrastructureError("dynamodb", operation, "DynamoDBエラー", cause) }
  function NewDynamoDBConnectionError(cause: Option<Error>): Error { NewInfrastructureError("dynamodb", "connect", "DynamoDB接続エラー", cause) }
  function NewDynamoDBOperationError(operation: string, cause: Option<Error>): Error { NewInfrastructureError("dynamodb", operation, "DynamoDB操作エラー", cause) }
  function NewDynamoDBConditionError(cause: Option<Error>): Error { NewInfrastructureError("dynamodb", "condition", "DynamoDB条件エラー", cause) }
  function NewHTTPError(operation: string, cause: Option<Error>): Error { NewInfrastructureError("http", operation, "HTTP通信エラー", cause) }
  function NewHTTPRequestError(cause: Option<Error>): Error { NewInfrastructureError("http", "request", "HTTPリクエストエラー", cause) }
  function NewHTTPResponseError(cause: Option<Error>): Error { NewInfrastructureError("http", "response", "HTTPレスポンスエラー", cause) }
  function NewHTTPTimeoutError(cause: Option<Error>): Error { NewInfrastructureError("http", "timeout", "HTTPタイムアウトエラー", cause) }
  function NewHTTPStatusCodeError(statusCode: int, cause: Option<Error>): Error
  {
    NewInfrastructureError("http", "status", "HTTPステータスコードエラー: " + Text.Itoa(statusCode), cause)
  }
  function NewJWTError(operation: string, cause: Option<Error>): Error { NewInfrastructureError("jwt", operation, "JWT認証エラー", cause) }
  function NewJWTParsingError(cause: Option<Error>): Error { NewInfrastructureError("jwt", "parse", "JWT解析エラー", cause) }
  function NewJWTValidationError(cause: Option<Error>): Error { NewInfrastructureError("jwt", "validate", "JWT検証エラー", cause) }
  function NewJWTSignatureError(cause: Option<Error>): Error { NewInfrastructureError("jwt", "signature", "JWT署名エラー", cause) }
  function NewJWKSError(operation: string, cause: Option<Error>): Error { NewInfrastructureError("jwks", operation, "JWKSエラー", cause) }
  function NewJWKSFetchError(cause: Option<Error>): Error { NewInfrastructureError("jwks", "fetch", "JWKS取得エラー", cause) }
  function NewJWKSDecodeError(cause: Option<Error>): Error { NewInfrastructureError("jwks", "decode", "JWKSデコードエラー", cause) }
  function NewPublicKeyError(cause: Option<Error>): Error { NewInfrastructureError("jwks", "public_key", "公開キーエラー", cause) }
  function NewSQSError(operation: string, cause: Option<Error>): Error { NewInfrastructureError("sqs", operation, "SQSエラー", cause) }
  function NewSQSSendError(cause: Option<Error>): Error { NewInfrastructureError("sqs", "send", "SQS送信エラー", cause) }
  function NewSQSConnectionError(cause: Option<Error>): Error { NewInfrastructureError("sqs", "connect", "SQS接続エラー", cause) }
  function NewSQSTimeoutError(cause: Option<Error>): Error { NewInfrastructureError("sqs", "timeout", "SQSタイムアウトエラー", cause) }
  function NewConfigError(key: string, cause: Option<Error>): Error { NewInfrastructureError("config", "load", "設定エラー: " + key, cause) }
  function NewConfigMissingError(key: string): Error
  {
    NewInfrastructureError("config", "missing", "必須設定が見つかりません: " + key, Some(Leaf(App(ErrConfigMissing))))
  }
  function NewConfigInvalidError(key: string, cause: Option<Error>): Error { NewInfrastructureError("config", "invalid", "無効な設定値: " + key, cause) }
  function NewCacheError(operation: string, cause: Option<Error>): Error { NewInfrastructureError("cache", operation, "キャッシュエラー", cause) }
  function NewCacheExpiredError(): Error { NewInfrastructureError("cache", "expired", "キャッシュの有効期限切れ", Some(Leaf(App(ErrCacheExpired)))) }
  function NewCacheNotFoundError(): Error { NewInfrastructureError("cache", "not_found", "キャッシュが見つかりません", Some(Leaf(App(ErrCacheNotFound)))) }
  function NewExternalServiceError(service: string, operation: string, cause: Option<Error>): Error
  {
    NewInfrastructureError("external", operation, "外部サービスエラー: " + service, cause)
  }
  function NewExternalServiceUnavailableError(service: string): Error
  {
    NewInfrastructureError("external", "unavailable", "外部サービス利用不可: " + service, Some(Leaf(App(ErrExternalServiceUnavailable))))
  }
  function NewExternalServiceTimeoutError(service: string): Error
  {
    NewInfrastructureError("external", "timeout", "外部サービスタイムアウト: " + service, Some(Leaf(App(ErrExternalServiceTimeout))))
  }

  predicate IsInfrastructureErrorType(e: Error) { AsInfra(e).Some? }

  predicate IsInfrastructureError(e: Error)
  {
    AsInfra(e).Some? || Is(e, App(ErrDatabaseConnection)) || Is(e, App(ErrHTTPRequest))
    || Is(e, App(ErrSQSSendFailed)) || Is(e, App(ErrDynamoDBOperation))
    || Is(e, App(ErrJWTParsingFailed)) || Is(e, App(ErrJWKSFetchFailed))
  }

  predicate IsDatabaseError(e: Error)
  {
    Is(e, App(ErrDatabaseConnection)) || Is(e, App(ErrDatabaseQuery)) || Is(e, App(ErrRecordNotFound))
    || Is(e, App(ErrTransactionFailed)) || Is(e, App(ErrSQLExecution)) || Is(e, App(ErrUniqueConstraint))
  }

  predicate IsDynamoDBError(e: Error)
  {
    Is(e, App(ErrDynamoDBConnection)) || Is(e, App(ErrDynamoDBOperation))
    || Is(e, App(ErrDynamoDBItemNotFound)) || Is(e, App(ErrDynamoDBCondition))
  }

  predicate IsHTTPError(e: Error)
  {
    Is(e, App(ErrHTTPRequest)) || Is(e, App(ErrHTTPResponse)) || Is(e, App(ErrHTTPTimeout))
    || Is(e, App(ErrHTTPStatusCode))
  }

  predicate IsJWTError(e: Error)
  {
    Is(e, App(ErrJWTParsingFailed)) || Is(e, App(ErrJWTTokenInvalid)) || Is(e, App(ErrJWTTokenExpired))
    || Is(e, App(ErrJWTSignatureInvalid))
  }

  predicate IsJWKSError(e: Error)
  {
    Is(e, App(ErrJWKSFetchFailed)) || Is(e, App(ErrJWKSDecodeFailed)) || Is(e, App(ErrPublicKeyNotFound))
    || Is(e, App(ErrPublicKeyInvalid)) || Is(e, App(ErrKeyIDNotFound))
  }

  predicate IsSQSError(e: Error)
  {
    Is(e, App(ErrSQSSendFailed)) || Is(e, App(ErrSQSConnectionFailed)) || Is(e, App(ErrSQSTimeout))
  }

  predicate IsExternalServiceError(e: Error)
  {
    Is(e, App(ErrHTTPRequest)) || Is(e, App(ErrSQSSendFailed)) || Is(e, App(ErrDynamoDBOperation))
    || Is(e, App(ErrExternalServiceUnavailable)) || Is(e, App(ErrExternalServiceTimeout))
  }

  predicate IsNetworkError(e: Error)
  {
    Is(e, App(ErrNetworkConnection)) || Is(e, App(ErrNetworkTimeout)) || Is(e, App(ErrNetworkUnavailable))
    || Is(e, App(ErrHTTPTimeout)) || Is(e, App(ErrSQSTimeout))
  }

  predicate IsConfigError(e: Error) { Is(e, App(ErrConfigMissing)) || Is(e, App(ErrConfigInvalid)) }

  predicate IsCacheError(e: Error)
  {
    Is(e, App(ErrCacheExpired)) || Is(e, App(ErrCacheNotFound)) || Is(e, App(ErrCacheInvalid))
  }

  predicate IsTokenExpiredError(e: Error) { Is(e, App(ErrJWTTokenExpired)) }

  predicate IsInvalidTokenError(e: Error)
  {
    Is(e, App(ErrJWTTokenInvalid)) || Is(e, App(ErrJWTParsingFailed)) || Is(e, App(ErrJWTSignatureInvalid))
  }

  predicate IsRecordNotFoundError(e: Error) { Is(e, App(ErrRecordNotFound)) || Is(e, App(ErrDynamoDBItemNotFound)) }

  predicate IsConnectionError(e: Error)
  {
    Is(e, App(ErrDatabaseConnection)) || Is(e, App(ErrDynamoDBConnection))
    || Is(e, App(ErrSQSConnectionFailed)) || Is(e, App(ErrNetworkConnection))
  }

  predicate IsTimeoutError(e: Error)
  {
    Is(e, App(ErrHTTPTimeout)) || Is(e, App(ErrSQSTimeout)) || Is(e, App(ErrNetworkTimeout))
    || Is(e, App(ErrExternalServiceTimeout))
  }

  /** `Error()`: "component.operation failed: message", then " (cause)" when there is one. */
  lemma InfraRender(component: string, operation: string, message: string, cause: Option<Error>)
    ensures cause.None? ==>
      Render(NewInfrastructureError(component, operation, message, cause)) == component + "." + operation + " failed: " + message
    ensures cause.Some? ==>
      Render(NewInfrastructureError(component, operation, message, cause))
        == component + "." + operation + " failed: " + message + " (" + Render(cause.value) + ")"
  {
  }

  /** Unwrap gives the cause, so a helper answers `errors.Is` as its cause does; every helper is structured. */
  lemma InfraUnwrap(component: string, operation: string, message: string, cause: Option<Error>, t: Sentinel)
    ensures Unwrap(NewInfrastructureError(component, operation, message, cause)) == cause
    ensures Is(NewInfrastructureError(component, operation, message, cause), t) <==> IsOpt(cause, t)
    ensures IsInfrastructureErrorType(NewInfrastructureError(component, operation, message, cause))
    ensures IsInfrastructureError(NewInfrastructureError(component, operation, message, cause))
  {
  }

  /** An infrastructure error anywhere on the chain makes the whole error one. */
  lemma {:induction false} InfraAnywhereOnChain(e: Error, x: Error)
    requires x in Chain(e) && x.Infra?
    ensures IsInfrastructureErrorType(e) && IsInfrastructureError(e)
  {
    AsInfraIffOnChain(e);
  }

  /** The status-code helper embeds the decimal code in its message, under http.status. */
  lemma StatusCodeMessage(statusCode: int, cause: Option<Error>)
    ensures NewHTTPStatusCodeError(statusCode, cause).component == "http"
    ensures NewHTTPStatusCodeError(statusCode, cause).operation == "status"
    ensures Text.Contains(NewHTTPStatusCodeError(statusCode, cause).message, Text.Itoa(statusCode))
  {
    var m := NewHTTPStatusCodeError(statusCode, cause).message;
    var k := |"HTTPステータスコードエラー: "|;
    assert Text.OccursAt(m, Text.Itoa(statusCode), k);
  }

  /** Helpers built on a sentinel cause satisfy the matching predicates. */
  lemma SentinelHelpersClassified(key: string, service: string)
    ensures IsConfigError(NewConfigMissingError(key))
    ensures IsCacheError(NewCacheExpiredError()) && IsCacheError(NewCacheNotFoundError())
    ensures IsExternalServiceError(NewExternalServiceUnavailableError(service))
    ensures IsExternalServiceError(NewExternalServiceTimeoutError(service))
    ensures IsTimeoutError(NewExternalServiceTimeoutError(service))
    ensures !IsNetworkError(NewExternalServiceTimeoutError(service))
  {
    var t := NewExternalServiceTimeoutError(service);
    assert Unwrap(t) == Some(Leaf(App(ErrExternalServiceTimeout)));
    assert forall s :: Is(t, s) == Is(Leaf(App(ErrExternalServiceTimeout)), s);
  }

  /** A `%w` wrapper never changes how an error is classified. */
  lemma ClassifiersSeeThroughWrapping(prefix: string, e: Error, suffix: string)
    ensures var w := Wrapped(prefix, e, suffix);
            && (IsInfrastructureErrorType(w) <==> IsInfrastructureErrorType(e))
            && (IsInfrastructureError(w) <==> IsInfrastructureError(e))
            && (IsDatabaseError(w) <==> IsDatabaseError(e))
            && (IsDynamoDBError(w) <==> IsDynamoDBError(e))
            && (IsHTTPError(w) <==> IsHTTPError(e))
            && (IsJWTError(w) <==> IsJWTError(e))
            && (IsJWKSError(w) <==> IsJWKSError(e))
            && (IsSQSError(w) <==> IsSQSError(e))
            && (IsExternalServiceError(w) <==> IsExternalServiceError(e))
            && (IsNetworkError(w) <==> IsNetworkError(e))
            && (IsConfigError(w) <==> IsConfigError(e))
            && (IsCacheError(w) <==> IsCacheError(e))
            && (IsTokenExpiredError(w) <==> IsTokenExpiredError(e))
            && (IsInvalidTokenError(w) <==> IsInvalidTokenError(e))
            && (IsRecordNotFoundError(w) <==> IsRecordNotFoundError(e))
            && (IsConnectionError(w) <==> IsConnectionError(e))
            && (IsTimeoutError(w) <==> IsTimeoutError(e))
  {
  }

  /** The two "HTTP request failed" sentinels share a text but only one is an HTTP error. */
  lemma SameTextDifferentClass()
    ensures SentinelText(App(ErrHTTPRequest)) == SentinelText(App(ErrHTTPRequestFailed))
    ensures IsHTTPError(Leaf(App(ErrHTTPRequest))) && !IsHTTPError(Leaf(App(ErrHTTPRequestFailed)))
  {
    assert AppText(ErrHTTPRequest) == "HTTP request failed";
    assert AppText(ErrHTTPRequestFailed) == "HTTP request failed";
  }
}
