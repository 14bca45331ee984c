/**
 * Structured domain errors of internal/errors/domain.go: `*DomainError`
 * carrying a code, a user-facing message and a cause, the fixed constructors
 * (each wraps its own sentinel), the message-taking constructors with their
 * default texts, and the classification predicates.
 */
module DomainErrors {
  import opened Wrappers
  import opened GoErrors

  function NewDomainError(code: string, message: string, cause: Option<Error>): Error
  {
    Domain(code, message, cause)
  }

  /** A fixed constructor: a code, a message and the sentinel it wraps. */
  function Fixed(code: string, message: string, s: AppSentinel): Error
  {
    NewDomainError(code, message, Some(Leaf(App(s))))
  }

  function NewUserNotFoundError(): Error { Fixed("USER_NOT_FOUND", "ユーザーが見つかりません", ErrUserNotFound) }
  function NewEmailAlreadyExistsError(): Error { Fixed("EMAIL_ALREADY_EXISTS", "メールアドレスが既に使用されています", ErrUserEmailDuplicate) }
  function NewUserCreationFailedError(): Error { Fixed("USER_CREATION_FAILED", "ユーザーの作成に失敗しました", ErrUserCreationFailed) }
  function NewUserUpdateFailedError(): Error { Fixed("USER_UPDATE_FAILED", "ユーザーの更新に失敗しました", ErrUserUpdateFailed) }
  function NewUserDeleteFailedError(): Error { Fixed("USER_DELETE_FAILED", "ユーザーの削除に失敗しました", ErrUserDeleteFailed) }
  function NewInvalidUserDataError(): Error { Fixed("INVALID_USER_DATA", "無効なユーザーデータです", ErrUserInvalidData) }
  function NewTaskNotFoundError(): Error { Fixed("TASK_NOT_FOUND", "タスクが見つかりません", ErrTaskNotFound) }
  function NewTaskAlreadyDoneError(): Error { Fixed("TASK_ALREADY_DONE", "タスクは既に完了しています", ErrTaskAlreadyDone) }
  function NewInvalidTaskStateError(): Error { Fixed("INVALID_TASK_STATE", "タスクの状態が無効です", ErrTaskInvalidState) }
  function NewTaskInProgressError(): Error { Fixed("TASK_IN_PROGRESS", "既に進行中のタスクが存在します", ErrTaskInProgress) }
  function NewInvalidTaskTypeError(): Error { Fixed("INVALID_TASK_TYPE", "無効なタスクタイプです", ErrTaskInvalidType) }
  function NewSessionNotFoundError(): Error { Fixed("SESSION_NOT_FOUND", "セッションが見つかりません", ErrSessionNotFound) }
  function NewSessionInProgressError(): Error { Fixed("SESSION_IN_PROGRESS", "既に進行中のセッションが存在します", ErrSessionInProgress) }
  function NewSessionAlreadyEndedError(): Error { Fixed("SESSION_ALREADY_ENDED", "セッションは既に終了しています", ErrSessionAlreadyEnded) }
  function NewInvalidSessionStateError(): Error { Fixed("INVALID_SESSION_STATE", "セッションの状態が無効です", ErrSessionInvalidState) }
  function NewRoundNotFoundError(): Error { Fixed("ROUND_NOT_FOUND", "ラウンドが見つかりません", ErrRoundNotFound) }
  function NewRoundAlreadyEndedError(): Error { Fixed("ROUND_ALREADY_ENDED", "ラウンドは既に終了しています", ErrRoundAlreadyEnded) }
  function NewRoundInProgressError(): Error { Fixed("ROUND_IN_PROGRESS", "既に進行中のラウンドが存在します", ErrRoundInProgress) }
  function NewInvalidRoundStateError(): Error { Fixed("INVALID_ROUND_STATE", "ラウンドの状態が無効です", ErrRoundInvalidState) }
  function NewInvalidRoundTypeError(): Error { Fixed("INVALID_ROUND_TYPE", "無効なラウンドタイプです", ErrRoundInvalidType) }
  function NewUserConfigNotFoundError(): Error { Fixed("USER_CONFIG_NOT_FOUND", "ユーザー設定が見つかりません", ErrUserConfigNotFound) }
  function NewUserConfigCreateFailedError(): Error { Fixed("USER_CONFIG_CREATE_FAILED", "ユーザー設定の作成に失敗しました", ErrUserConfigCreateFailed) }
  function NewUserConfigUpdateFailedError(): Error { Fixed("USER_CONFIG_UPDATE_FAILED", "ユーザー設定の更新に失敗しました", ErrUserConfigUpdateFailed) }
  function NewUserConfigDeleteFailedError(): Error { Fixed("USER_CONFIG_DELETE_FAILED", "ユーザー設定の削除に失敗しました", ErrUserConfigDeleteFailed) }
  function NewInvalidUserConfigError(): Error { Fixed("INVALID_USER_CONFIG", "無効なユーザー設定です", ErrUserConfigInvalid) }
  function NewTokenNotFoundError(): Error { Fixed("TOKEN_NOT_FOUND", "Authorizationヘッダーが見つかりません", ErrTokenNotFound) }
  function NewInvalidTokenError(): Error { Fixed("INVALID_TOKEN", "無効なJWTトークンです", ErrInvalidToken) }
  function NewTokenExpiredError(): Error { Fixed("TOKEN_EXPIRED", "JWTトークンの有効期限が切れています", ErrTokenExpired) }
  function NewInvalidFormatError(): Error { Fixed("INVALID_FORMAT", "Authorizationヘッダーの形式が無効です", ErrInvalidFormat) }
  function NewInvalidIssuerError(): Error { Fixed("INVALID_ISSUER", "トークンの発行者が無効です", ErrInvalidIssuer) }
  function NewInvalidAudienceError(): Error { Fixed("INVALID_AUDIENCE", "トークンのaudienceが無効です", ErrInvalidAudience) }
  function NewInvalidSignatureError(): Error { Fixed("INVALID_SIGNATURE", "トークンの署名が無効です", ErrInvalidSignature) }
  function NewMissingSubjectError(): Error { Fixed("MISSING_SUBJECT", "subjectクレームが見つかりません", ErrMissingSubject) }
  function NewInvalidSubjectError(): Error { Fixed("INVALID_SUBJECT", "subjectクレームが無効です", ErrInvalidSubject) }
  function NewMissingTokenUseError(): Error { Fixed("MISSING_TOKEN_USE", "token_useクレームが見つかりません", ErrMissingTokenUse) }
  function NewInvalidTokenUseError(): Error { Fixed("INVALID_TOKEN_USE", "token_useクレームが無効です", ErrInvalidTokenUse) }

  /** A message-taking constructor: the empty message is replaced by `default`. */
  function WithDefault(code: string, message: string, default: string, s: AppSentinel): (e: Error)
  {
    NewDomainError(code, if message == "" then default else message, Some(Leaf(App(s))))
  }

  function NewUnauthorizedError(message: string): Error { WithDefault("UNAUTHORIZED", message, "認証が必要です", ErrUnauthorized) }
  function NewValidationError(message: string): Error { WithDefault("VALIDATION_ERROR", message, "バリデーションエラーが発生しました", ErrValidationFailed) }
  function NewBadRequestError(message: string): Error { WithDefault("BAD_REQUEST", message, "不正なリクエストです", ErrBadRequest) }
  function NewNotFoundError(message: string): Error { WithDefault("NOT_FOUND", message, "リソースが見つかりません", ErrNotFound) }
  function NewForbiddenError(message: string): Error { WithDefault("FORBIDDEN", message, "アクセス権限がありません", ErrForbidden) }
  function NewConflictError(message: string): Error { WithDefault("CONFLICT", message, "リソースが既に存在します", ErrConflict) }

  /** The internal error keeps the cause it is given, whatever it is. */
  function NewInternalError(cause: Option<Error>): Error
  {
    NewDomainError("INTERNAL_ERROR", "内部サーバーエラーが発生しました", cause)
  }

  predicate IsBusinessError(e: Error)
  {
    Is(e, App(ErrUserNotFound)) || Is(e, App(ErrTaskNotFound)) || Is(e, App(ErrSessionNotFound))
    || Is(e, App(ErrRoundNotFound)) || Is(e, App(ErrUserConfigNotFound)) || Is(e, App(ErrUnauthorized))
    || Is(e, App(ErrValidationFailed)) || Is(e, App(ErrBusinessRuleViolation))
  }

  predicate IsNotFoundError(e: Error)
  {
    Is(e, App(ErrUserNotFound)) || Is(e, App(ErrTaskNotFound)) || Is(e, App(ErrSessionNotFound))
    || Is(e, App(ErrRoundNotFound)) || Is(e, App(ErrUserConfigNotFound)) || Is(e, App(ErrStatisticsNotFound))
  }

  predicate IsAuthError(e: Error)
  {
    Is(e, App(ErrUnauthorized)) || Is(e, App(ErrAccessDenied)) || Is(e, App(ErrTokenExpired))
    || Is(e, App(ErrInvalidToken)) || Is(e, App(ErrTokenNotFound))
  }

  predicate IsValidationError(e: Error)
  {
    Is(e, App(ErrValidationFailed)) || Is(e, App(ErrRequiredField)) || Is(e, App(ErrInvalidValue))
    || Is(e, App(ErrInvalidEmail))
  }

  predicate IsConflictError(e: Error)
  {
    Is(e, App(ErrSessionInProgress)) || Is(e, App(ErrRoundInProgress)) || Is(e, App(ErrTaskInProgress))
    || Is(e, App(ErrConflict))
  }

  predicate IsAuthenticationError(e: Error) { IsAuthError(e) }

  predicate IsDomainError(e: Error) { AsDomain(e).Some? }

  /** `Error()` of a domain error: the message, then ": " and the cause when there is one. */
  lemma DomainRender(code: string, message: string, cause: Option<Error>)
    ensures cause.None? ==> Render(NewDomainError(code, message, cause)) == message
    ensures cause.Some? ==> Render(NewDomainError(code, message, cause)) == message + ": " + Render(cause.value)
  {
  }

  /** Unwrap gives the cause, so every fixed constructor `Is` its own sentinel and no other. */
  lemma FixedIsOwnSentinel(code: string, message: string, s: AppSentinel, t: Sentinel)
    ensures Unwrap(Fixed(code, message, s)) == Some(Leaf(App(s)))
    ensures Is(Fixed(code, message, s), t) <==> t == App(s)
    ensures IsDomainError(Fixed(code, message, s))
  {
  }

  /** Message-taking constructors: the default replaces exactly the empty message. */
  lemma DefaultMessage(code: string, message: string, default: string, s: AppSentinel, t: Sentinel)
    ensures WithDefault(code, message, default, s).message == (if message == "" then default else message)
    ensures message != "" ==> Render(WithDefault(code, message, default, s)) == message + ": " + AppText(s)
    ensures Is(WithDefault(code, message, default, s), t) <==> t == App(s)
  {
  }

  /** The internal error is transparent: it answers `errors.Is` exactly as its cause does. */
  lemma InternalErrorTransparent(cause: Option<Error>, t: Sentinel)
    ensures NewInternalError(cause).code == "INTERNAL_ERROR"
    ensures Is(NewInternalError(cause), t) <==> IsOpt(cause, t)
  {
  }

  /** The not-found predicate recognises the entity constructors but not the generic NOT_FOUND one. */
  lemma NotFoundClassification(m: string)
    ensures IsNotFoundError(NewUserNotFoundError()) && IsNotFoundError(NewTaskNotFoundError())
    ensures IsNotFoundError(NewSessionNotFoundError()) && IsNotFoundError(NewRoundNotFoundError())
    ensures IsNotFoundError(NewUserConfigNotFoundError())
    ensures !IsNotFoundError(NewNotFoundError(m))
  {
    var nf := NewNotFoundError(m);
    assert Unwrap(nf) == Some(Leaf(App(ErrNotFound)));
    assert forall t :: Is(nf, t) == Is(Leaf(App(ErrNotFound)), t);
  }

  /** The auth predicate covers the token errors but not the header-format or subject errors. */
  lemma AuthClassification(m: string)
    ensures IsAuthError(NewUnauthorizedError(m)) && IsAuthError(NewTokenExpiredError())
    ensures IsAuthError(NewInvalidTokenError()) && IsAuthError(NewTokenNotFoundError())
    ensures !IsAuthError(NewInvalidFormatError()) && !IsAuthError(NewMissingSubjectError())
  {
    var u := NewUnauthorizedError(m);
    assert Unwrap(u) == Some(Leaf(App(ErrUnauthorized)));
  }

  /** Validation errors are business errors; in-progress errors, unlike already-ended ones, are conflicts. */
  lemma ValidationAndConflictClassification(m: string)
    ensures IsValidationError(NewValidationError(m)) && IsBusinessError(NewValidationError(m))
    ensures IsConflictError(NewConflictError(m)) && IsConflictError(NewRoundInProgressError())
    ensures !IsConflictError(NewRoundAlreadyEndedError())
  {
    var v := NewValidationError(m);
    assert Unwrap(v) == Some(Leaf(App(ErrValidationFailed)));
    var c := NewConflictError(m);
    assert Unwrap(c) == Some(Leaf(App(ErrConflict)));
  }
}
