/**
 * handler/error_mapper.go: an error is turned into an HTTP response by
 * trying the sentinel cases in their listed order, then a direct
 * `*DomainError` (mapped by its code), then infrastructure errors, then the
 * unknown-error fallback.
 */
module ErrorMapper {
  import opened Wrappers
  import opened GoErrors
  import DomainErrors
  import InfraErrors

  datatype HTTPErrorResponse = HTTPErrorResponse(code: string, message: string, statusCode: int)

  const StatusBadRequest := 400
  const StatusUnauthorized := 401
  const StatusForbidden := 403
  const StatusNotFound := 404
  const StatusConflict := 409
  const StatusInternalServerError := 500

  /** The sentinels of the switch, in the order its cases are tried. */
  const CaseOrder: seq<AppSentinel> := [
    ErrUserNotFound, ErrUserEmailDuplicate, ErrUserInvalidData,
    ErrTaskNotFound, ErrTaskAlreadyDone, ErrTaskInProgress,
    ErrSessionNotFound, ErrSessionInProgress, ErrSessionAlreadyEnded,
    ErrRoundNotFound, ErrRoundAlreadyEnded, ErrRoundInProgress, ErrNoRoundsInSession,
    ErrUserConfigNotFound, ErrUserConfigInvalid,
    ErrStatisticsNotFound,
    ErrUnauthorized, ErrAccessDenied, ErrTokenExpired, ErrInvalidToken, ErrTokenNotFound, ErrInvalidFormat,
    ErrValidationFailed, ErrRequiredField, ErrInvalidValue, ErrInvalidEmail,
    ErrBusinessRuleViolation, ErrConflict, ErrNotFound, ErrBadRequest, ErrForbidden
  ]

  /** The fixed response of each sentinel case of the switch (sentinels without a case are never looked up). */
  function SentinelCase(s: AppSentinel): (r: HTTPErrorResponse)
    ensures KnownStatus(r.statusCode)
  {
    match s
    case ErrUserNotFound => HTTPErrorResponse("USER_NOT_FOUND", "ユーザーが見つかりません", StatusNotFound)
    case ErrUserEmailDuplicate => HTTPErrorResponse("EMAIL_ALREADY_EXISTS", "メールアドレスが既に使用されています", StatusConflict)
    case ErrUserInvalidData => HTTPErrorResponse("INVALID_USER_DATA", "無効なユーザーデータです", StatusBadRequest)
    case ErrTaskNotFound => HTTPErrorResponse("TASK_NOT_FOUND", "タスクが見つかりません", StatusNotFound)
    case ErrTaskAlreadyDone => HTTPErrorResponse("TASK_ALREADY_DONE", "タスクは既に完了しています", StatusConflict)
    case ErrTaskInProgress => HTTPErrorResponse("TASK_IN_PROGRESS", "既に進行中のタスクが存在します", StatusConflict)
    case ErrSessionNotFound => HTTPErrorResponse("SESSION_NOT_FOUND", "セッションが見つかりません", StatusNotFound)
    case ErrSessionInProgress => HTTPErrorResponse("SESSION_IN_PROGRESS", "既に進行中のセッションが存在します", StatusConflict)
    case ErrSessionAlreadyEnded => HTTPErrorResponse("SESSION_ALREADY_ENDED", "セッションは既に終了しています", StatusConflict)
    case ErrRoundNotFound => HTTPErrorResponse("ROUND_NOT_FOUND", "ラウンドが見つかりません", StatusNotFound)
    case ErrRoundAlreadyEnded => HTTPErrorResponse("ROUND_ALREADY_ENDED", "ラウンドは既に終了しています", StatusConflict)
    case ErrRoundInProgress => HTTPErrorResponse("ROUND_IN_PROGRESS", "既に進行中のラウンドが存在します", StatusConflict)
    case ErrNoRoundsInSession => HTTPErrorResponse("NO_ROUNDS_IN_SESSION", "セッションにラウンドが存在しません", StatusNotFound)
    case ErrUserConfigNotFound => HTTPErrorResponse("USER_CONFIG_NOT_FOUND", "ユーザー設定が見つかりません", StatusNotFound)
    case ErrUserConfigInvalid => HTTPErrorResponse("INVALID_USER_CONFIG", "無効なユーザー設定です", StatusBadRequest)
    case ErrStatisticsNotFound => HTTPErrorResponse("STATISTICS_NOT_FOUND", "統計データが見つかりません", StatusNotFound)
    case ErrUnauthorized => HTTPErrorResponse("UNAUTHORIZED", "認証が必要です", StatusUnauthorized)
    case ErrAccessDenied => HTTPErrorResponse("ACCESS_DENIED", "アクセス権限がありません", StatusForbidden)
    case ErrTokenExpired => HTTPErrorResponse("TOKEN_EXPIRED", "トークンの有効期限が切れています", StatusUnauthorized)
    case ErrInvalidToken => HTTPErrorResponse("INVALID_TOKEN", "無効なトークンです", StatusUnauthorized)
    case ErrTokenNotFound => HTTPErrorResponse("TOKEN_NOT_FOUND", "Authorizationヘッダーが見つかりません", StatusUnauthorized)
    case ErrInvalidFormat => HTTPErrorResponse("INVALID_FORMAT", "リクエスト形式が無効です", StatusBadRequest)
    case ErrValidationFailed => HTTPErrorResponse("VALIDATION_ERROR", "入力値が無効です", StatusBadRequest)
    case ErrRequiredField => HTTPErrorResponse("REQUIRED_FIELD_MISSING", "必須項目が不足しています", StatusBadRequest)
    case ErrInvalidValue => HTTPErrorResponse("INVALID_VALUE", "無効な値です", StatusBadRequest)
    case ErrInvalidEmail => HTTPErrorResponse("INVALID_EMAIL", "無効なメールアドレスです", StatusBadRequest)
    case ErrBusinessRuleViolation => HTTPErrorResponse("BUSINESS_RULE_VIOLATION", "ビジネスルール違反です", StatusConflict)
    case ErrConflict => HTTPErrorResponse("CONFLICT", "リソースが既に存在します", StatusConflict)
    case ErrNotFound => HTTPErrorResponse("NOT_FOUND", "リソースが見つかりません", StatusNotFound)
    case ErrBadRequest => HTTPErrorResponse("BAD_REQUEST", "不正なリクエストです", StatusBadRequest)
    case ErrForbidden => HTTPErrorResponse("FORBIDDEN", "アクセス権限がありません", StatusForbidden)
    case _ => UnknownResponse
  }

  /**
   * The first case, from position `i` on, whose sentinel the error `Is`:
   * every case before it was tried and did not match.
   */
  function FirstCase(order: seq<AppSentinel>, e: Error, i: nat): (k: Option<nat>)
    requires i <= |order|
    ensures k.Some? ==> i <= k.value < |order| && Is(e, App(order[k.value]))
    ensures k.Some? ==> forall j :: i <= j < k.value ==> !Is(e, App(order[j]))
    ensures k.None? ==> forall j :: i <= j < |order| ==> !Is(e, App(order[j]))
    decreases |order| - i
  {
    if i == |order| then None
    else if Is(e, App(order[i])) then Some(i)
    else FirstCase(order, e, i + 1)
  }

  /** mapDomainErrorToHTTP: the code selects the status; code and message are kept. */
  function DomainStatus(code: string): (status: int)
    ensures KnownStatus(status)
  {
    if code in {"USER_NOT_FOUND", "TASK_NOT_FOUND", "SESSION_NOT_FOUND", "ROUND_NOT_FOUND", "USER_CONFIG_NOT_FOUND", "NOT_FOUND"}
    then StatusNotFound
    else if code in {"VALIDATION_ERROR", "BAD_REQUEST", "INVALID_USER_DATA", "INVALID_USER_CONFIG", "INVALID_FORMAT",
                     "INVALID_VALUE", "INVALID_EMAIL", "REQUIRED_FIELD_MISSING"}
    then StatusBadRequest
    else if code in {"UNAUTHORIZED", "TOKEN_EXPIRED", "INVALID_TOKEN", "TOKEN_NOT_FOUND"} then StatusUnauthorized
    else if code in {"ACCESS_DENIED", "FORBIDDEN"} then StatusForbidden
    else if code in {"BUSINESS_RULE_VIOLATION", "CONFLICT", "SESSION_IN_PROGRESS", "ROUND_IN_PROGRESS", "TASK_IN_PROGRESS",
                     "SESSION_ALREADY_ENDED", "ROUND_ALREADY_ENDED", "TASK_ALREADY_DONE", "EMAIL_ALREADY_EXISTS"}
    then StatusConflict
    else StatusInternalServerError
  }

  function MapDomainErrorToHTTP(code: string, message: string): (r: HTTPErrorResponse)
    ensures r.code == code && r.message == message && KnownStatus(r.statusCode)
  {
    HTTPErrorResponse(code, message, DomainStatus(code))
  }

  const InfrastructureResponse := HTTPErrorResponse("INFRASTRUCTURE_ERROR", "システムエラーが発生しました", StatusInternalServerError)
  const UnknownResponse := HTTPErrorResponse("INTERNAL_ERROR", "予期しないエラーが発生しました", StatusInternalServerError)

  /** `MapErrorToHTTP`: every response carries one of the six statuses. */
  function MapErrorToHTTP(e: Error): (r: HTTPErrorResponse)
    ensures KnownStatus(r.statusCode)
  {
    match FirstCase(CaseOrder, e, 0)
    case Some(k) => SentinelCase(CaseOrder[k])
    case None =>
      if e.Domain? then MapDomainErrorToHTTP(e.code, e.message)
      else if InfraErrors.IsInfrastructureError(e) then InfrastructureResponse
      else UnknownResponse
  }

  /**
   * Precedence: when some sentinel case matches, the response is that of the
   * first matching case in listed order; the later branches are never reached.
   */
  lemma SentinelCasesFirst(e: Error, k: nat)
    requires k < |CaseOrder| && Is(e, App(CaseOrder[k]))
    requires forall j :: 0 <= j < k ==> !Is(e, App(CaseOrder[j]))
    ensures MapErrorToHTTP(e) == SentinelCase(CaseOrder[k])
  {
    var f := FirstCase(CaseOrder, e, 0);
    assert f == Some(k) by {
      if f.None? {
      } else if f.value < k {
      } else if f.value > k {
      }
    }
  }

  /** Without a matching sentinel: a direct `*DomainError` keeps its code and message. */
  lemma DirectDomainErrorKeepsCode(e: Error)
    requires e.Domain?
    requires forall j :: 0 <= j < |CaseOrder| ==> !Is(e, App(CaseOrder[j]))
    ensures MapErrorToHTTP(e) == HTTPErrorResponse(e.code, e.message, DomainStatus(e.code))
  {
    assert FirstCase(CaseOrder, e, 0).None?;
  }

  /** Without a matching sentinel and not a direct domain error: 500, infrastructure or unknown. */
  lemma FallbackResponses(e: Error)
    requires !e.Domain?
    requires forall j :: 0 <= j < |CaseOrder| ==> !Is(e, App(CaseOrder[j]))
    ensures InfraErrors.IsInfrastructureError(e) ==> MapErrorToHTTP(e) == InfrastructureResponse
    ensures !InfraErrors.IsInfrastructureError(e) ==> MapErrorToHTTP(e) == UnknownResponse
  {
    assert FirstCase(CaseOrder, e, 0).None?;
  }

  predicate KnownStatus(status: int)
  {
    status in {StatusBadRequest, StatusUnauthorized, StatusForbidden, StatusNotFound, StatusConflict,
               StatusInternalServerError}
  }

  /** The statuses the mapper can produce. */
  lemma StatusIsKnown(e: Error)
    ensures KnownStatus(MapErrorToHTTP(e).statusCode)
  {
    match FirstCase(CaseOrder, e, 0)
    case Some(k) =>
    case None =>
  }

  /** An error whose only sentinel is `s` gets the response of the case for `s`, if the switch has one. */
  lemma OnlySentinelFrom(order: seq<AppSentinel>, e: Error, s: AppSentinel, i: nat)
    requires i <= |order|
    requires forall t :: Is(e, t) <==> t == App(s)
    ensures FirstCase(order, e, i).Some? <==> s in order[i..]
    ensures FirstCase(order, e, i).Some? ==> order[FirstCase(order, e, i).value] == s
  {
    var k := FirstCase(order, e, i);
    if k.Some? {
      assert Is(e, App(order[k.value]));
      assert order[i..][k.value - i] == s;
    } else {
      forall j | 0 <= j < |order| - i
        ensures order[i..][j] != s
      {
        assert !Is(e, App(order[i + j]));
      }
    }
  }

  lemma OnlySentinel(e: Error, s: AppSentinel)
    requires forall t :: Is(e, t) <==> t == App(s)
    ensures s in CaseOrder ==> MapErrorToHTTP(e) == SentinelCase(s)
    ensures s !in CaseOrder && e.Domain? ==> MapErrorToHTTP(e) == MapDomainErrorToHTTP(e.code, e.message)
  {
    OnlySentinelFrom(CaseOrder, e, s, 0);
    assert CaseOrder[0..] == CaseOrder;
  }

  /** A validation error's own message is lost: the sentinel case replaces it with the fixed text. */
  lemma ValidationMessageReplaced(m: string)
    ensures MapErrorToHTTP(DomainErrors.NewValidationError(m))
         == HTTPErrorResponse("VALIDATION_ERROR", "入力値が無効です", StatusBadRequest)
  {
    var e := DomainErrors.NewValidationError(m);
    assert SentinelCase(ErrValidationFailed) == HTTPErrorResponse("VALIDATION_ERROR", "入力値が無効です", StatusBadRequest);
    assert ErrValidationFailed in CaseOrder by {
      assert CaseOrder[22] == ErrValidationFailed;
    }
    assert MapErrorToHTTP(e) == SentinelCase(ErrValidationFailed) by {
      OnlyValidationSentinel(m);
      OnlySentinel(e, ErrValidationFailed);
    }
  }

  lemma OnlyValidationSentinel(m: string)
    ensures forall t :: Is(DomainErrors.NewValidationError(m), t) <==> t == App(ErrValidationFailed)
  {
    forall t ensures Is(DomainErrors.NewValidationError(m), t) <==> t == App(ErrValidationFailed) {
      DomainErrors.DefaultMessage("VALIDATION_ERROR", m, "バリデーションエラーが発生しました", ErrValidationFailed, t);
    }
  }

  /** A direct domain error whose only sentinel has no case is mapped by its code. */
  lemma DomainErrorWithoutCase(e: Error, s: AppSentinel)
    requires e.Domain? && s !in CaseOrder
    requires forall t :: Is(e, t) <==> t == App(s)
    ensures MapErrorToHTTP(e) == MapDomainErrorToHTTP(e.code, e.message)
  {
    OnlySentinelFrom(CaseOrder, e, s, 0);
    assert CaseOrder[0..] == CaseOrder;
  }

  /**
   * A fixed domain error whose sentinel has no case of its own (a creation or
   * update failure, say) is mapped by its code, and keeps its code and message.
   */
  lemma FixedWithoutCase(code: string, message: string, s: AppSentinel)
    requires s !in CaseOrder
    ensures MapErrorToHTTP(DomainErrors.Fixed(code, message, s)) == HTTPErrorResponse(code, message, DomainStatus(code))
  {
    var e := DomainErrors.Fixed(code, message, s);
    forall t ensures Is(e, t) <==> t == App(s) {
      DomainErrors.FixedIsOwnSentinel(code, message, s, t);
    }
    DomainErrorWithoutCase(e, s);
  }

  /** The creation and update failures are not in any 4xx group: they are server errors. */
  lemma FailureCodesAreServerErrors()
    ensures DomainStatus("USER_CREATION_FAILED") == StatusInternalServerError
    ensures DomainStatus("USER_CONFIG_CREATE_FAILED") == StatusInternalServerError
    ensures DomainStatus("USER_CONFIG_UPDATE_FAILED") == StatusInternalServerError
  {
  }

  /** An internal error wrapping a not-found error is reported by its cause: 404, not 500. */
  lemma InternalErrorReportsItsCause()
    ensures MapErrorToHTTP(DomainErrors.NewInternalError(Some(DomainErrors.NewUserNotFoundError()))).statusCode
         == StatusNotFound
  {
    var e := DomainErrors.NewInternalError(Some(DomainErrors.NewUserNotFoundError()));
    assert Is(e, App(ErrUserNotFound));
    SentinelCasesFirst(e, 0);
  }

  predicate IsClientError(e: Error) { 400 <= MapErrorToHTTP(e).statusCode < 500 }
  predicate IsServerError(e: Error) { MapErrorToHTTP(e).statusCode >= 500 }
  predicate IsNotFoundError(e: Error) { MapErrorToHTTP(e).statusCode == StatusNotFound }
  predicate IsUnauthorizedError(e: Error) { MapErrorToHTTP(e).statusCode == StatusUnauthorized }
  predicate IsForbiddenError(e: Error) { MapErrorToHTTP(e).statusCode == StatusForbidden }
  predicate IsBadRequestError(e: Error) { MapErrorToHTTP(e).statusCode == StatusBadRequest }
  predicate IsConflictError(e: Error) { MapErrorToHTTP(e).statusCode == StatusConflict }
  function GetHTTPStatusCode(e: Error): int { MapErrorToHTTP(e).statusCode }
  function GetErrorCode(e: Error): string { MapErrorToHTTP(e).code }
  function GetErrorMessage(e: Error): string { MapErrorToHTTP(e).message }

  /** Every error is exactly one of client error or server error, and the getters read one response. */
  lemma StatusClasses(e: Error)
    ensures IsClientError(e) != IsServerError(e)
    ensures (IsNotFoundError(e) || IsUnauthorizedError(e) || IsForbiddenError(e) || IsBadRequestError(e)
             || IsConflictError(e)) <==> IsClientError(e)
    ensures MapErrorToHTTP(e) == HTTPErrorResponse(GetErrorCode(e), GetErrorMessage(e), GetHTTPStatusCode(e))
  {
    StatusIsKnown(e);
  }
}
