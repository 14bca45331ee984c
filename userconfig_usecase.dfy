/**
 * backend/internal/usecase/userconfig_usecase.go: reading, creating,
 * updating and deleting a user's settings over the DynamoDB table, with a
 * fallback to the defaults where the settings are only read. A use case
 * built without a repository holds `null`. The repository's client failures
 * and the clock are parameters, as in the repository model.
 */
module UserConfigUseCase {
  import opened Wrappers
  import opened GoErrors
  import opened Uuids
  import opened DomainErrors
  import opened UserConfigs
  import opened UserConfigRepository

  const UnavailableText := "ユーザー設定機能は現在利用できません"

  datatype CreateUserConfigRequest = CreateUserConfigRequest(
    roundWorkTime: int, roundBreakTime: int, sessionRounds: int, sessionBreakTime: int)

  /** Absent fields (`nil` pointers) are left as they are. */
  datatype UpdateUserConfigRequest = UpdateUserConfigRequest(
    roundWorkTime: Option<int>, roundBreakTime: Option<int>, sessionRounds: Option<int>, sessionBreakTime: Option<int>)

  /** The ranges the request types' `validate` tags declare. */
  predicate CreateRequestInRange(req: CreateUserConfigRequest)
  {
    1 <= req.roundWorkTime <= 120 && 1 <= req.roundBreakTime <= 60
    && 1 <= req.sessionRounds <= 10 && 5 <= req.sessionBreakTime <= 120
  }

  predicate UpdateRequestInRange(req: UpdateUserConfigRequest)
  {
    (req.roundWorkTime.None? || 1 <= req.roundWorkTime.value <= 120)
    && (req.roundBreakTime.None? || 1 <= req.roundBreakTime.value <= 60)
    && (req.sessionRounds.None? || 1 <= req.sessionRounds.value <= 10)
    && (req.sessionBreakTime.None? || 5 <= req.sessionBreakTime.value <= 120)
  }

  /** The configuration `CreateUserConfig` builds: the defaults, then the requested settings. */
  function Requested(userID: Uuid, req: CreateUserConfigRequest, now: int): (c: UserConfigRecord)
  {
    DefaultConfig(userID, now).(roundWorkTime := req.roundWorkTime, roundBreakTime := req.roundBreakTime,
                                sessionRounds := req.sessionRounds, sessionBreakTime := req.sessionBreakTime)
  }

  /** The tags of the create request and the model's validation accept the same settings. */
  lemma CreateRangesAgree(userID: Uuid, req: CreateUserConfigRequest, now: int)
    ensures IsValid(Requested(userID, req, now)) <==> CreateRequestInRange(req)
    ensures ValidateSettings(Requested(userID, req, now)).None? <==> CreateRequestInRange(req)
  {
  }

  /** `applyPartialUpdate` as a value: each present field replaces the stored one; the update time is `now`. */
  function ApplyPartialUpdate(c: UserConfigRecord, req: UpdateUserConfigRequest, now: int): (u: UserConfigRecord)
  {
    c.(roundWorkTime := if req.roundWorkTime.Some? then req.roundWorkTime.value else c.roundWorkTime,
       roundBreakTime := if req.roundBreakTime.Some? then req.roundBreakTime.value else c.roundBreakTime,
       sessionRounds := if req.sessionRounds.Some? then req.sessionRounds.value else c.sessionRounds,
       sessionBreakTime := if req.sessionBreakTime.Some? then req.sessionBreakTime.value else c.sessionBreakTime,
       updatedAt := now)
  }

  /** The number of fields a request carries. */
  function PresentCount(req: UpdateUserConfigRequest): (n: nat)
    ensures n <= 4
  {
    (if req.roundWorkTime.Some? then 1 else 0) + (if req.roundBreakTime.Some? then 1 else 0)
    + (if req.sessionRounds.Some? then 1 else 0) + (if req.sessionBreakTime.Some? then 1 else 0)
  }

  /**
   * A partial update is a full `UpdateSettings` when every field is present,
   * touches only the update time when none is, and keeps a valid
   * configuration valid when the request is within its tags' ranges.
   */
  lemma PartialUpdateProperties(c: UserConfigRecord, req: UpdateUserConfigRequest, now: int)
    ensures PresentCount(req) == 4 ==>
      ApplyPartialUpdate(c, req, now) == c.(roundWorkTime := req.roundWorkTime.value,
                                            roundBreakTime := req.roundBreakTime.value,
                                            sessionRounds := req.sessionRounds.value,
                                            sessionBreakTime := req.sessionBreakTime.value, updatedAt := now)
    ensures PresentCount(req) == 0 ==> ApplyPartialUpdate(c, req, now) == c.(updatedAt := now)
    ensures IsValid(c) && UpdateRequestInRange(req) ==> IsValid(ApplyPartialUpdate(c, req, now))
    ensures ApplyPartialUpdate(c, req, now).userID == c.userID && ApplyPartialUpdate(c, req, now).createdAt == c.createdAt
  {
  }

  // The repository declares its own sentinels; the use case tests those of
  // internal/errors. As written, no error the repository returns matches.

  predicate NotFoundAsWritten(e: Error) { Is(e, App(ErrUserConfigNotFound)) }
  predicate CreateFailedAsWritten(e: Error) { Is(e, App(ErrUserConfigCreateFailed)) }
  predicate UpdateFailedAsWritten(e: Error) { Is(e, App(ErrUserConfigUpdateFailed)) }
  predicate DeleteFailedAsWritten(e: Error) { Is(e, App(ErrUserConfigDeleteFailed)) }

  /** Corrected: the repository's own sentinels are recognised as well. */
  predicate IsNotFound(e: Error) { Is(e, App(ErrUserConfigNotFound)) || Is(e, DynamoConfig(DynUserConfigNotFound)) }
  predicate IsCreateFailed(e: Error) { Is(e, App(ErrUserConfigCreateFailed)) || Is(e, DynamoConfig(DynUserConfigCreateFailed)) }
  predicate IsUpdateFailed(e: Error) { Is(e, App(ErrUserConfigUpdateFailed)) || Is(e, DynamoConfig(DynUserConfigUpdateFailed)) }
  predicate IsDeleteFailed(e: Error) { Is(e, App(ErrUserConfigDeleteFailed)) || Is(e, DynamoConfig(DynUserConfigDeleteFailed)) }

  /** How `UpdateUserConfig` reports a failed read, as written. */
  function ReadFailureAsWritten(e: Error): (f: Error)
    ensures NotFoundAsWritten(e) ==> f == NewUserConfigNotFoundError()
    ensures !NotFoundAsWritten(e) ==> f == NewInternalError(Some(e))
  {
    if NotFoundAsWritten(e) then NewUserConfigNotFoundError() else NewInternalError(Some(e))
  }

  /** How `CreateUserConfig` reports a failed write, as written. */
  function CreateFailureAsWritten(e: Error): (f: Error)
    ensures CreateFailedAsWritten(e) ==> f == NewUserConfigCreateFailedError()
    ensures !CreateFailedAsWritten(e) ==> f == NewInternalError(Some(e))
  {
    if CreateFailedAsWritten(e) then NewUserConfigCreateFailedError() else NewInternalError(Some(e))
  }

  /** How `UpdateUserConfig` reports a failed write, as written. */
  function UpdateFailureAsWritten(e: Error): (f: Error)
    ensures UpdateFailedAsWritten(e) ==> f == NewUserConfigUpdateFailedError()
    ensures !UpdateFailedAsWritten(e) ==> f == NewInternalError(Some(e))
  {
    if UpdateFailedAsWritten(e) then NewUserConfigUpdateFailedError() else NewInternalError(Some(e))
  }

  /** How `DeleteUserConfig` reports a failed delete, as written. */
  function DeleteFailureAsWritten(e: Error): (f: Error)
    ensures NotFoundAsWritten(e) ==> f == NewUserConfigNotFoundError()
    ensures !NotFoundAsWritten(e) && DeleteFailedAsWritten(e) ==> f == NewUserConfigDeleteFailedError()
    ensures !NotFoundAsWritten(e) && !DeleteFailedAsWritten(e) ==> f == NewInternalError(Some(e))
  {
    if NotFoundAsWritten(e) then NewUserConfigNotFoundError()
    else if DeleteFailedAsWritten(e) then NewUserConfigDeleteFailedError()
    else NewInternalError(Some(e))
  }

  /** How a failed read is reported, corrected. */
  function ReadFailure(e: Error): (f: Error)
    ensures IsNotFound(e) ==> f == NewUserConfigNotFoundError()
    ensures !IsNotFound(e) ==> f == NewInternalError(Some(e))
  {
    if IsNotFound(e) then NewUserConfigNotFoundError() else NewInternalError(Some(e))
  }

  function CreateFailure(e: Error): (f: Error)
    ensures IsCreateFailed(e) ==> f == NewUserConfigCreateFailedError()
    ensures !IsCreateFailed(e) ==> f == NewInternalError(Some(e))
  {
    if IsCreateFailed(e) then NewUserConfigCreateFailedError() else NewInternalError(Some(e))
  }

  function UpdateFailure(e: Error): (f: Error)
    ensures IsUpdateFailed(e) ==> f == NewUserConfigUpdateFailedError()
    ensures !IsUpdateFailed(e) ==> f == NewInternalError(Some(e))
  {
    if IsUpdateFailed(e) then NewUserConfigUpdateFailedError() else NewInternalError(Some(e))
  }

  function DeleteFailure(e: Error): (f: Error)
    ensures IsNotFound(e) ==> f == NewUserConfigNotFoundError()
    ensures !IsNotFound(e) && IsDeleteFailed(e) ==> f == NewUserConfigDeleteFailedError()
    ensures !IsNotFound(e) && !IsDeleteFailed(e) ==> f == NewInternalError(Some(e))
  {
    if IsNotFound(e) then NewUserConfigNotFoundError()
    else if IsDeleteFailed(e) then NewUserConfigDeleteFailedError()
    else NewInternalError(Some(e))
  }

  /**
   * As written, every test misses: whatever the repository returns, the use
   * case answers an internal error; in particular an update or a delete of a
   * missing configuration is not reported as not found.
   */
  lemma RepositoryErrorsMissAsWritten(present: bool, fail: Option<string>, m: string)
    ensures !NotFoundAsWritten(NotFound) && !NotFoundAsWritten(Wrapped(GetErrorPrefix, Opaque(m), ""))
    ensures CreateError(present, fail).Some? ==> !CreateFailedAsWritten(CreateError(present, fail).value)
    ensures UpdateError(present, fail).Some? ==> !UpdateFailedAsWritten(UpdateError(present, fail).value)
    ensures DeleteError(present, fail).Some? ==>
      !NotFoundAsWritten(DeleteError(present, fail).value) && !DeleteFailedAsWritten(DeleteError(present, fail).value)
    ensures ReadFailureAsWritten(NotFound) == NewInternalError(Some(NotFound))
  {
    WrapPreservesIs(GetErrorPrefix, Opaque(m), "", App(ErrUserConfigNotFound));
  }

  /**
   * What the use case as written answers for each repository failure: an
   * internal error wrapping it, whether the write failed, the key was
   * missing or already present.
   */
  lemma RepositoryErrorsInternalAsWritten(present: bool, fail: Option<string>)
    ensures CreateError(present, fail).Some? ==>
      CreateFailureAsWritten(CreateError(present, fail).value) == NewInternalError(Some(CreateError(present, fail).value))
    ensures UpdateError(present, fail).Some? ==>
      UpdateFailureAsWritten(UpdateError(present, fail).value) == NewInternalError(Some(UpdateError(present, fail).value))
    ensures DeleteError(present, fail).Some? ==>
      DeleteFailureAsWritten(DeleteError(present, fail).value) == NewInternalError(Some(DeleteError(present, fail).value))
  {
    RepositoryErrorsMissAsWritten(present, fail, "");
  }

  /** Corrected, each repository failure gets its own answer. */
  lemma RepositoryErrorsClassified(present: bool, fail: Option<string>)
    ensures ReadFailure(NotFound) == NewUserConfigNotFoundError()
    ensures fail.Some? ==> CreateFailure(CreateError(present, fail).value) == NewUserConfigCreateFailedError()
    ensures fail.Some? ==> UpdateFailure(UpdateError(present, fail).value) == NewUserConfigUpdateFailedError()
    ensures fail.Some? ==> DeleteFailure(DeleteError(present, fail).value) == NewUserConfigDeleteFailedError()
    ensures fail.None? && !present ==> DeleteFailure(DeleteError(present, fail).value) == NewUserConfigNotFoundError()
  {
    assert !Is(Leaf(DynamoConfig(DynUserConfigDeleteFailed)), DynamoConfig(DynUserConfigNotFound));
  }

  class UserConfigService {
    const repo: ConfigTable?

    constructor (repo: ConfigTable?)
      ensures this.repo == repo
    {
      this.repo := repo;
    }

    /** `GetUserConfig`: the stored settings, or the defaults when there is no repository or the read fails. */
    method GetUserConfig(userID: Uuid, fail: Option<string>, parse: string -> Option<int>, now: int)
      returns (resp: UserConfigResponse)
      requires repo != null ==> repo.Valid()
      ensures repo == null || repo.Lookup(userID, fail, parse).Failure? ==> resp == ToResponse(DefaultConfig(userID, now))
      ensures repo != null && repo.Lookup(userID, fail, parse).Ok? ==> resp == ToResponse(repo.Lookup(userID, fail, parse).value)
      ensures resp.userID == userID
    {
      if repo == null {
        var defaults := new UserConfig(userID, now);
        return ToResponse(defaults.Value());
      }
      var got := repo.GetUserConfig(userID, fail, parse);
      if got.Failure? {
        var defaults := new UserConfig(userID, now);
        return ToResponse(defaults.Value());
      }
      resp := ToResponse(got.value.Value());
    }

    /**
     * `CreateUserConfig`: the defaults overwritten by the request, validated,
     * then created; only a valid configuration is ever stored. A failed
     * write is classified with the corrected `CreateFailure`.
     */
    method CreateUserConfig(userID: Uuid, req: CreateUserConfigRequest, now: int, fail: Option<string>,
                            format: int -> string)
      returns (r: Result<UserConfigResponse, Error>)
      requires repo != null ==> repo.Valid()
      modifies repo
      ensures repo != null ==> repo.Valid()
      ensures repo == null ==> r == Failure(NewInternalError(Some(Opaque(UnavailableText))))
      ensures repo != null && !CreateRequestInRange(req)
              ==> r == Failure(NewValidationError(Render(ValidateSettings(Requested(userID, req, now)).value)))
      ensures repo != null && CreateRequestInRange(req) && CreateError(userID in old(repo.items), fail).Some?
              ==> r == Failure(CreateFailure(CreateError(userID in old(repo.items), fail).value))
      ensures r.Failure? && repo != null ==> repo.items == old(repo.items)
      ensures r.Ok? <==> repo != null && CreateRequestInRange(req) && CreateError(userID in old(repo.items), fail).None?
      ensures r.Ok? ==> r.value == ToResponse(Requested(userID, req, now))
                        && repo.items == old(repo.items)[userID := EncodeItem(Requested(userID, req, now), format)]
                        && IsValid(Requested(userID, req, now))
    {
      if repo == null {
        return Failure(NewInternalError(Some(Opaque(UnavailableText))));
      }
      var config := new UserConfig(userID, now);
      config.UpdateSettings(req.roundWorkTime, req.roundBreakTime, req.sessionRounds, req.sessionBreakTime, now);
      assert config.Value() == Requested(userID, req, now);
      CreateRangesAgree(userID, req, now);
      var invalid := ValidateSettings(config.Value());
      if invalid.Some? {
        return Failure(NewValidationError(Render(invalid.value)));
      }
      var err := repo.CreateUserConfig(config, fail, format);
      if err.Some? {
        return Failure(CreateFailure(err.value));
      }
      r := Ok(ToResponse(config.Value()));
    }

    /**
     * `applyPartialUpdate`: copies the present fields, stamps the update
     * time, and counts the fields it copied.
     */
    method ApplyPartialUpdateTo(config: UserConfig, req: UpdateUserConfigRequest, now: int) returns (updateCount: nat)
      modifies config
      ensures config.Value() == ApplyPartialUpdate(old(config.Value()), req, now)
      ensures updateCount == PresentCount(req)
    {
      updateCount := 0;
      if req.roundWorkTime.Some? {
        config.roundWorkTime := req.roundWorkTime.value;
        updateCount := updateCount + 1;
      }
      if req.roundBreakTime.Some? {
        config.roundBreakTime := req.roundBreakTime.value;
        updateCount := updateCount + 1;
      }
      if req.sessionRounds.Some? {
        config.sessionRounds := req.sessionRounds.value;
        updateCount := updateCount + 1;
      }
      if req.sessionBreakTime.Some? {
        config.sessionBreakTime := req.sessionBreakTime.value;
        updateCount := updateCount + 1;
      }
      config.updatedAt := now;
    }

    /**
     * `UpdateUserConfig`: read the stored settings, apply the request,
     * validate, and write back. Failures are classified with the corrected
     * `ReadFailure` and `UpdateFailure`, so a missing configuration is
     * reported as not found.
     */
    method UpdateUserConfig(userID: Uuid, req: UpdateUserConfigRequest, now: int, getFail: Option<string>,
                            putFail: Option<string>, parse: string -> Option<int>, format: int -> string)
      returns (r: Result<UserConfigResponse, Error>)
      requires repo != null ==> repo.Valid()
      modifies repo
      ensures repo != null ==> repo.Valid()
      ensures repo == null ==> r == Failure(NewInternalError(Some(Opaque(UnavailableText))))
      ensures r.Failure? && repo != null ==> repo.items == old(repo.items)
      ensures repo != null && old(repo.Lookup(userID, getFail, parse)).Failure?
              ==> r == Failure(ReadFailure(old(repo.Lookup(userID, getFail, parse)).error))
      ensures repo != null && getFail.None? && userID !in old(repo.items) ==> r == Failure(NewUserConfigNotFoundError())
      ensures repo != null && old(repo.Lookup(userID, getFail, parse)).Ok?
              ==> var u := ApplyPartialUpdate(old(repo.Lookup(userID, getFail, parse)).value, req, now);
                  (!IsValid(u) ==> r == Failure(NewValidationError(Render(ValidateSettings(u).value))))
                  && (IsValid(u) && putFail.Some?
                      ==> r == Failure(NewUserConfigUpdateFailedError()))
                  && (IsValid(u) && putFail.None?
                      ==> r == Ok(ToResponse(u)) && repo.items == old(repo.items)[userID := EncodeItem(u, format)])
    {
      if repo == null {
        return Failure(NewInternalError(Some(Opaque(UnavailableText))));
      }
      var got := repo.GetUserConfig(userID, getFail, parse);
      if got.Failure? {
        if getFail.None? {
          assert IsNotFound(got.error);
        }
        return Failure(ReadFailure(got.error));
      }
      var config := got.value;
      var _ := ApplyPartialUpdateTo(config, req, now);
      var invalid := ValidateSettings(config.Value());
      if invalid.Some? {
        return Failure(NewValidationError(Render(invalid.value)));
      }
      var err := repo.UpdateUserConfig(config, putFail, now, format);
      if err.Some? {
        RepositoryErrorsClassified(true, putFail);
        return Failure(UpdateFailure(err.value));
      }
      r := Ok(ToResponse(config.Value()));
    }

    /** `DeleteUserConfig`, classified with the corrected `DeleteFailure`: a missing configuration is reported as not found. */
    method DeleteUserConfig(userID: Uuid, fail: Option<string>) returns (err: Option<Error>)
      requires repo != null ==> repo.Valid()
      modifies repo
      ensures repo != null ==> repo.Valid()
      ensures repo == null ==> err == Some(NewInternalError(Some(Opaque(UnavailableText))))
      ensures repo != null ==> (err.None? <==> fail.None? && userID in old(repo.items))
      ensures repo != null && fail.None? && userID !in old(repo.items) ==> err == Some(NewUserConfigNotFoundError())
      ensures repo != null && fail.Some? ==> err == Some(NewUserConfigDeleteFailedError())
      ensures repo != null && err.None? ==> repo.items == old(repo.items) - {userID}
      ensures repo != null && err.Some? ==> repo.items == old(repo.items)
    {
      if repo == null {
        return Some(NewInternalError(Some(Opaque(UnavailableText))));
      }
      var present := userID in repo.items;
      var e := repo.DeleteUserConfig(userID, fail);
      if e.Some? {
        RepositoryErrorsClassified(present, fail);
        return Some(DeleteFailure(e.value));
      }
      err := None;
    }

    /** `GetUserConfigForOptimization`: the stored settings as an object, or the defaults; it never fails. */
    method GetUserConfigForOptimization(userID: Uuid, fail: Option<string>, parse: string -> Option<int>, now: int)
      returns (config: UserConfig)
      requires repo != null ==> repo.Valid()
      ensures fresh(config)
      ensures repo == null || repo.Lookup(userID, fail, parse).Failure? ==> config.Value() == DefaultConfig(userID, now)
      ensures repo != null && repo.Lookup(userID, fail, parse).Ok? ==> config.Value() == repo.Lookup(userID, fail, parse).value
    {
      if repo == null {
        config := new UserConfig(userID, now);
        return;
      }
      var got := repo.GetUserConfig(userID, fail, parse);
      if got.Failure? {
        config := new UserConfig(userID, now);
        return;
      }
      config := got.value;
    }
  }
}
