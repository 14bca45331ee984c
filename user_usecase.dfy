/**
 * backend/internal/usecase/user_usecase.go: the profile operations, the
 * provider listing, and the hand-written email and provider checks. Each
 * repository call is a parameter holding its answer (or a function from the
 * request to the answer), and each method also returns what it handed to the
 * repository, so that "nothing reached the repository" can be stated.
 * `time.Now()` is the parameter `now`.
 */
module UserUseCase {
  import opened Wrappers
  import opened GoErrors
  import opened DomainErrors
  import opened Users
  import UserRepository

  const ForbiddenEmailText := "Googleユーザーはメールアドレスを変更できません"
  const InvalidNameText := "有効な名前を入力してください"
  const InvalidEmailText := "有効なメールアドレスを入力してください"
  const MissingProviderText := "プロバイダー名を指定してください"
  const InvalidProviderText := "無効なプロバイダー名です"
  const DefaultLimit := 20
  const MaxLimit := 100

  /** `UpdateUserRequest`: each field may be absent. */
  datatype UpdateUserRequest = UpdateUserRequest(name: Option<string>, email: Option<string>)

  /** The arguments of the repository's `GetUsersByProvider`. */
  datatype PageRequest = PageRequest(provider: string, limit: int, offset: int)

  // ---------------------------------------------------------------------
  // Text measures: Go's `len` counts UTF-8 bytes, `range` visits code points.

  /** The number of bytes UTF-8 spends on a code point. */
  function CharBytes(c: char): (n: nat)
    ensures 1 <= n <= 4
    ensures n == 1 <==> (c as int) < 0x80
  {
    if (c as int) < 0x80 then 1 else if (c as int) < 0x800 then 2 else if (c as int) < 0x10000 then 3 else 4
  }

  /** `len(s)` of a Go string: its UTF-8 length. */
  function Utf8Length(s: string): nat
  {
    if |s| == 0 then 0 else Utf8Length(s[..|s| - 1]) + CharBytes(s[|s| - 1])
  }

  /** At least one byte and at most four per character, exactly one for ASCII. */
  lemma {:induction false} Utf8LengthBounds(s: string)
    ensures |s| <= Utf8Length(s) <= 4 * |s|
    ensures (forall i :: 0 <= i < |s| ==> (s[i] as int) < 0x80) ==> Utf8Length(s) == |s|
  {
    if |s| > 0 {
      var p := s[..|s| - 1];
      Utf8LengthBounds(p);
      assert forall i :: 0 <= i < |p| ==> p[i] == s[i];
    }
  }

  /** The number of '@' characters. */
  function AtCount(s: string): nat
  {
    if |s| == 0 then 0 else AtCount(s[..|s| - 1]) + (if s[|s| - 1] == '@' then 1 else 0)
  }

  /** `s` holds an '@' at `k` and nowhere else. */
  predicate OnlyAtAt(s: string, k: int)
  {
    0 <= k < |s| && s[k] == '@' && forall j :: 0 <= j < |s| && s[j] == '@' ==> j == k
  }

  lemma {:induction false} AtCountZero(s: string)
    ensures AtCount(s) == 0 <==> forall j :: 0 <= j < |s| ==> s[j] != '@'
  {
    if |s| > 0 {
      var p := s[..|s| - 1];
      AtCountZero(p);
      assert forall j :: 0 <= j < |p| ==> p[j] == s[j];
    }
  }

  lemma {:induction false} AtCountOne(s: string)
    ensures AtCount(s) == 1 <==> exists k :: OnlyAtAt(s, k)
  {
    if |s| > 0 {
      var p := s[..|s| - 1];
      var last := |s| - 1;
      AtCountOne(p);
      AtCountZero(p);
      assert forall j :: 0 <= j < |p| ==> p[j] == s[j];
      if s[last] == '@' {
        if AtCount(p) == 0 {
          assert OnlyAtAt(s, last);
        } else {
          var j :| 0 <= j < |p| && p[j] == '@';
          forall k | 0 <= k < |s|
            ensures !OnlyAtAt(s, k)
          {
            assert s[j] == '@' && s[last] == '@' && j != last;
          }
        }
      } else {
        forall k
          ensures OnlyAtAt(s, k) <==> OnlyAtAt(p, k)
        {
          if OnlyAtAt(s, k) {
            assert k != last;
          }
        }
      }
    }
  }

  /** `containsAtSymbol`: stops at the first '@'. */
  method ContainsAtSymbol(email: string) returns (b: bool)
    ensures b <==> AtCount(email) >= 1
  {
    AtCountZero(email);
    var i := 0;
    while i < |email|
      invariant 0 <= i <= |email|
      invariant forall j :: 0 <= j < i ==> email[j] != '@'
    {
      if email[i] == '@' {
        return true;
      }
      i := i + 1;
    }
    return false;
  }

  /** `containsMultipleAtSymbols`: counts every '@'. */
  method ContainsMultipleAtSymbols(email: string) returns (b: bool)
    ensures b <==> AtCount(email) > 1
  {
    var count := 0;
    var i := 0;
    while i < |email|
      invariant 0 <= i <= |email|
      invariant count == AtCount(email[..i])
    {
      assert email[..i + 1][..i] == email[..i];
      if email[i] == '@' {
        count := count + 1;
      }
      i := i + 1;
    }
    assert email[..|email|] == email;
    return count > 1;
  }

  /**
   * The format `isValidEmailFormat` accepts: more than three bytes, and one
   * '@' that is neither the first nor the last character. (The byte tests on
   * the first and last character see the same '@' as a code-point test,
   * since no byte of a multi-byte UTF-8 sequence is ASCII.)
   */
  predicate EmailFormat(email: string)
  {
    Utf8Length(email) > 3 && exists k :: 0 < k < |email| - 1 && OnlyAtAt(email, k)
  }

  /** `isValidEmailFormat`. */
  method IsValidEmailFormat(email: string) returns (b: bool)
    ensures b <==> EmailFormat(email)
  {
    AtCountOne(email);
    if !(Utf8Length(email) > 3 && email != "" && email[0] != '@' && email[|email| - 1] != '@') {
      return false;
    }
    var hasAt := ContainsAtSymbol(email);
    if !hasAt {
      return false;
    }
    var multiple := ContainsMultipleAtSymbols(email);
    b := !multiple;
  }

  /** The byte length decides, not the number of characters: three characters can be long enough. */
  lemma ByteLengthCounts()
    ensures EmailFormat("a@é") && |"a@é"| == 3
    ensures !EmailFormat("a@b") && !EmailFormat("@ab.c") && !EmailFormat("ab.c@") && !EmailFormat("a@b@c")
  {
    assert OnlyAtAt("a@é", 1);
    assert Utf8Length("a@é") == 4 by {
      assert "a@é"[..2] == "a@";
      assert "a@"[..1] == "a";
      assert "a"[..0] == "";
    }
    assert Utf8Length("a@b") == 3 by {
      assert "a@b"[..2] == "a@";
      assert "a@"[..1] == "a";
      assert "a"[..0] == "";
    }
    assert "a@b@c"[1] == '@' && "a@b@c"[3] == '@';
  }

  const ValidProviders: seq<string> := [CognitoProvider, GoogleProvider]

  /** `isValidProviderName`: a scan of the two accepted names. */
  method IsValidProviderName(provider: string) returns (b: bool)
    ensures b <==> provider == CognitoProvider || provider == GoogleProvider
  {
    for i := 0 to |ValidProviders|
      invariant forall j :: 0 <= j < i ==> ValidProviders[j] != provider
    {
      if provider == ValidProviders[i] {
        return true;
      }
    }
    assert ValidProviders[0] == CognitoProvider && ValidProviders[1] == GoogleProvider;
    return false;
  }

  // ---------------------------------------------------------------------
  // Pagination

  /** The page size used: a size outside 1..100 becomes 20. */
  function ClampLimit(limit: int): (l: int)
    ensures 1 <= l <= MaxLimit
    ensures 1 <= limit <= MaxLimit ==> l == limit
    ensures !(1 <= limit <= MaxLimit) ==> l == DefaultLimit
  {
    if limit <= 0 || limit > MaxLimit then DefaultLimit else limit
  }

  /** The offset used: a negative offset becomes 0. */
  function ClampOffset(offset: int): (o: int)
    ensures o >= 0
    ensures offset >= 0 ==> o == offset
    ensures offset < 0 ==> o == 0
  {
    if offset < 0 then 0 else offset
  }

  lemma ClampIdempotent(limit: int, offset: int)
    ensures ClampLimit(ClampLimit(limit)) == ClampLimit(limit)
    ensures ClampOffset(ClampOffset(offset)) == ClampOffset(offset)
  {
  }

  // ---------------------------------------------------------------------
  // Repository errors, as written and as intended

  /** The not-found test of the use case as written: only the application's sentinel. */
  predicate UserNotFoundAsWritten(e: Error)
  {
    Is(e, App(ErrUserNotFound))
  }

  /** The not-found test the use case needs: the application's sentinel or the repository's. */
  predicate IsUserNotFound(e: Error)
  {
    Is(e, App(ErrUserNotFound)) || Is(e, PgUser(PgUserNotFound))
  }

  /** A lookup or delete failure as written. */
  function LookupFailureAsWritten(e: Error): (d: Error)
    ensures UserNotFoundAsWritten(e) ==> d == NewUserNotFoundError()
    ensures !UserNotFoundAsWritten(e) ==> d == NewInternalError(Some(e))
  {
    if UserNotFoundAsWritten(e) then NewUserNotFoundError() else NewInternalError(Some(e))
  }

  /** A lookup or delete failure, with the repository's not-found recognised. */
  function LookupFailure(e: Error): (d: Error)
    ensures IsUserNotFound(e) ==> d == NewUserNotFoundError()
    ensures !IsUserNotFound(e) ==> d == NewInternalError(Some(e))
  {
    if IsUserNotFound(e) then NewUserNotFoundError() else NewInternalError(Some(e))
  }

  /** An update failure as written: a duplicate email first, then the application's not-found, else internal. */
  function UpdateFailureAsWritten(e: Error): (d: Error)
    ensures Is(e, App(ErrUserEmailDuplicate)) ==> d == NewEmailAlreadyExistsError()
    ensures !Is(e, App(ErrUserEmailDuplicate)) && UserNotFoundAsWritten(e) ==> d == NewUserNotFoundError()
    ensures !Is(e, App(ErrUserEmailDuplicate)) && !UserNotFoundAsWritten(e) ==> d == NewInternalError(Some(e))
  {
    if Is(e, App(ErrUserEmailDuplicate)) then NewEmailAlreadyExistsError()
    else if UserNotFoundAsWritten(e) then NewUserNotFoundError()
    else NewInternalError(Some(e))
  }

  /** An update failure, corrected: a duplicate email first, then either not-found, else internal. */
  function UpdateFailure(e: Error): (d: Error)
    ensures Is(e, App(ErrUserEmailDuplicate)) ==> d == NewEmailAlreadyExistsError()
    ensures !Is(e, App(ErrUserEmailDuplicate)) && IsUserNotFound(e) ==> d == NewUserNotFoundError()
    ensures !Is(e, App(ErrUserEmailDuplicate)) && !IsUserNotFound(e) ==> d == NewInternalError(Some(e))
  {
    if Is(e, App(ErrUserEmailDuplicate)) then NewEmailAlreadyExistsError()
    else if IsUserNotFound(e) then NewUserNotFoundError()
    else NewInternalError(Some(e))
  }

  /**
   * As written, the repository's "no such user" (a lookup with no row, an
   * update or delete of zero rows) is reported as an internal error, because
   * the use case tests a sentinel the repository never returns.
   */
  lemma MissingUserIsInternalAsWritten(q: UserRepository.QueryOutcome, o: UserRepository.ExecOutcome)
    ensures q.NoRows? ==> (var e := UserRepository.GetResult(q).error;
                           LookupFailureAsWritten(e) == NewInternalError(Some(e)))
    ensures o == UserRepository.Rows(0) ==> (var e := UserRepository.DeleteResult(o).value;
                                             LookupFailureAsWritten(e) == NewInternalError(Some(e)))
    ensures o == UserRepository.Rows(0) ==> (var e := UserRepository.UpdateResult(o).value;
                                             UpdateFailureAsWritten(e) == NewInternalError(Some(e)))
    ensures !UserNotFoundAsWritten(UserRepository.NotFound)
  {
    UserRepository.RepositoryErrorsAreLocal(q, o, ErrUserNotFound);
  }

  /** With both sentinels recognised, every "no such user" of the repository is a not-found error. */
  lemma MissingUserIsNotFound(q: UserRepository.QueryOutcome, o: UserRepository.ExecOutcome)
    ensures q.NoRows? ==> LookupFailure(UserRepository.GetResult(q).error) == NewUserNotFoundError()
    ensures o == UserRepository.Rows(0) ==> (LookupFailure(UserRepository.DeleteResult(o).value) == NewUserNotFoundError()
                                             && UpdateFailure(UserRepository.UpdateResult(o).value) == NewUserNotFoundError())
    ensures UserRepository.GetResult(q).Failure? && !q.NoRows?
            ==> LookupFailure(UserRepository.GetResult(q).error) == NewInternalError(Some(UserRepository.GetResult(q).error))
  {
    UserRepository.RepositoryErrorsAreLocal(q, o, ErrUserNotFound);
  }

  // ---------------------------------------------------------------------
  // Operations

  /** `GetUserProfile`, with the corrected `LookupFailure`. */
  function GetUserProfile(lookup: Result<UserRecord, Error>): (r: Result<UserResponse, Error>)
    ensures r.Ok? <==> lookup.Ok?
    ensures lookup.Ok? ==> r.value == ToResponse(lookup.value)
    ensures lookup.Failure? ==> r.error == LookupFailure(lookup.error)
  {
    match lookup
    case Ok(u) => Ok(ToResponse(u))
    case Failure(e) => Failure(LookupFailure(e))
  }

  /** `CheckUserExists`: any repository error is internal. */
  function CheckUserExists(found: Result<bool, Error>): (r: Result<bool, Error>)
    ensures found.Ok? ==> r == found
    ensures found.Failure? ==> r == Failure(NewInternalError(Some(found.error)))
  {
    match found
    case Ok(b) => Ok(b)
    case Failure(e) => Failure(NewInternalError(Some(e)))
  }

  /** `DeleteUser`: the delete is attempted only after a successful lookup; failures use the corrected `LookupFailure`. */
  method DeleteUser(lookup: Result<UserRecord, Error>, delete: Option<Error>)
    returns (err: Option<Error>, deleted: bool)
    ensures deleted <==> lookup.Ok?
    ensures lookup.Failure? ==> err == Some(LookupFailure(lookup.error))
    ensures lookup.Ok? && delete.Some? ==> err == Some(LookupFailure(delete.value))
    ensures lookup.Ok? && delete.None? ==> err.None?
  {
    if lookup.Failure? {
      return Some(LookupFailure(lookup.error)), false;
    }
    deleted := true;
    if delete.Some? {
      err := Some(LookupFailure(delete.value));
    } else {
      err := None;
    }
  }

  /** `GetUserByEmail`: a malformed email is refused before the repository is asked; failures use the corrected `LookupFailure`. */
  method GetUserByEmail(email: string, getByEmail: string -> Result<UserRecord, Error>)
    returns (r: Result<UserResponse, Error>, queried: bool)
    ensures !EmailFormat(email) ==> r == Failure(NewValidationError(InvalidEmailText)) && !queried
    ensures EmailFormat(email) ==> queried && r == GetUserProfile(getByEmail(email))
  {
    var ok := IsValidEmailFormat(email);
    if email == "" || !ok {
      return Failure(NewValidationError(InvalidEmailText)), false;
    }
    queried := true;
    var answer := getByEmail(email);
    if answer.Failure? {
      r := Failure(LookupFailure(answer.error));
    } else {
      r := Ok(ToResponse(answer.value));
    }
  }

  /** `GetUsersByProvider`: the provider is checked before the page is clamped and the repository asked. */
  method GetUsersByProvider(provider: string, limit: int, offset: int,
                            list: PageRequest -> Result<seq<UserRecord>, Error>)
    returns (r: Result<seq<UserResponse>, Error>, call: Option<PageRequest>)
    ensures provider == "" ==> r == Failure(NewValidationError(MissingProviderText)) && call.None?
    ensures (provider != "" && provider != CognitoProvider && provider != GoogleProvider)
            ==> r == Failure(NewValidationError(InvalidProviderText)) && call.None?
    ensures (provider == CognitoProvider || provider == GoogleProvider)
            ==> call == Some(PageRequest(provider, ClampLimit(limit), ClampOffset(offset)))
    ensures call.Some? && list(call.value).Failure?
            ==> r == Failure(NewInternalError(Some(list(call.value).error)))
    ensures call.Some? && list(call.value).Ok?
            ==> (r.Ok? && |r.value| == |list(call.value).value|
                 && forall i :: 0 <= i < |r.value| ==> r.value[i] == ToResponse(list(call.value).value[i]))
  {
    if provider == "" {
      return Failure(NewValidationError(MissingProviderText)), None;
    }
    var valid := IsValidProviderName(provider);
    if !valid {
      return Failure(NewValidationError(InvalidProviderText)), None;
    }
    var l := limit;
    var o := offset;
    if l <= 0 || l > MaxLimit {
      l := DefaultLimit;
    }
    if o < 0 {
      o := 0;
    }
    call := Some(PageRequest(provider, l, o));
    var users := list(call.value);
    if users.Failure? {
      return Failure(NewInternalError(Some(users.error))), call;
    }
    var responses: seq<UserResponse> := [];
    for i := 0 to |users.value|
      invariant |responses| == i
      invariant forall j :: 0 <= j < i ==> responses[j] == ToResponse(users.value[j])
    {
      responses := responses + [ToResponse(users.value[i])];
    }
    r := Ok(responses);
  }

  /** The name and email handed to `UpdateProfile`: the requested value, or the current one. */
  function Merged(u: UserRecord, req: UpdateUserRequest, now: int): UserRecord
  {
    Updated(u, if req.name.Some? then req.name.value else u.name,
               if req.email.Some? then req.email.value else u.email, now)
  }

  /**
   * An absent field keeps its value, a present non-empty one replaces it,
   * and a present empty one also keeps it (the profile update ignores empty
   * texts). So the merged name is valid exactly when a non-empty name was
   * requested or the stored one was valid.
   */
  lemma MergeProperties(u: UserRecord, req: UpdateUserRequest, now: int)
    ensures req.name.None? ==> Merged(u, req, now).name == u.name
    ensures req.email.None? ==> Merged(u, req, now).email == u.email
    ensures req.name.Some? && req.name.value != "" ==> Merged(u, req, now).name == req.name.value
    ensures req.email.Some? && req.email.value != "" ==> Merged(u, req, now).email == req.email.value
    ensures req.name == Some("") ==> Merged(u, req, now).name == u.name
    ensures ValidateName(Merged(u, req, now)) <==> (req.name.Some? && req.name.value != "") || ValidateName(u)
    ensures Merged(u, req, now).id == u.id && Merged(u, req, now).provider == u.provider
            && Merged(u, req, now).providerID == u.providerID && Merged(u, req, now).createdAt == u.createdAt
    ensures Merged(u, UpdateUserRequest(None, None), now) == u.(updatedAt := now)
  {
    UpdateProperties(u, if req.name.Some? then req.name.value else u.name,
                     if req.email.Some? then req.email.value else u.email, now, now);
  }

  /**
   * `UpdateUserProfile`. `canChangeEmail` is `User.CanChangeEmail`, which the
   * user model does not define; it is taken as given. The user read by the
   * repository is updated in place, validated, and only then written.
   * Failures use the corrected `LookupFailure` and `UpdateFailure`.
   */
  method UpdateUserProfile(req: UpdateUserRequest, lookup: Result<UserRecord, Error>,
                           canChangeEmail: UserRecord -> bool, now: int,
                           update: UserRecord -> Option<Error>)
    returns (r: Result<UserResponse, Error>, written: Option<UserRecord>)
    ensures lookup.Failure? ==> r == Failure(LookupFailure(lookup.error)) && written.None?
    ensures lookup.Ok? && req.email.Some? && !canChangeEmail(lookup.value)
            ==> r == Failure(NewForbiddenError(ForbiddenEmailText)) && written.None?
    ensures (lookup.Ok? && (req.email.None? || canChangeEmail(lookup.value))
             && !ValidateName(Merged(lookup.value, req, now)))
            ==> r == Failure(NewValidationError(InvalidNameText)) && written.None?
    ensures (lookup.Ok? && (req.email.None? || canChangeEmail(lookup.value))
             && ValidateName(Merged(lookup.value, req, now)) && !ValidateEmail(Merged(lookup.value, req, now)))
            ==> r == Failure(NewValidationError(InvalidEmailText)) && written.None?
    ensures written.Some? <==> (lookup.Ok? && (req.email.None? || canChangeEmail(lookup.value))
                                && ValidateName(Merged(lookup.value, req, now))
                                && ValidateEmail(Merged(lookup.value, req, now)))
    ensures written.Some? ==> written.value == Merged(lookup.value, req, now)
    ensures written.Some? && update(written.value).Some? ==> r == Failure(UpdateFailure(update(written.value).value))
    ensures written.Some? && update(written.value).None? ==> r == Ok(ToResponse(written.value))
  {
    if lookup.Failure? {
      return Failure(LookupFailure(lookup.error)), None;
    }
    var user := new User.FromRecord(lookup.value);
    if req.email.Some? && !canChangeEmail(user.Value()) {
      return Failure(NewForbiddenError(ForbiddenEmailText)), None;
    }
    var newName := if req.name.Some? then req.name.value else user.name;
    var newEmail := if req.email.Some? then req.email.value else user.email;
    user.UpdateProfile(newName, newEmail, now);
    if !(user.name != "" && |user.name| > 0) {
      return Failure(NewValidationError(InvalidNameText)), None;
    }
    if !(user.email != "" && |user.email| > 0) {
      return Failure(NewValidationError(InvalidEmailText)), None;
    }
    written := Some(user.Value());
    var err := update(user.Value());
    if err.Some? {
      r := Failure(UpdateFailure(err.value));
    } else {
      r := Ok(ToResponse(user.Value()));
    }
  }
}
