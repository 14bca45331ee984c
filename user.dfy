/**
 * backend/internal/domain/model/user.go: the user entity, its creation and
 * profile update, the provider predicates and the two field validators.
 * `time.Now()` is the parameter `now`.
 */
module Users {
  import opened Wrappers
  import opened Uuids

  const GoogleProvider := "Google"
  const CognitoProvider := "Cognito_UserPool"

  datatype UserRecord = UserRecord(id: Uuid, name: string, email: string, provider: string,
                                   providerID: Option<string>, createdAt: int, updatedAt: int)

  /** `UserCreationParams` (its `IsGoogleUser` flag is not read by `NewUser`). */
  datatype UserCreationParams = UserCreationParams(userID: Uuid, name: string, email: string,
                                                   provider: string, providerID: Option<string>,
                                                   isGoogleUser: bool)

  /** `UserResponse`: the user without its provider id. */
  datatype UserResponse = UserResponse(id: Uuid, name: string, email: string, provider: string,
                                       createdAt: int, updatedAt: int)

  predicate IsGoogleUser(u: UserRecord) { u.provider == GoogleProvider }
  predicate IsCognitoUser(u: UserRecord) { u.provider == CognitoProvider }

  /** `ValidateEmail`: the test `len(Email) > 0` adds nothing to `Email != ""`. */
  predicate ValidateEmail(u: UserRecord) { u.email != "" && |u.email| > 0 }
  predicate ValidateName(u: UserRecord) { u.name != "" && |u.name| > 0 }

  /** A user is never both a Google and a Cognito user, and each validator is non-emptiness. */
  lemma ProviderAndValidators(u: UserRecord)
    ensures !(IsGoogleUser(u) && IsCognitoUser(u))
    ensures ValidateEmail(u) <==> |u.email| > 0
    ensures ValidateName(u) <==> |u.name| > 0
  {
    assert GoogleProvider[0] != CognitoProvider[0];
  }

  /** `ToResponse`. */
  function ToResponse(u: UserRecord): (r: UserResponse)
    ensures r.id == u.id && r.name == u.name && r.email == u.email && r.provider == u.provider
    ensures r.createdAt == u.createdAt && r.updatedAt == u.updatedAt
  {
    UserResponse(u.id, u.name, u.email, u.provider, u.createdAt, u.updatedAt)
  }

  /** What `UpdateProfile` does to a user: an empty text keeps the old value. */
  function Updated(u: UserRecord, name: string, email: string, now: int): UserRecord
  {
    u.(name := if name != "" then name else u.name,
       email := if email != "" then email else u.email,
       updatedAt := now)
  }

  /**
   * A non-empty text replaces its field and an empty one keeps it; the update
   * time is always refreshed and nothing else changes. So an update never
   * empties a field that was set, and repeating it only moves the update time.
   */
  lemma UpdateProperties(u: UserRecord, name: string, email: string, now: int, later: int)
    ensures var v := Updated(u, name, email, now);
            v.name == (if name != "" then name else u.name)
            && v.email == (if email != "" then email else u.email)
            && v.updatedAt == now
            && v.id == u.id && v.provider == u.provider && v.providerID == u.providerID && v.createdAt == u.createdAt
    ensures ValidateName(u) ==> ValidateName(Updated(u, name, email, now))
    ensures ValidateEmail(u) ==> ValidateEmail(Updated(u, name, email, now))
    ensures ValidateName(Updated(u, name, email, now)) <==> name != "" || ValidateName(u)
    ensures Updated(Updated(u, name, email, now), name, email, later) == Updated(u, name, email, later)
    ensures Updated(u, "", "", now) == u.(updatedAt := now)
  {
  }

  /** The user object that `UpdateProfile` changes in place. */
  class User {
    var id: Uuid
    var name: string
    var email: string
    var provider: string
    var providerID: Option<string>
    var createdAt: int
    var updatedAt: int

    function Value(): UserRecord
      reads this
    {
      UserRecord(id, name, email, provider, providerID, createdAt, updatedAt)
    }

    /** `NewUser`: the parameters, created and updated at the same instant. */
    constructor (params: UserCreationParams, now: int)
      ensures Value() == UserRecord(params.userID, params.name, params.email, params.provider,
                                    params.providerID, now, now)
    {
      id := params.userID;
      name := params.name;
      email := params.email;
      provider := params.provider;
      providerID := params.providerID;
      createdAt := now;
      updatedAt := now;
    }

    /** A user as the repository reads it back. */
    constructor FromRecord(u: UserRecord)
      ensures Value() == u
    {
      id := u.id;
      name := u.name;
      email := u.email;
      provider := u.provider;
      providerID := u.providerID;
      createdAt := u.createdAt;
      updatedAt := u.updatedAt;
    }

    /** `UpdateProfile`. */
    method UpdateProfile(newName: string, newEmail: string, now: int)
      modifies this
      ensures Value() == Updated(old(Value()), newName, newEmail, now)
    {
      if newName != "" {
        name := newName;
      }
      if newEmail != "" {
        email := newEmail;
      }
      updatedAt := now;
    }
  }
}
