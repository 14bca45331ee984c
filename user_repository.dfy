/**
 * backend/internal/infrastructure/repository/postgres/user_repository.go:
 * the two rules that read Cognito claims (the display name and the identity
 * provider), and the errors the repository answers with. The SQL itself is
 * not modelled: a query is represented by its outcome.
 */
module UserRepository {
  import opened Wrappers
  import opened Text
  import opened GoErrors
  import opened Users
  import Claims

  /** The outcome of the `SELECT` behind `GetByID` and `GetByEmail`. */
  datatype QueryOutcome = Found(user: UserRecord) | NoRows | QueryFailed(text: string)

  /** The outcome of an `UPDATE` or `DELETE`: the driver failed, the row count failed, or a row count. */
  datatype ExecOutcome = ExecFailed(text: string) | RowsUnknown(text: string) | Rows(count: int)

  /** The repository's own not-found sentinel, declared next to the queries. */
  const NotFound := Leaf(PgUser(PgUserNotFound))

  /** `GetByID` / `GetByEmail`: no row is the local not-found sentinel, other errors pass through. */
  function GetResult(q: QueryOutcome): (r: Result<UserRecord, Error>)
    ensures q.Found? <==> r.Ok?
    ensures q.Found? ==> r.value == q.user
    ensures q.NoRows? ==> r == Failure(NotFound)
    ensures q.QueryFailed? ==> r == Failure(Opaque(q.text))
  {
    match q
    case Found(u) => Ok(u)
    case NoRows => Failure(NotFound)
    case QueryFailed(t) => Failure(Opaque(t))
  }

  /** `Update` and `Delete`: a failed statement wraps `failed`, zero rows is not-found. */
  function ExecResult(o: ExecOutcome, failed: PgUserSentinel, countText: string): (r: Option<Error>)
    ensures r.None? <==> o.Rows? && o.count != 0
    ensures o.ExecFailed? ==> r == Some(Wrapped("", Leaf(PgUser(failed)), ": " + o.text))
    ensures o.RowsUnknown? ==> r == Some(Opaque(countText + o.text))
    ensures o.Rows? && o.count == 0 ==> r == Some(NotFound)
  {
    match o
    case ExecFailed(t) => Some(Wrapped("", Leaf(PgUser(failed)), ": " + t))
    case RowsUnknown(t) => Some(Opaque(countText + t))
    case Rows(n) => if n == 0 then Some(NotFound) else None
  }

  function UpdateResult(o: ExecOutcome): Option<Error>
  {
    ExecResult(o, PgUserUpdateFailed, "更新結果確認エラー: ")
  }

  function DeleteResult(o: ExecOutcome): Option<Error>
  {
    ExecResult(o, PgUserDeleteFailed, "削除結果確認エラー: ")
  }

  /** No error of this repository is one of the application's sentinels. */
  lemma RepositoryErrorsAreLocal(q: QueryOutcome, o: ExecOutcome, s: AppSentinel)
    ensures GetResult(q).Failure? ==> !Is(GetResult(q).error, App(s))
    ensures UpdateResult(o).Some? ==> !Is(UpdateResult(o).value, App(s))
    ensures DeleteResult(o).Some? ==> !Is(DeleteResult(o).value, App(s))
    ensures q.NoRows? ==> Is(GetResult(q).error, PgUser(PgUserNotFound))
    ensures o == Rows(0) ==> (Is(UpdateResult(o).value, PgUser(PgUserNotFound))
                              && Is(DeleteResult(o).value, PgUser(PgUserNotFound)))
  {
  }

  /** `extractDisplayName`: the claims' display name, with "User" when even the email is empty. */
  function ExtractDisplayName(c: Claims.ClaimsData): (n: string)
    ensures n != ""
  {
    if c.name != "" then c.name
    else if c.givenName != "" then Claims.FullName(c.givenName, c.familyName)
    else if c.cognitoUsername != "" then c.cognitoUsername
    else if c.email != "" then c.email
    else "User"
  }

  /** The repository's rule is the claims' own display name, falling back to "User" only when that is empty. */
  lemma DisplayNameAgrees(c: Claims.ClaimsData)
    ensures ExtractDisplayName(c) == (if Claims.GetDisplayName(c) != "" then Claims.GetDisplayName(c) else "User")
    ensures c.name != "" ==> ExtractDisplayName(c) == c.name
    ensures c.name == "" && c.givenName != "" && c.familyName != ""
            ==> ExtractDisplayName(c) == c.givenName + " " + c.familyName
    ensures c.name == "" && c.givenName == "" && c.cognitoUsername == "" && c.email == ""
            ==> ExtractDisplayName(c) == "User"
  {
  }

  /** An identity whose provider id names Google, in either capitalisation the source tests. */
  predicate IsGoogleIdentity(id: Claims.Identity)
  {
    Contains(id.providerID, "google") || Contains(id.providerID, "Google")
  }

  /** The index of the first Google identity at or after `i`, or -1. */
  function FirstGoogleFrom(ids: seq<Claims.Identity>, i: nat): (k: int)
    requires i <= |ids|
    ensures k == -1 <==> forall j :: i <= j < |ids| ==> !IsGoogleIdentity(ids[j])
    ensures k != -1 ==> i <= k < |ids| && IsGoogleIdentity(ids[k])
                        && forall j :: i <= j < k ==> !IsGoogleIdentity(ids[j])
    decreases |ids| - i
  {
    if i == |ids| then -1
    else if IsGoogleIdentity(ids[i]) then i
    else FirstGoogleFrom(ids, i + 1)
  }

  /** The subject as a provider id, when there is one. */
  function SubjectID(c: Claims.ClaimsData): (id: Option<string>)
    ensures id.Some? <==> c.subject != ""
    ensures id.Some? ==> id.value == c.subject
  {
    if c.subject != "" then Some(c.subject) else None
  }

  /** What `detectProviderType` answers: the four Google patterns in order, else the user pool. */
  function DetectedProvider(c: Claims.ClaimsData): (string, Option<string>)
  {
    var k := FirstGoogleFrom(c.identities, 0);
    if k != -1 then (GoogleProvider, Some(c.identities[k].userID))
    else if c.identityProvider != "" then (GoogleProvider, SubjectID(c))
    else if c.picture != "" && Contains(c.picture, "googleusercontent.com") then (GoogleProvider, SubjectID(c))
    else if c.locale != "" then (GoogleProvider, SubjectID(c))
    else (CognitoProvider, None)
  }

  /** The priority of the patterns, and what each yields. */
  lemma DetectionPriority(c: Claims.ClaimsData, i: nat)
    requires i < |c.identities| && IsGoogleIdentity(c.identities[i])
    requires forall j :: 0 <= j < i ==> !IsGoogleIdentity(c.identities[j])
    ensures DetectedProvider(c) == (GoogleProvider, Some(c.identities[i].userID))
  {
  }

  lemma DetectionFallbacks(c: Claims.ClaimsData)
    requires forall j :: 0 <= j < |c.identities| ==> !IsGoogleIdentity(c.identities[j])
    ensures c.identityProvider != "" ==> DetectedProvider(c) == (GoogleProvider, SubjectID(c))
    ensures c.identityProvider == "" && Contains(c.picture, "googleusercontent.com")
            ==> DetectedProvider(c) == (GoogleProvider, SubjectID(c))
    ensures c.identityProvider == "" && !Contains(c.picture, "googleusercontent.com") && c.locale != ""
            ==> DetectedProvider(c) == (GoogleProvider, SubjectID(c))
    ensures DetectedProvider(c).0 == CognitoProvider
            <==> c.identityProvider == "" && !Contains(c.picture, "googleusercontent.com") && c.locale == ""
    ensures DetectedProvider(c).0 == CognitoProvider ==> DetectedProvider(c).1.None?
  {
    assert FirstGoogleFrom(c.identities, 0) == -1;
    assert Contains(c.picture, "googleusercontent.com") ==> c.picture != "";
  }

  /** `detectProviderType`: the identity loop, then the three claim patterns. */
  method DetectProviderType(c: Claims.ClaimsData) returns (provider: string, providerID: Option<string>)
    ensures (provider, providerID) == DetectedProvider(c)
  {
    var i := 0;
    while i < |c.identities|
      invariant 0 <= i <= |c.identities|
      invariant FirstGoogleFrom(c.identities, 0) == FirstGoogleFrom(c.identities, i)
    {
      var identity := c.identities[i];
      if Contains(identity.providerID, "google") || Contains(identity.providerID, "Google") {
        return GoogleProvider, Some(identity.userID);
      }
      i := i + 1;
    }
    if c.identityProvider != "" {
      provider := GoogleProvider;
      providerID := if c.subject != "" then Some(c.subject) else None;
      return;
    }
    if c.picture != "" && Contains(c.picture, "googleusercontent.com") {
      provider := GoogleProvider;
      providerID := if c.subject != "" then Some(c.subject) else None;
      return;
    }
    if c.locale != "" {
      provider := GoogleProvider;
      providerID := if c.subject != "" then Some(c.subject) else None;
      return;
    }
    provider := CognitoProvider;
    providerID := None;
  }
}
