/**
 * backend/internal/infrastructure/auth/claims.go: the claims of a Cognito
 * JWT, their validation, the token-use and provider predicates, the display
 * name, the custom attributes and the log rendering. `time.Now().Unix()` is
 * the parameter `now`.
 */
module Claims {
  import opened Wrappers
  import opened GoErrors
  import opened Uuids

  const GoogleProvider := "Google"
  const CognitoProvider := "Cognito_UserPool"

  /** `CognitoIdentityProvider`. */
  datatype Identity = Identity(userID: string, providerID: string, isPrimary: bool, dateCreated: string)

  /** The claims as decoded from a token; nothing in the backend changes them afterwards. */
  datatype ClaimsData = ClaimsData(
    subject: string, issuer: string, audience: string, expiresAt: int, issuedAt: int,
    tokenUse: string, cognitoUsername: string, email: string, emailVerified: bool,
    givenName: string, familyName: string, name: string,
    identityProvider: string, picture: string, locale: string, identities: seq<Identity>)

  /** The zero value of every claim. */
  const NoClaims := ClaimsData("", "", "", 0, 0, "", "", "", false, "", "", "", "", "", "", [])

  /** The values stored as custom attributes (`interface{}` restricted to what JSON yields). */
  datatype AttrValue = AttrText(text: string) | AttrNumber(number: int) | AttrBool(flag: bool)

  /** `IsExpired`: an expiry of 0 means none. */
  predicate IsExpired(c: ClaimsData, now: int)
  {
    c.expiresAt != 0 && now > c.expiresAt
  }

  /** Expiry only moves forward in time, and claims without an expiry time never expire. */
  lemma ExpiryMonotone(c: ClaimsData, now: int, later: int)
    requires now <= later
    ensures IsExpired(c, now) ==> IsExpired(c, later)
    ensures c.expiresAt == 0 ==> !IsExpired(c, later)
  {
  }

  /** `IsValid`: the first failing check, in the order of the source. */
  function IsValid(c: ClaimsData, now: int): (r: Option<Error>)
    ensures c.subject == "" ==> r == Some(Leaf(App(ErrMissingSubject)))
    ensures c.subject != "" && c.tokenUse == "" ==> r == Some(Leaf(App(ErrMissingTokenUse)))
    ensures (c.subject != "" && c.tokenUse != "" && c.tokenUse != "access" && c.tokenUse != "id")
            ==> r == Some(Leaf(App(ErrInvalidTokenUse)))
    ensures (c.subject != "" && (c.tokenUse == "access" || c.tokenUse == "id") && IsExpired(c, now))
            ==> r == Some(Leaf(App(ErrTokenExpired)))
    ensures (c.subject != "" && (c.tokenUse == "access" || c.tokenUse == "id") && !IsExpired(c, now)
             && Parse(c.subject).Failure?) ==> r == Some(Leaf(App(ErrInvalidSubject)))
    ensures r.None? <==> (c.tokenUse == "access" || c.tokenUse == "id") && !IsExpired(c, now)
                         && Parse(c.subject).Ok?
  {
    if c.subject == "" then Some(Leaf(App(ErrMissingSubject)))
    else if c.tokenUse == "" then Some(Leaf(App(ErrMissingTokenUse)))
    else if c.tokenUse != "access" && c.tokenUse != "id" then Some(Leaf(App(ErrInvalidTokenUse)))
    else if c.expiresAt != 0 && now > c.expiresAt then Some(Leaf(App(ErrTokenExpired)))
    else if Parse(c.subject).Failure? then Some(Leaf(App(ErrInvalidSubject)))
    else None
  }

  /** Valid claims carry a subject that is a UUID and are not expired; an expired token fails for its expiry. */
  lemma ValidClaims(c: ClaimsData, now: int)
    ensures IsValid(c, now).None? ==> GetUserID(c).Ok? && !IsExpired(c, now) && (IsAccessToken(c) || IsIDToken(c))
    ensures IsValid(c, now) == Some(Leaf(App(ErrTokenExpired)))
            <==> c.subject != "" && (IsAccessToken(c) || IsIDToken(c)) && IsExpired(c, now)
  {
  }

  /** `GetUserID`. */
  function GetUserID(c: ClaimsData): Result<Uuid, Error>
  {
    Parse(c.subject)
  }

  predicate IsAccessToken(c: ClaimsData) { c.tokenUse == "access" }
  predicate IsIDToken(c: ClaimsData) { c.tokenUse == "id" }

  lemma TokenUseExclusive(c: ClaimsData)
    ensures !(IsAccessToken(c) && IsIDToken(c))
    ensures IsValid(c, 0).None? ==> IsAccessToken(c) != IsIDToken(c)
  {
  }

  /** `IsGoogleUser` of the claims: an identity provider or an identity is present. */
  predicate IsGoogleUser(c: ClaimsData)
  {
    c.identityProvider != "" || |c.identities| > 0
  }

  /** `GetProviderName`. */
  function GetProviderName(c: ClaimsData): (p: string)
    ensures p == GoogleProvider <==> c.identityProvider != "" || |c.identities| > 0
    ensures p == CognitoProvider <==> c.identityProvider == "" && |c.identities| == 0
  {
    if IsGoogleUser(c) then GoogleProvider else CognitoProvider
  }

  /** The given name, followed by the family name after one space when there is one. */
  function FullName(given: string, family: string): (n: string)
    ensures family == "" ==> n == given
    ensures family != "" ==> |n| == |given| + 1 + |family| && n[..|given|] == given
                             && n[|given|] == ' ' && n[|given| + 1..] == family
  {
    if family != "" then given + " " + family else given
  }

  /** `GetDisplayName`: name, then given (and family) name, then user name, then the email, possibly empty. */
  function GetDisplayName(c: ClaimsData): (n: string)
    ensures c.name != "" ==> n == c.name
    ensures c.name == "" && c.givenName != "" ==> n == FullName(c.givenName, c.familyName)
    ensures c.name == "" && c.givenName == "" && c.cognitoUsername != "" ==> n == c.cognitoUsername
    ensures c.name == "" && c.givenName == "" && c.cognitoUsername == "" ==> n == c.email
    ensures n == "" <==> c.name == "" && c.givenName == "" && c.cognitoUsername == "" && c.email == ""
  {
    if c.name != "" then c.name
    else if c.givenName != "" then FullName(c.givenName, c.familyName)
    else if c.cognitoUsername != "" then c.cognitoUsername
    else c.email
  }

  /** The subject as logged: at most eight characters, then "..." when cut. */
  function ShortSubject(s: string): (r: string)
    ensures |s| <= 8 ==> r == s
    ensures |s| > 8 ==> |r| == 11 && r[..8] == s[..8] && r[8..] == "..."
  {
    if |s| > 8 then s[..8] + "..." else s
  }

  /** `ToLogString`: the subject shortened, never the whole of a long one. */
  function ToLogString(c: ClaimsData, now: int): string
  {
    "CognitoClaims[Sub=" + ShortSubject(c.subject) + ", TokenUse=" + c.tokenUse + ", Email=" + c.email
    + ", Provider=" + GetProviderName(c) + ", Expired=" + (if IsExpired(c, now) then "true" else "false") + "]"
  }

  /** The log line starts with the shortened subject, so a long subject never appears in full. */
  lemma LogStringShowsShortSubject(c: ClaimsData, now: int)
    ensures var pre := "CognitoClaims[Sub=" + ShortSubject(c.subject) + ", TokenUse=";
            |pre| <= |ToLogString(c, now)| && ToLogString(c, now)[..|pre|] == pre
  {
  }

  /**
   * A `*CognitoClaims`: the decoded claims and the custom-attribute map,
   * which is the one field the backend sets after decoding. A Go map that is
   * `nil` is `None`.
   */
  class CognitoClaims {
    const data: ClaimsData
    var customAttributes: Option<map<string, AttrValue>>

    /** `NewCognitoClaims`: zero claims with an empty, non-nil map. */
    constructor ()
      ensures data == NoClaims && customAttributes == Some(map[])
    {
      data := NoClaims;
      customAttributes := Some(map[]);
    }

    /** Claims decoded from a token: the map is left nil. */
    constructor Decoded(data: ClaimsData)
      ensures this.data == data && customAttributes.None?
    {
      this.data := data;
      customAttributes := None;
    }

    /** `GetCustomAttribute`: a nil map reads as absent. */
    function GetCustomAttribute(key: string): (r: Option<AttrValue>)
      reads this
      ensures customAttributes.None? ==> r.None?
      ensures r.Some? <==> customAttributes.Some? && key in customAttributes.value
      ensures r.Some? ==> r.value == customAttributes.value[key]
    {
      if customAttributes.None? then None
      else if key in customAttributes.value then Some(customAttributes.value[key])
      else None
    }

    /** `SetCustomAttribute`: makes the map when nil, then stores the value. */
    method SetCustomAttribute(key: string, value: AttrValue)
      modifies this
      ensures customAttributes.Some?
      ensures customAttributes.value
              == (if old(customAttributes).None? then map[] else old(customAttributes).value)[key := value]
      ensures GetCustomAttribute(key) == Some(value)
      ensures forall k :: k != key ==> GetCustomAttribute(k) == old(GetCustomAttribute(k))
    {
      if customAttributes.None? {
        customAttributes := Some(map[]);
      }
      customAttributes := Some(customAttributes.value[key := value]);
    }
  }
}
