/**
 * backend/internal/domain/model/userconfig.go: a user's pomodoro settings,
 * their defaults and ranges, and the validation the use cases apply.
 * Instants are Unix seconds; Go's zero `time.Time` (January 1 of year 1,
 * UTC) is `ZeroTime`. A nil `*UserConfig` receiver is `None`.
 */
module UserConfigs {
  import opened Wrappers
  import opened GoErrors
  import opened Uuids

  const DefaultWorkTime := 25
  const DefaultBreakTime := 5
  const DefaultSessionRounds := 3
  const DefaultSessionBreakTime := 15

  const MinWorkTime := 1
  const MaxWorkTime := 120
  const MinBreakTime := 1
  const MaxBreakTime := 60
  const MinSessionRounds := 1
  const MaxSessionRounds := 10
  const MinSessionBreakTime := 5
  const MaxSessionBreakTime := 120

  const ZeroTime := -62135596800

  datatype UserConfigRecord = UserConfigRecord(
    userID: string, roundWorkTime: int, roundBreakTime: int, sessionRounds: int, sessionBreakTime: int,
    createdAt: int, updatedAt: int)

  /** `IsValid`: each of the four settings lies in its range. */
  predicate IsValid(c: UserConfigRecord)
  {
    MinWorkTime <= c.roundWorkTime <= MaxWorkTime
    && MinBreakTime <= c.roundBreakTime <= MaxBreakTime
    && MinSessionRounds <= c.sessionRounds <= MaxSessionRounds
    && MinSessionBreakTime <= c.sessionBreakTime <= MaxSessionBreakTime
  }

  /** `NewUserConfig`: the defaults, created and updated at the same instant. */
  function DefaultConfig(userID: Uuid, now: int): (c: UserConfigRecord)
    ensures c.userID == userID && c.createdAt == c.updatedAt == now
    ensures c.roundWorkTime == 25 && c.roundBreakTime == 5 && c.sessionRounds == 3 && c.sessionBreakTime == 15
    ensures IsValid(c)
  {
    UserConfigRecord(userID, DefaultWorkTime, DefaultBreakTime, DefaultSessionRounds, DefaultSessionBreakTime, now, now)
  }

  /** `GetWorkTimeOrDefault`: always positive; the setting itself when it is. */
  function GetWorkTimeOrDefault(c: Option<UserConfigRecord>): (w: int)
    ensures w > 0
    ensures c.Some? && c.value.roundWorkTime > 0 ==> w == c.value.roundWorkTime
    ensures c.None? || c.value.roundWorkTime <= 0 ==> w == DefaultWorkTime
  {
    if c.None? || c.value.roundWorkTime <= 0 then DefaultWorkTime else c.value.roundWorkTime
  }

  function GetBreakTimeOrDefault(c: Option<UserConfigRecord>): (b: int)
    ensures b > 0
    ensures c.Some? && c.value.roundBreakTime > 0 ==> b == c.value.roundBreakTime
    ensures c.None? || c.value.roundBreakTime <= 0 ==> b == DefaultBreakTime
  {
    if c.None? || c.value.roundBreakTime <= 0 then DefaultBreakTime else c.value.roundBreakTime
  }

  function GetSessionRoundsOrDefault(c: Option<UserConfigRecord>): (n: int)
    ensures n > 0
    ensures c.Some? && c.value.sessionRounds > 0 ==> n == c.value.sessionRounds
    ensures c.None? || c.value.sessionRounds <= 0 ==> n == DefaultSessionRounds
  {
    if c.None? || c.value.sessionRounds <= 0 then DefaultSessionRounds else c.value.sessionRounds
  }

  function GetSessionBreakTimeOrDefault(c: Option<UserConfigRecord>): (b: int)
    ensures b > 0
    ensures c.Some? && c.value.sessionBreakTime > 0 ==> b == c.value.sessionBreakTime
    ensures c.None? || c.value.sessionBreakTime <= 0 ==> b == DefaultSessionBreakTime
  {
    if c.None? || c.value.sessionBreakTime <= 0 then DefaultSessionBreakTime else c.value.sessionBreakTime
  }

  /** `GetOptimizationBaseValues`: the four getters, in order. */
  function GetOptimizationBaseValues(c: Option<UserConfigRecord>): (v: (int, int, int, int))
    ensures v.0 > 0 && v.1 > 0 && v.2 > 0 && v.3 > 0
    ensures c.None? ==> v == (DefaultWorkTime, DefaultBreakTime, DefaultSessionRounds, DefaultSessionBreakTime)
  {
    (GetWorkTimeOrDefault(c), GetBreakTimeOrDefault(c), GetSessionRoundsOrDefault(c), GetSessionBreakTimeOrDefault(c))
  }

  /** A valid configuration is its own base values; a missing one gives the defaults. */
  lemma BaseValuesOfValid(c: UserConfigRecord)
    requires IsValid(c)
    ensures GetOptimizationBaseValues(Some(c)) == (c.roundWorkTime, c.roundBreakTime, c.sessionRounds, c.sessionBreakTime)
    ensures GetOptimizationBaseValues(None) == (25, 5, 3, 15)
  {
  }

  const WorkTimeRangeText := "作業時間は1分から120分の間で設定してください"
  const BreakTimeRangeText := "休憩時間は1分から60分の間で設定してください"
  const SessionRoundsRangeText := "セッションラウンド数は1回から10回の間で設定してください"
  const SessionBreakRangeText := "セッション長休憩時間は5分から120分の間で設定してください"

  /** `ValidateSettings`: nil exactly for a valid configuration, otherwise the first failing setting. */
  function ValidateSettings(c: UserConfigRecord): (e: Option<Error>)
    ensures e.None? <==> IsValid(c)
    ensures !(MinWorkTime <= c.roundWorkTime <= MaxWorkTime) ==> e == Some(Opaque(WorkTimeRangeText))
    ensures MinWorkTime <= c.roundWorkTime <= MaxWorkTime && !(MinBreakTime <= c.roundBreakTime <= MaxBreakTime)
            ==> e == Some(Opaque(BreakTimeRangeText))
    ensures (MinWorkTime <= c.roundWorkTime <= MaxWorkTime && MinBreakTime <= c.roundBreakTime <= MaxBreakTime
             && !(MinSessionRounds <= c.sessionRounds <= MaxSessionRounds)) ==> e == Some(Opaque(SessionRoundsRangeText))
    ensures (e.Some? && MinWorkTime <= c.roundWorkTime <= MaxWorkTime && MinBreakTime <= c.roundBreakTime <= MaxBreakTime
             && MinSessionRounds <= c.sessionRounds <= MaxSessionRounds) ==> e == Some(Opaque(SessionBreakRangeText))
  {
    if c.roundWorkTime < MinWorkTime || c.roundWorkTime > MaxWorkTime then Some(Opaque(WorkTimeRangeText))
    else if c.roundBreakTime < MinBreakTime || c.roundBreakTime > MaxBreakTime then Some(Opaque(BreakTimeRangeText))
    else if c.sessionRounds < MinSessionRounds || c.sessionRounds > MaxSessionRounds then Some(Opaque(SessionRoundsRangeText))
    else if c.sessionBreakTime < MinSessionBreakTime || c.sessionBreakTime > MaxSessionBreakTime then
      Some(Opaque(SessionBreakRangeText))
    else None
  }

  datatype UserConfigResponse = UserConfigResponse(
    userID: string, roundWorkTime: int, roundBreakTime: int, sessionRounds: int, sessionBreakTime: int,
    createdAt: int, updatedAt: int)

  /** `ToResponse`: a field-by-field copy. */
  function ToResponse(c: UserConfigRecord): UserConfigResponse
  {
    UserConfigResponse(c.userID, c.roundWorkTime, c.roundBreakTime, c.sessionRounds, c.sessionBreakTime,
                       c.createdAt, c.updatedAt)
  }

  /** The response loses nothing: two configurations have the same response exactly when they are equal. */
  lemma ResponseKeepsEveryField(a: UserConfigRecord, b: UserConfigRecord)
    ensures ToResponse(a) == ToResponse(b) <==> a == b
  {
  }

  /** The settings object that `UpdateSettings`, the partial update and the decoder change in place. */
  class UserConfig {
    var userID: string
    var roundWorkTime: int
    var roundBreakTime: int
    var sessionRounds: int
    var sessionBreakTime: int
    var createdAt: int
    var updatedAt: int

    function Value(): UserConfigRecord
      reads this
    {
      UserConfigRecord(userID, roundWorkTime, roundBreakTime, sessionRounds, sessionBreakTime, createdAt, updatedAt)
    }

    /** `NewUserConfig` (and `NewDefaultUserConfig`, which only calls it). */
    constructor (userID: Uuid, now: int)
      ensures Value() == DefaultConfig(userID, now)
    {
      this.userID := userID;
      roundWorkTime := DefaultWorkTime;
      roundBreakTime := DefaultBreakTime;
      sessionRounds := DefaultSessionRounds;
      sessionBreakTime := DefaultSessionBreakTime;
      createdAt := now;
      updatedAt := now;
    }

    /** A configuration holding the given fields (a struct literal). */
    constructor FromRecord(c: UserConfigRecord)
      ensures Value() == c
    {
      userID := c.userID;
      roundWorkTime := c.roundWorkTime;
      roundBreakTime := c.roundBreakTime;
      sessionRounds := c.sessionRounds;
      sessionBreakTime := c.sessionBreakTime;
      createdAt := c.createdAt;
      updatedAt := c.updatedAt;
    }

    /** `UpdateSettings`: the four settings and the update time; the owner and creation time stay. */
    method UpdateSettings(work: int, rest: int, rounds: int, sessionBreak: int, now: int)
      modifies this
      ensures Value() == old(Value()).(roundWorkTime := work, roundBreakTime := rest, sessionRounds := rounds,
                                       sessionBreakTime := sessionBreak, updatedAt := now)
      ensures userID == old(userID) && createdAt == old(createdAt)
    {
      roundWorkTime := work;
      roundBreakTime := rest;
      sessionRounds := rounds;
      sessionBreakTime := sessionBreak;
      updatedAt := now;
    }
  }
}
