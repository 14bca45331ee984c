/**
 * backend/internal/infrastructure/repository/dynamodb/sample_optimization_data_repository.go:
 * the fixed-pattern generator of a new user's sample optimisation history,
 * the batched writer (at most 25 items per BatchWriteItem), and the
 * text-based classification of write errors with its hand-written
 * case-insensitive substring search. The DynamoDB client is the parameter
 * `client`, which gives the error of a batch write, if any.
 */
module SampleData {
  import opened Wrappers
  import opened Text
  import opened GoErrors
  import opened Uuids
  import opened OptimizationLog
  import InfraErrors
  import DynamoDBHandler

  const Minute := 60
  const Hour := 3600
  const Day := 86400

  datatype DayPattern = DayPattern(day: int, sessions: int, baseFocus: real, roundsPerSession: int)
  datatype RoundPattern = RoundPattern(order: int, workTime: int, breakTime: int, focusAdjust: int)

  /** Ten days: day offset, sessions that day, base focus, rounds per session. */
  const SampleDayPatterns: seq<DayPattern> := [
    DayPattern(0, 1, 65.0, 3), DayPattern(1, 2, 68.0, 3), DayPattern(2, 1, 62.0, 2),
    DayPattern(3, 2, 72.0, 3), DayPattern(4, 3, 75.0, 4), DayPattern(5, 2, 78.0, 3),
    DayPattern(6, 1, 70.0, 3), DayPattern(7, 3, 82.0, 4), DayPattern(8, 2, 85.0, 3),
    DayPattern(9, 2, 88.0, 4)
  ]

  /** Four rounds: order, work minutes, break minutes, focus adjustment. */
  const RoundPatterns: seq<RoundPattern> := [
    RoundPattern(0, 25, 5, 5), RoundPattern(1, 25, 5, 0), RoundPattern(2, 25, 10, -3), RoundPattern(3, 20, 15, -5)
  ]

  /** Go's `int(x)` of a float: truncation toward zero. */
  function Trunc(x: real): (r: int)
    ensures x >= 0.0 ==> r as real <= x < r as real + 1.0
    ensures x < 0.0 ==> r as real - 1.0 < x <= r as real
  {
    if x >= 0.0 then x.Floor else -((-x).Floor)
  }

  function Clamp(x: int, lo: int, hi: int): (r: int)
    requires lo <= hi
    ensures lo <= r <= hi
    ensures lo <= x <= hi ==> r == x
    ensures x < lo ==> r == lo
    ensures x > hi ==> r == hi
  {
    if x > hi then hi else if x < lo then lo else x
  }

  /** Work minutes of round `n`: 30 for the first and 20 from the fourth on after day 5, otherwise the pattern's. */
  function RoundWorkTime(p: DayPattern, n: nat): int
    requires n < |RoundPatterns|
  {
    if p.day > 5 && n == 0 then 30
    else if p.day > 5 && n >= 3 then 20
    else RoundPatterns[n].workTime
  }

  function RoundLogFor(u: Uuid, t: int, p: DayPattern, n: nat, rfc3339: int -> string): RoundOptimizationLog
    requires n < |RoundPatterns|
  {
    NewRoundOptimizationLogWithTime(u, t, RoundWorkTime(p, n), RoundPatterns[n].breakTime,
                                    Clamp(Trunc(p.baseFocus) + RoundPatterns[n].focusAdjust, 30, 100), rfc3339)
  }

  function SessionLogFor(u: Uuid, t: int, p: DayPattern, rfc3339: int -> string): SessionOptimizationLog
  {
    NewSessionOptimizationLogWithTime(u, t, p.roundsPerSession, if p.day > 5 then 20 else 15, p.baseFocus,
                                      p.roundsPerSession * 25, rfc3339)
  }

  /** `generateRoundLog`: pattern values, the late-day work adjustment, and the focus score clamped into [30,100]. */
  method GenerateRoundLog(u: Uuid, t: int, p: DayPattern, roundNum: nat, rfc3339: int -> string)
    returns (log: RoundOptimizationLog)
    requires roundNum < |RoundPatterns|
    ensures log == RoundLogFor(u, t, p, roundNum, rfc3339)
    ensures 30 <= log.focusScore <= 100
    ensures log.breakTime == RoundPatterns[roundNum].breakTime
    ensures log.timestamp == log.createdAt == rfc3339(t)
  {
    var pattern := RoundPatterns[roundNum];
    var workTime := pattern.workTime;
    var breakTime := pattern.breakTime;
    if p.day > 5 {
      if roundNum == 0 {
        workTime := 30;
      } else if roundNum >= 3 {
        workTime := 20;
      }
    }
    var focusScore := Trunc(p.baseFocus) + pattern.focusAdjust;
    if focusScore > 100 {
      focusScore := 100;
    }
    if focusScore < 30 {
      focusScore := 30;
    }
    log := NewRoundOptimizationLogWithTime(u, t, workTime, breakTime, focusScore, rfc3339);
  }

  /** `generateSessionLog`: the pattern's round count, 25 minutes per round, a 15 (after day 5: 20) minute long break. */
  method GenerateSessionLog(u: Uuid, t: int, p: DayPattern, rfc3339: int -> string) returns (log: SessionOptimizationLog)
    ensures log == SessionLogFor(u, t, p, rfc3339)
    ensures log.roundCount == p.roundsPerSession && log.totalWorkTime == log.roundCount * 25
    ensures log.breakTime == (if p.day > 5 then 20 else 15) && log.avgFocusScore == p.baseFocus
  {
    var roundCount := p.roundsPerSession;
    var breakTime := 15;
    if p.day > 5 {
      breakTime := 20;
    }
    var totalWorkTime := roundCount * 25;
    log := NewSessionOptimizationLogWithTime(u, t, roundCount, breakTime, p.baseFocus, totalWorkTime, rfc3339);
  }

  function Nat0(x: int): nat { if x < 0 then 0 else x }

  /** The rounds the inner loop runs: the pattern's count, stopped at the number of round patterns. */
  function RoundsRun(p: DayPattern): (n: nat)
    ensures n <= |RoundPatterns|
  {
    if Nat0(p.roundsPerSession) > |RoundPatterns| then |RoundPatterns| else Nat0(p.roundsPerSession)
  }

  /** Sessions start at 9, 13, 17 o'clock of their day; rounds every 30 minutes from the session start. */
  function SessionStart(base: int, p: DayPattern, s: int): int { base + p.day * Day + (9 + s * 4) * Hour }

  function SessionRounds(u: Uuid, start: int, p: DayPattern, n: nat, rfc3339: int -> string): (r: seq<RoundOptimizationLog>)
    requires n <= |RoundPatterns|
    ensures |r| == n
  {
    if n == 0 then [] else SessionRounds(u, start, p, n - 1, rfc3339) + [RoundLogFor(u, start + (n - 1) * 30 * Minute, p, n - 1, rfc3339)]
  }

  function DayRounds(u: Uuid, base: int, p: DayPattern, s: nat, rfc3339: int -> string): (r: seq<RoundOptimizationLog>)
    ensures |r| == s * RoundsRun(p)
  {
    if s == 0 then [] else DayRounds(u, base, p, s - 1, rfc3339) + SessionRounds(u, SessionStart(base, p, s - 1), p, RoundsRun(p), rfc3339)
  }

  function DaySessions(u: Uuid, base: int, p: DayPattern, s: nat, rfc3339: int -> string): (r: seq<SessionOptimizationLog>)
    ensures |r| == s
  {
    if s == 0 then [] else DaySessions(u, base, p, s - 1, rfc3339) + [SessionLogFor(u, SessionStart(base, p, s - 1), p, rfc3339)]
  }

  function AllRounds(u: Uuid, base: int, days: seq<DayPattern>, d: nat, rfc3339: int -> string): seq<RoundOptimizationLog>
    requires d <= |days|
  {
    if d == 0 then [] else AllRounds(u, base, days, d - 1, rfc3339) + DayRounds(u, base, days[d - 1], Nat0(days[d - 1].sessions), rfc3339)
  }

  function AllSessions(u: Uuid, base: int, days: seq<DayPattern>, d: nat, rfc3339: int -> string): seq<SessionOptimizationLog>
    requires d <= |days|
  {
    if d == 0 then [] else AllSessions(u, base, days, d - 1, rfc3339) + DaySessions(u, base, days[d - 1], Nat0(days[d - 1].sessions), rfc3339)
  }

  function SumSessions(days: seq<DayPattern>, d: nat): nat
    requires d <= |days|
  {
    if d == 0 then 0 else SumSessions(days, d - 1) + Nat0(days[d - 1].sessions)
  }

  function SumRounds(days: seq<DayPattern>, d: nat): nat
    requires d <= |days|
  {
    if d == 0 then 0 else SumRounds(days, d - 1) + Nat0(days[d - 1].sessions) * RoundsRun(days[d - 1])
  }

  /** One session log per (day, session) and the run rounds of every session. */
  lemma {:induction false} GeneratedCounts(u: Uuid, base: int, days: seq<DayPattern>, d: nat, rfc3339: int -> string)
    requires d <= |days|
    ensures |AllSessions(u, base, days, d, rfc3339)| == SumSessions(days, d)
    ensures |AllRounds(u, base, days, d, rfc3339)| == SumRounds(days, d)
  {
    if d > 0 {
      GeneratedCounts(u, base, days, d - 1, rfc3339);
    }
  }

  /** The break in the round loop never fires for the sample days: no day asks for more than four rounds. */
  lemma RoundGuardNeverFires()
    ensures forall i :: 0 <= i < |SampleDayPatterns| ==>
              SampleDayPatterns[i].roundsPerSession <= |RoundPatterns|
              && RoundsRun(SampleDayPatterns[i]) == SampleDayPatterns[i].roundsPerSession
  {
  }

  /** 19 sessions and 64 rounds in all. */
  lemma SampleTotals()
    ensures SumSessions(SampleDayPatterns, |SampleDayPatterns|) == 19
    ensures SumRounds(SampleDayPatterns, |SampleDayPatterns|) == 64
  {
    RoundGuardNeverFires();
  }

  /** For every sample day and round, the unclamped score already lies in [30,100]: the clamp never changes it. */
  lemma SampleScoresUnclamped(i: nat, n: nat)
    requires i < |SampleDayPatterns| && n < |RoundPatterns|
    ensures var x := Trunc(SampleDayPatterns[i].baseFocus) + RoundPatterns[n].focusAdjust;
            30 <= x <= 100 && Clamp(x, 30, 100) == x
  {
    var p := SampleDayPatterns[i];
    assert 62.0 <= p.baseFocus <= 88.0;
    assert 62 <= Trunc(p.baseFocus) <= 88;
  }

  /** The innermost loop: one round log every 30 minutes, stopping after the last round pattern. */
  method GenerateSessionRounds(u: Uuid, sessionStart: int, p: DayPattern, rfc3339: int -> string)
    returns (roundLogs: seq<RoundOptimizationLog>)
    ensures roundLogs == SessionRounds(u, sessionStart, p, RoundsRun(p), rfc3339)
  {
    roundLogs := [];
    var r := 0;
    while r < p.roundsPerSession
      invariant 0 <= r <= RoundsRun(p)
      invariant roundLogs == SessionRounds(u, sessionStart, p, r, rfc3339)
    {
      if r >= |RoundPatterns| {
        break;
      }
      var roundLog := GenerateRoundLog(u, sessionStart + r * 30 * Minute, p, r, rfc3339);
      roundLogs := roundLogs + [roundLog];
      r := r + 1;
    }
  }

  /** The session loop of one day: a session log at each session start, then that session's rounds. */
  method GenerateDay(u: Uuid, base: int, p: DayPattern, rfc3339: int -> string)
    returns (roundLogs: seq<RoundOptimizationLog>, sessionLogs: seq<SessionOptimizationLog>)
    ensures roundLogs == DayRounds(u, base, p, Nat0(p.sessions), rfc3339)
    ensures sessionLogs == DaySessions(u, base, p, Nat0(p.sessions), rfc3339)
  {
    roundLogs, sessionLogs := [], [];
    var currentDate := base + p.day * Day;
    var s := 0;
    while s < p.sessions
      invariant 0 <= s <= Nat0(p.sessions)
      invariant roundLogs == DayRounds(u, base, p, s, rfc3339)
      invariant sessionLogs == DaySessions(u, base, p, s, rfc3339)
    {
      var sessionStart := currentDate + (9 + s * 4) * Hour;
      assert sessionStart == SessionStart(base, p, s);
      var sessionLog := GenerateSessionLog(u, sessionStart, p, rfc3339);
      sessionLogs := sessionLogs + [sessionLog];
      var sessionRounds := GenerateSessionRounds(u, sessionStart, p, rfc3339);
      roundLogs := roundLogs + sessionRounds;
      s := s + 1;
    }
  }

  /** The day loop over the given patterns. */
  method GenerateFromPatterns(u: Uuid, base: int, days: seq<DayPattern>, rfc3339: int -> string)
    returns (roundLogs: seq<RoundOptimizationLog>, sessionLogs: seq<SessionOptimizationLog>)
    ensures roundLogs == AllRounds(u, base, days, |days|, rfc3339)
    ensures sessionLogs == AllSessions(u, base, days, |days|, rfc3339)
  {
    roundLogs, sessionLogs := [], [];
    var d := 0;
    while d < |days|
      invariant 0 <= d <= |days|
      invariant roundLogs == AllRounds(u, base, days, d, rfc3339)
      invariant sessionLogs == AllSessions(u, base, days, d, rfc3339)
    {
      var dayRounds, daySessions := GenerateDay(u, base, days[d], rfc3339);
      assert AllRounds(u, base, days, d + 1, rfc3339) == roundLogs + dayRounds;
      assert AllSessions(u, base, days, d + 1, rfc3339) == sessionLogs + daySessions;
      roundLogs := roundLogs + dayRounds;
      sessionLogs := sessionLogs + daySessions;
      d := d + 1;
    }
  }

  /** `generateSampleData`: ten days back from `now`; 19 session logs and 64 round logs. */
  method GenerateSampleData(u: Uuid, now: int, rfc3339: int -> string)
    returns (roundLogs: seq<RoundOptimizationLog>, sessionLogs: seq<SessionOptimizationLog>)
    ensures roundLogs == AllRounds(u, now - 10 * Day, SampleDayPatterns, |SampleDayPatterns|, rfc3339)
    ensures sessionLogs == AllSessions(u, now - 10 * Day, SampleDayPatterns, |SampleDayPatterns|, rfc3339)
    ensures |sessionLogs| == 19 && |roundLogs| == 64
  {
    roundLogs, sessionLogs := GenerateFromPatterns(u, now - 10 * Day, SampleDayPatterns, rfc3339);
    GeneratedCounts(u, now - 10 * Day, SampleDayPatterns, |SampleDayPatterns|, rfc3339);
    SampleTotals();
  }

  // ---- case-insensitive search and error classification ----

  /** `indexOfString`: 0 for an empty needle, else the first index where the needle occurs, else -1. */
  method IndexOfString(s: string, sub: string) returns (r: int)
    ensures -1 <= r
    ensures |sub| == 0 ==> r == 0
    ensures |sub| > |s| ==> r == -1
    ensures 0 < |sub| <= |s| ==> (r == -1 <==> !Contains(s, sub))
    ensures r >= 0 ==> OccursAt(s, sub, r) && forall j :: 0 <= j < r ==> !OccursAt(s, sub, j)
  {
    if |sub| == 0 {
      return 0;
    }
    if |sub| > |s| {
      return -1;
    }
    var i := 0;
    while i <= |s| - |sub|
      invariant 0 <= i <= |s| - |sub| + 1
      invariant forall j :: 0 <= j < i ==> !OccursAt(s, sub, j)
    {
      if s[i..i + |sub|] == sub {
        assert OccursAt(s, sub, i);
        return i;
      }
      i := i + 1;
    }
    return -1;
  }

  /** The reference for `containsString`: a non-empty needle no longer than the text occurs in it, ignoring ASCII case. */
  predicate ContainsFold(s: string, sub: string)
  {
    |s| >= |sub| && |sub| > 0 && Contains(Lower(s), Lower(sub))
  }

  method ContainsString(s: string, sub: string) returns (b: bool)
    ensures b == ContainsFold(s, sub)
    ensures |sub| == 0 ==> !b
  {
    if !(|s| >= |sub| && |sub| > 0) {
      return false;
    }
    var k := IndexOfString(Lower(s), Lower(sub));
    b := k >= 0;
  }

  predicate ThrottlingText(t: string)
  {
    t != "" && (ContainsFold(t, "throttling") || ContainsFold(t, "ProvisionedThroughputExceededException")
                || ContainsFold(t, "RequestLimitExceeded"))
  }

  predicate TableNotFoundText(t: string)
  {
    t != "" && (ContainsFold(t, "ResourceNotFoundException") || ContainsFold(t, "table not found")
                || ContainsFold(t, "Requested resource not found"))
  }

  predicate AccessDeniedText(t: string)
  {
    t != "" && (ContainsFold(t, "AccessDeniedException") || ContainsFold(t, "access denied")
                || ContainsFold(t, "User is not authorized"))
  }

  /** The operation tag of a failed batch write, tried in the order throttling, table, access. */
  function WriteErrorOperation(t: string): (op: string)
    ensures op == "throttling" <==> ThrottlingText(t)
    ensures op == "table_not_found" <==> !ThrottlingText(t) && TableNotFoundText(t)
    ensures op == "access_denied" <==> !ThrottlingText(t) && !TableNotFoundText(t) && AccessDeniedText(t)
    ensures op == "batch_write" <==> !ThrottlingText(t) && !TableNotFoundText(t) && !AccessDeniedText(t)
  {
    if ThrottlingText(t) then "throttling"
    else if TableNotFoundText(t) then "table_not_found"
    else if AccessDeniedText(t) then "access_denied"
    else "batch_write"
  }

  method IsDynamoDBThrottlingError(e: Error) returns (b: bool)
    ensures b == ThrottlingText(Render(e))
  {
    var t := Render(e);
    var b1 := ContainsString(t, "throttling");
    var b2 := ContainsString(t, "ProvisionedThroughputExceededException");
    var b3 := ContainsString(t, "RequestLimitExceeded");
    b := t != "" && (b1 || b2 || b3);
  }

  method IsDynamoDBTableNotFoundError(e: Error) returns (b: bool)
    ensures b == TableNotFoundText(Render(e))
  {
    var t := Render(e);
    var b1 := ContainsString(t, "ResourceNotFoundException");
    var b2 := ContainsString(t, "table not found");
    var b3 := ContainsString(t, "Requested resource not found");
    b := t != "" && (b1 || b2 || b3);
  }

  method IsDynamoDBAccessDeniedError(e: Error) returns (b: bool)
    ensures b == AccessDeniedText(Render(e))
  {
    var t := Render(e);
    var b1 := ContainsString(t, "AccessDeniedException");
    var b2 := ContainsString(t, "access denied");
    var b3 := ContainsString(t, "User is not authorized");
    b := t != "" && (b1 || b2 || b3);
  }

  /** What a batch write returns for the client's outcome: nothing, or a classified DynamoDB error wrapping it. */
  function WriteOutcome(clientErr: Option<Error>): (r: Option<Error>)
    ensures r.None? <==> clientErr.None?
    ensures r.Some? ==> r.value.Infra? && r.value.component == "dynamodb" && Unwrap(r.value) == clientErr
  {
    if clientErr.None? then None
    else Some(InfraErrors.NewDynamoDBError(WriteErrorOperation(Render(clientErr.value)), clientErr))
  }

  method ClassifyWriteError(err: Error) returns (r: Error)
    ensures Some(r) == WriteOutcome(Some(err))
  {
    var throttling := IsDynamoDBThrottlingError(err);
    if throttling {
      return InfraErrors.NewDynamoDBError("throttling", Some(err));
    }
    var tableNotFound := IsDynamoDBTableNotFoundError(err);
    if tableNotFound {
      return InfraErrors.NewDynamoDBError("table_not_found", Some(err));
    }
    var accessDenied := IsDynamoDBAccessDeniedError(err);
    if accessDenied {
      return InfraErrors.NewDynamoDBError("access_denied", Some(err));
    }
    return InfraErrors.NewDynamoDBError("batch_write", Some(err));
  }

  // ---- batch writes ----

  /** The item written for a round log: every number in decimal (`%d`). */
  function RoundLogItem(log: RoundOptimizationLog): DynamoDBHandler.Item
  {
    map["user_id" := DynamoDBHandler.S(log.userID), "timestamp" := DynamoDBHandler.S(log.timestamp),
        "work_time" := DynamoDBHandler.N(Itoa(log.workTime)), "break_time" := DynamoDBHandler.N(Itoa(log.breakTime)),
        "focus_score" := DynamoDBHandler.N(Itoa(log.focusScore)), "created_at" := DynamoDBHandler.S(log.createdAt)]
  }

  /** The item written for a session log; the average is `%.2f`, given as `fixed2`. */
  function SessionLogItem(log: SessionOptimizationLog, fixed2: real -> string): DynamoDBHandler.Item
  {
    map["user_id" := DynamoDBHandler.S(log.userID), "timestamp" := DynamoDBHandler.S(log.timestamp),
        "round_count" := DynamoDBHandler.N(Itoa(log.roundCount)), "break_time" := DynamoDBHandler.N(Itoa(log.breakTime)),
        "avg_focus_score" := DynamoDBHandler.N(fixed2(log.avgFocusScore)),
        "total_work_time" := DynamoDBHandler.N(Itoa(log.totalWorkTime)), "created_at" := DynamoDBHandler.S(log.createdAt)]
  }

  /** A round log written by this service reads back in the optimiser service with the same integers. */
  lemma RoundLogReadsBack(log: RoundOptimizationLog)
    ensures var d := DynamoDBHandler.DecodedItem(RoundLogItem(log));
            d["user_id"] == DynamoDBHandler.Str(log.userID) && d["timestamp"] == DynamoDBHandler.Str(log.timestamp)
            && "work_time" in d && d["work_time"] == DynamoDBHandler.Int(log.workTime)
            && "break_time" in d && d["break_time"] == DynamoDBHandler.Int(log.breakTime)
            && "focus_score" in d && d["focus_score"] == DynamoDBHandler.Int(log.focusScore)
  {
    var item := RoundLogItem(log);
    DynamoDBHandler.NumberRoundTrip(DynamoDBHandler.IntNum(log.workTime), x => "");
    DynamoDBHandler.NumberRoundTrip(DynamoDBHandler.IntNum(log.breakTime), x => "");
    DynamoDBHandler.NumberRoundTrip(DynamoDBHandler.IntNum(log.focusScore), x => "");
    assert item["work_time"] == DynamoDBHandler.N(Itoa(log.workTime));
    assert item["break_time"] == DynamoDBHandler.N(Itoa(log.breakTime));
    assert item["focus_score"] == DynamoDBHandler.N(Itoa(log.focusScore));
  }

  function RoundItems(logs: seq<RoundOptimizationLog>): (items: seq<DynamoDBHandler.Item>)
    ensures |items| == |logs|
  {
    seq(|logs|, i requires 0 <= i < |logs| => RoundLogItem(logs[i]))
  }

  function SessionItems(logs: seq<SessionOptimizationLog>, fixed2: real -> string): (items: seq<DynamoDBHandler.Item>)
    ensures |items| == |logs|
  {
    seq(|logs|, i requires 0 <= i < |logs| => SessionLogItem(logs[i], fixed2))
  }

  /** `batchWriteRoundLogs`: one put request per log, in order, then one client call. */
  method BatchWriteRoundLogs(logs: seq<RoundOptimizationLog>, client: seq<DynamoDBHandler.Item> -> Option<Error>)
    returns (err: Option<Error>)
    ensures err == WriteOutcome(client(RoundItems(logs)))
  {
    var requests: seq<DynamoDBHandler.Item> := [];
    for i := 0 to |logs|
      invariant requests == RoundItems(logs[..i])
    {
      assert RoundItems(logs[..i + 1]) == RoundItems(logs[..i]) + [RoundLogItem(logs[i])];
      requests := requests + [RoundLogItem(logs[i])];
    }
    assert logs[..|logs|] == logs;
    var e := client(requests);
    if e.Some? {
      var classified := ClassifyWriteError(e.value);
      return Some(classified);
    }
    return None;
  }

  method BatchWriteSessionLogs(logs: seq<SessionOptimizationLog>, fixed2: real -> string,
                               client: seq<DynamoDBHandler.Item> -> Option<Error>)
    returns (err: Option<Error>)
    ensures err == WriteOutcome(client(SessionItems(logs, fixed2)))
  {
    var requests: seq<DynamoDBHandler.Item> := [];
    for i := 0 to |logs|
      invariant requests == SessionItems(logs[..i], fixed2)
    {
      assert SessionItems(logs[..i + 1], fixed2) == SessionItems(logs[..i], fixed2) + [SessionLogItem(logs[i], fixed2)];
      requests := requests + [SessionLogItem(logs[i], fixed2)];
    }
    assert logs[..|logs|] == logs;
    var e := client(requests);
    if e.Some? {
      var classified := ClassifyWriteError(e.value);
      return Some(classified);
    }
    return None;
  }

  const BatchSize := 25

  /** The consecutive chunks of at most 25 a list is written in. */
  function Chunks<T>(s: seq<T>): (c: seq<seq<T>>)
    decreases |s|
  {
    if |s| == 0 then []
    else if |s| <= BatchSize then [s]
    else [s[..BatchSize]] + Chunks(s[BatchSize..])
  }

  function Flatten<T>(c: seq<seq<T>>): seq<T>
  {
    if c == [] then [] else c[0] + Flatten(c[1..])
  }

  /** The chunks cover the list exactly and in order, each non-empty and at most 25 long. */
  lemma {:induction false} ChunksCover<T>(s: seq<T>)
    ensures Flatten(Chunks(s)) == s
    ensures forall i :: 0 <= i < |Chunks(s)| ==> 0 < |Chunks(s)[i]| <= BatchSize
    ensures forall i :: 0 <= i < |Chunks(s)| - 1 ==> |Chunks(s)[i]| == BatchSize
    decreases |s|
  {
    if |s| > BatchSize {
      ChunksCover(s[BatchSize..]);
      var c := Chunks(s);
      assert c[1..] == Chunks(s[BatchSize..]);
      assert s == s[..BatchSize] + s[BatchSize..];
    }
  }

  /** The chunk starting at `i` (a multiple of 25 within the list) is the `i / 25`-th. */
  lemma {:induction false} ChunkAt<T>(s: seq<T>, i: nat)
    requires i < |s| && i % BatchSize == 0
    ensures i / BatchSize < |Chunks(s)|
    ensures Chunks(s)[i / BatchSize] == s[i..if i + BatchSize > |s| then |s| else i + BatchSize]
    decreases i
  {
    var end := if i + BatchSize > |s| then |s| else i + BatchSize;
    if i == 0 {
      assert Chunks(s)[0] == s[..end];
    } else {
      var t := s[BatchSize..];
      var j := i - BatchSize;
      ChunkAt(t, j);
      assert i / BatchSize == j / BatchSize + 1;
      assert Chunks(s)[i / BatchSize] == Chunks(t)[j / BatchSize] by {
        assert Chunks(s) == [s[..BatchSize]] + Chunks(t);
      }
      assert t[j..end - BatchSize] == s[i..end];
    }
  }

  lemma {:induction false} ChunkCount<T>(s: seq<T>)
    ensures |Chunks(s)| == (|s| + BatchSize - 1) / BatchSize
    decreases |s|
  {
    if |s| > BatchSize {
      ChunkCount(s[BatchSize..]);
    }
  }

  /**
   * `CreateRoundOptimizationLogs` / `CreateSessionOptimizationLogs`: the
   * chunks are written in order; the first failing one stops the loop and
   * is reported as a DynamoDB operation error tagged `operation`.
   * `attempted` lists the chunks that were handed to the writer.
   */
  method CreateInBatches<T>(logs: seq<T>, write: seq<T> -> Option<Error>, operation: string)
    returns (err: Option<Error>, attempted: seq<seq<T>>)
    ensures logs == [] ==> err.None? && attempted == []
    ensures attempted <= Chunks(logs)
    ensures forall k :: 0 <= k < |attempted| - 1 ==> write(attempted[k]).None?
    ensures err.None? ==> attempted == Chunks(logs) && forall k :: 0 <= k < |attempted| ==> write(attempted[k]).None?
    ensures err.Some? ==> attempted != [] && write(attempted[|attempted| - 1]).Some?
                          && err.value == InfraErrors.NewDynamoDBOperationError(operation, write(attempted[|attempted| - 1]))
  {
    attempted := [];
    if |logs| == 0 {
      return None, attempted;
    }
    ChunkCount(logs);
    var i := 0;
    while i < |logs|
      invariant 0 <= i <= |logs| + BatchSize - 1 && i % BatchSize == 0
      invariant i < |logs| ==> |attempted| == i / BatchSize
      invariant i >= |logs| ==> |attempted| == |Chunks(logs)|
      invariant attempted <= Chunks(logs)
      invariant forall k :: 0 <= k < |attempted| ==> write(attempted[k]).None?
    {
      var end := i + BatchSize;
      if end > |logs| {
        end := |logs|;
      }
      var batch := logs[i..end];
      ChunkAt(logs, i);
      attempted := attempted + [batch];
      var e := write(batch);
      if e.Some? {
        return Some(InfraErrors.NewDynamoDBOperationError(operation, e)), attempted;
      }
      i := i + BatchSize;
    }
    return None, attempted;
  }

  /**
   * `CreateSampleOptimizationData`: generate, then write the rounds, then the
   * sessions, each in batches of 25; the first failing batch stops everything
   * and is tagged with the list it belongs to. `roundLogs` and `sessionLogs`
   * are the generated lists, `roundBatches` and `sessionBatches` the batches
   * handed to the client.
   */
  method CreateSampleOptimizationData(u: Uuid, now: int, rfc3339: int -> string, fixed2: real -> string,
                                      roundClient: seq<DynamoDBHandler.Item> -> Option<Error>,
                                      sessionClient: seq<DynamoDBHandler.Item> -> Option<Error>)
    returns (err: Option<Error>, roundLogs: seq<RoundOptimizationLog>, sessionLogs: seq<SessionOptimizationLog>,
             roundBatches: seq<seq<RoundOptimizationLog>>, sessionBatches: seq<seq<SessionOptimizationLog>>)
    ensures roundLogs == AllRounds(u, now - 10 * Day, SampleDayPatterns, |SampleDayPatterns|, rfc3339)
    ensures sessionLogs == AllSessions(u, now - 10 * Day, SampleDayPatterns, |SampleDayPatterns|, rfc3339)
    ensures roundBatches <= Chunks(roundLogs) && sessionBatches <= Chunks(sessionLogs)
    ensures err.None? <==>
              roundBatches == Chunks(roundLogs) && sessionBatches == Chunks(sessionLogs)
              && (forall k :: 0 <= k < |roundBatches| ==> roundClient(RoundItems(roundBatches[k])).None?)
              && (forall k :: 0 <= k < |sessionBatches| ==> sessionClient(SessionItems(sessionBatches[k], fixed2)).None?)
    ensures sessionBatches != [] ==>
              roundBatches == Chunks(roundLogs)
              && forall k :: 0 <= k < |roundBatches| ==> roundClient(RoundItems(roundBatches[k])).None?
    ensures err.Some? && sessionBatches == [] ==>
              roundBatches != [] && roundClient(RoundItems(roundBatches[|roundBatches| - 1])).Some?
              && err.value == InfraErrors.NewDynamoDBOperationError("create_round_logs",
                   Some(InfraErrors.NewDynamoDBOperationError("batch_write_round_logs",
                     WriteOutcome(roundClient(RoundItems(roundBatches[|roundBatches| - 1]))))))
    ensures err.Some? && sessionBatches != [] ==>
              sessionClient(SessionItems(sessionBatches[|sessionBatches| - 1], fixed2)).Some?
              && err.value == InfraErrors.NewDynamoDBOperationError("create_session_logs",
                   Some(InfraErrors.NewDynamoDBOperationError("batch_write_session_logs",
                     WriteOutcome(sessionClient(SessionItems(sessionBatches[|sessionBatches| - 1], fixed2))))))
  {
    roundLogs, sessionLogs := GenerateSampleData(u, now, rfc3339);
    var e1;
    e1, roundBatches := CreateInBatches(roundLogs, batch => WriteOutcome(roundClient(RoundItems(batch))),
                                        "batch_write_round_logs");
    sessionBatches := [];
    if e1.Some? {
      err := Some(InfraErrors.NewDynamoDBOperationError("create_round_logs", e1));
      return;
    }
    var e2;
    e2, sessionBatches := CreateInBatches(sessionLogs, batch => WriteOutcome(sessionClient(SessionItems(batch, fixed2))),
                                          "batch_write_session_logs");
    if e2.Some? {
      err := Some(InfraErrors.NewDynamoDBOperationError("create_session_logs", e2));
      return;
    }
    err := None;
  }
}
