/**
 * backend/internal/domain/model/optimization_log.go: the records of the
 * round and session optimisation-log tables. Instants are integers
 * (seconds); `time.Format(time.RFC3339)` is the parameter `rfc3339`.
 */
module OptimizationLog {
  import opened Uuids

  datatype RoundOptimizationLog = RoundOptimizationLog(
    userID: string, timestamp: string, workTime: int, breakTime: int, focusScore: int, createdAt: string)

  datatype SessionOptimizationLog = SessionOptimizationLog(
    userID: string, timestamp: string, roundCount: int, breakTime: int, avgFocusScore: real,
    totalWorkTime: int, createdAt: string)

  /** `NewRoundOptimizationLogWithTime`: the given instant is both the sort key and the creation time. */
  function NewRoundOptimizationLogWithTime(userID: Uuid, t: int, workTime: int, breakTime: int, focusScore: int,
                                           rfc3339: int -> string): (r: RoundOptimizationLog)
    ensures r.userID == userID && r.timestamp == r.createdAt == rfc3339(t)
    ensures r.workTime == workTime && r.breakTime == breakTime && r.focusScore == focusScore
  {
    RoundOptimizationLog(userID, rfc3339(t), workTime, breakTime, focusScore, rfc3339(t))
  }

  /** `NewRoundOptimizationLog`: one reading of the clock, `now`, serves both times. */
  function NewRoundOptimizationLog(userID: Uuid, now: int, workTime: int, breakTime: int, focusScore: int,
                                   rfc3339: int -> string): (r: RoundOptimizationLog)
    ensures r == NewRoundOptimizationLogWithTime(userID, now, workTime, breakTime, focusScore, rfc3339)
    ensures r.timestamp == r.createdAt
  {
    RoundOptimizationLog(userID, rfc3339(now), workTime, breakTime, focusScore, rfc3339(now))
  }

  function NewSessionOptimizationLogWithTime(userID: Uuid, t: int, roundCount: int, breakTime: int, avgFocusScore: real,
                                             totalWorkTime: int, rfc3339: int -> string): (r: SessionOptimizationLog)
    ensures r.userID == userID && r.timestamp == r.createdAt == rfc3339(t)
    ensures r.roundCount == roundCount && r.breakTime == breakTime && r.avgFocusScore == avgFocusScore
    ensures r.totalWorkTime == totalWorkTime
  {
    SessionOptimizationLog(userID, rfc3339(t), roundCount, breakTime, avgFocusScore, totalWorkTime, rfc3339(t))
  }

  function NewSessionOptimizationLog(userID: Uuid, now: int, roundCount: int, breakTime: int, avgFocusScore: real,
                                     totalWorkTime: int, rfc3339: int -> string): (r: SessionOptimizationLog)
    ensures r == NewSessionOptimizationLogWithTime(userID, now, roundCount, breakTime, avgFocusScore, totalWorkTime, rfc3339)
    ensures r.timestamp == r.createdAt
  {
    SessionOptimizationLog(userID, rfc3339(now), roundCount, breakTime, avgFocusScore, totalWorkTime, rfc3339(now))
  }
}
