/**
 * backend/internal/domain/model/round.go: one pomodoro round and its life
 * cycle. A round is in progress until it is either completed (an end time
 * and no abort flag) or aborted. The value `RoundRecord` is the row the
 * repository stores; the class `Round` is the domain object whose
 * `CompleteWith` and `Abort` update its fields in place. Instants are
 * integers (seconds); `time.Now()` and `uuid.New()` are parameters.
 */
module Rounds {
  import opened Wrappers
  import opened GoErrors
  import opened Uuids

  const MinOptimizationScore := 0
  const MaxFocusScore := 100
  const MinFocusScore := 0

  datatype RoundRecord = RoundRecord(
    id: Uuid, sessionID: Uuid, roundOrder: int, startTime: int,
    endTime: Option<int>, workTime: Option<int>, breakTime: Option<int>, focusScore: Option<int>,
    isAborted: bool, createdAt: int, updatedAt: int)

  predicate IsCompleted(r: RoundRecord) { r.endTime.Some? && !r.isAborted }
  predicate IsInProgress(r: RoundRecord) { r.endTime.None? && !r.isAborted }
  predicate HasFocusScore(r: RoundRecord) { r.focusScore.Some? && r.focusScore.value >= MinFocusScore }
  predicate ContributesToStatistics(r: RoundRecord) { IsCompleted(r) }

  /**
   * Only completed rounds feed the statistics, and a score that counts is a
   * non-negative one, which is then the score the statistics read.
   */
  lemma StatisticsAndScore(r: RoundRecord)
    ensures ContributesToStatistics(r) <==> !IsInProgress(r) && !r.isAborted
    ensures HasFocusScore(r) <==> r.focusScore.Some? && GetFocusScoreOrZero(r) >= MinFocusScore
    ensures HasFocusScore(r) ==> GetFocusScoreOrZero(r) == r.focusScore.value
    ensures ShouldSendOptimizationMessage(r) <==> ContributesToStatistics(r) && HasFocusScore(r)
  {
  }

  /** Every round is in exactly one of the three states. */
  lemma StatesPartition(r: RoundRecord)
    ensures IsCompleted(r) || IsInProgress(r) || r.isAborted
    ensures !(IsCompleted(r) && IsInProgress(r))
    ensures r.isAborted ==> !IsCompleted(r) && !IsInProgress(r)
  {
  }

  /** `GetFocusScoreOrZero`: a missing score reads as 0. */
  function GetFocusScoreOrZero(r: RoundRecord): (s: int)
    ensures r.focusScore.None? ==> s == 0
    ensures r.focusScore.Some? ==> s == r.focusScore.value
  {
    if r.focusScore.None? then 0 else r.focusScore.value
  }

  /** `GetWorkTimeForStats`: a missing work time counts as 0. */
  function GetWorkTimeForStats(r: RoundRecord): (w: int)
    ensures r.workTime.None? ==> w == 0
    ensures r.workTime.Some? ==> w == r.workTime.value
  {
    if r.workTime.None? then 0 else r.workTime.value
  }

  /** `GetBreakTimeForStats`: a missing break time counts as 0. */
  function GetBreakTimeForStats(r: RoundRecord): (b: int)
    ensures r.breakTime.None? ==> b == 0
    ensures r.breakTime.Some? ==> b == r.breakTime.value
  {
    if r.breakTime.None? then 0 else r.breakTime.value
  }

  const AlreadyCompletedText := "ラウンドは既に完了しています"
  const AbortedCannotCompleteText := "中止されたラウンドは完了できません"
  const CompletedCannotAbortText := "完了したラウンドは中止できません"
  const AlreadyAbortedText := "ラウンドは既に中止されています"
  const FocusRangeText := "集中度スコアは0から100の間で設定してください"
  const TimeRangeText := "作業時間は1分以上、休憩時間は0分以上で設定してください"

  /** `CanBeCompleted`: only a round in progress may be completed. */
  function CanBeCompleted(r: RoundRecord): (e: Option<Error>)
    ensures e.None? <==> IsInProgress(r)
    ensures IsCompleted(r) ==> e == Some(Opaque(AlreadyCompletedText))
    ensures r.isAborted ==> e == Some(Opaque(AbortedCannotCompleteText))
  {
    if IsCompleted(r) then Some(Opaque(AlreadyCompletedText))
    else if r.isAborted then Some(Opaque(AbortedCannotCompleteText))
    else None
  }

  /** `CanBeAborted`: only a round in progress may be aborted. */
  function CanBeAborted(r: RoundRecord): (e: Option<Error>)
    ensures e.None? <==> IsInProgress(r)
    ensures IsCompleted(r) ==> e == Some(Opaque(CompletedCannotAbortText))
    ensures r.isAborted ==> e == Some(Opaque(AlreadyAbortedText))
  {
    if IsCompleted(r) then Some(Opaque(CompletedCannotAbortText))
    else if r.isAborted then Some(Opaque(AlreadyAbortedText))
    else None
  }

  /** The two guards agree: both fail exactly on a finished round. */
  lemma GuardsAgree(r: RoundRecord)
    ensures CanBeCompleted(r).Some? <==> CanBeAborted(r).Some?
    ensures CanBeCompleted(r).Some? <==> IsCompleted(r) || r.isAborted
  {
  }

  /** The arguments `CompleteWith` accepts: a score, if any, in [0,100], work of a minute or more, no negative break. */
  predicate AcceptableCompletion(focusScore: Option<int>, workTime: int, breakTime: int)
  {
    (focusScore.None? || MinFocusScore <= focusScore.value <= MaxFocusScore) && workTime > 0 && breakTime >= 0
  }

  /** `ShouldSendOptimizationMessage`: a completed round with a non-negative score. */
  predicate ShouldSendOptimizationMessage(r: RoundRecord)
  {
    IsCompleted(r) && HasFocusScore(r) && r.focusScore.value >= MinOptimizationScore
  }

  /** `GetOptimizationMessageData`: the score when a message is due, otherwise `(0, false)`. */
  function GetOptimizationMessageData(r: RoundRecord): (d: (int, bool))
    ensures d.1 <==> IsCompleted(r) && r.focusScore.Some? && r.focusScore.value >= 0
    ensures d.1 ==> d.0 == r.focusScore.value && d.0 >= 0
    ensures !d.1 ==> d.0 == 0
  {
    if !ShouldSendOptimizationMessage(r) then (0, false) else (r.focusScore.value, true)
  }

  /** Seconds as whole minutes, truncated toward zero as Go's `int(float)` conversion does. */
  function WholeMinutes(seconds: int): (m: int)
    ensures seconds >= 0 ==> 0 <= m * 60 <= seconds < (m + 1) * 60
    ensures seconds < 0 ==> (m - 1) * 60 < seconds <= m * 60 <= 0
  {
    if seconds >= 0 then seconds / 60 else -((-seconds) / 60)
  }

  /** `GetDuration` in seconds: to the end time, or to `now` while the round has none. */
  function GetDuration(r: RoundRecord, now: int): (d: int)
    ensures r.endTime.Some? ==> d == r.endTime.value - r.startTime
    ensures r.endTime.None? ==> d == now - r.startTime
  {
    (if r.endTime.Some? then r.endTime.value else now) - r.startTime
  }

  /** `GetDurationMinutes`: whole minutes, truncated toward zero. */
  function GetDurationMinutes(r: RoundRecord, now: int): (m: int)
    ensures GetDuration(r, now) >= 0 ==> 0 <= m * 60 <= GetDuration(r, now) < (m + 1) * 60
  {
    WholeMinutes(GetDuration(r, now))
  }

  /** `IsOvertime`: more whole minutes have passed than expected. */
  predicate IsOvertime(r: RoundRecord, expectedMinutes: int, now: int)
  {
    GetDurationMinutes(r, now) > expectedMinutes
  }

  /** A round that ran at least `expectedMinutes + 1` full minutes is overtime. */
  lemma OvertimeAfterFullMinute(r: RoundRecord, expectedMinutes: int, now: int)
    requires expectedMinutes >= 0
    requires GetDuration(r, now) >= (expectedMinutes + 1) * 60
    ensures IsOvertime(r, expectedMinutes, now)
  {
    var m := GetDurationMinutes(r, now);
    assert (m + 1) * 60 > (expectedMinutes + 1) * 60;
  }

  /** For a non-negative duration, overtime means exactly `expectedMinutes + 1` full minutes or more. */
  lemma OvertimeIffFullMinutes(r: RoundRecord, expectedMinutes: int, now: int)
    requires GetDuration(r, now) >= 0
    ensures IsOvertime(r, expectedMinutes, now) <==> GetDuration(r, now) >= (expectedMinutes + 1) * 60
  {
    var m := GetDurationMinutes(r, now);
    if m > expectedMinutes {
      assert m * 60 >= (expectedMinutes + 1) * 60;
    } else {
      assert (m + 1) * 60 <= (expectedMinutes + 1) * 60;
    }
  }

  datatype RoundResponse = RoundResponse(
    id: Uuid, sessionID: Uuid, roundOrder: int, startTime: int,
    endTime: Option<int>, workTime: Option<int>, breakTime: Option<int>, focusScore: Option<int>,
    isAborted: bool)

  /** `ToResponse`: everything but the bookkeeping times. */
  function ToResponse(r: RoundRecord): (p: RoundResponse)
  {
    RoundResponse(r.id, r.sessionID, r.roundOrder, r.startTime, r.endTime, r.workTime, r.breakTime,
                  r.focusScore, r.isAborted)
  }

  /** The response forgets the creation and update times and nothing else. */
  lemma ResponseDropsOnlyBookkeeping(a: RoundRecord, b: RoundRecord)
    ensures ToResponse(a) == ToResponse(b) <==> a.(createdAt := 0, updatedAt := 0) == b.(createdAt := 0, updatedAt := 0)
  {
  }

  /** The domain object, mutated by `CompleteWith` and `Abort`. */
  class Round {
    var id: Uuid
    var sessionID: Uuid
    var roundOrder: int
    var startTime: int
    var endTime: Option<int>
    var workTime: Option<int>
    var breakTime: Option<int>
    var focusScore: Option<int>
    var isAborted: bool
    var createdAt: int
    var updatedAt: int

    /** The row this object holds. */
    function Row(): RoundRecord
      reads this
    {
      RoundRecord(id, sessionID, roundOrder, startTime, endTime, workTime, breakTime, focusScore,
                  isAborted, createdAt, updatedAt)
    }

    /** `NewRound`: a fresh id, started now, in progress. */
    constructor (newID: Uuid, sessionID: Uuid, roundOrder: int, now: int)
      ensures Row() == RoundRecord(newID, sessionID, roundOrder, now, None, None, None, None, false, now, now)
      ensures IsInProgress(Row())
    {
      id := newID;
      this.sessionID := sessionID;
      this.roundOrder := roundOrder;
      startTime := now;
      endTime := None;
      workTime := None;
      breakTime := None;
      focusScore := None;
      isAborted := false;
      createdAt := now;
      updatedAt := now;
    }

    /**
     * `CompleteWith`: the state guard, then the score range, then the times;
     * every check precedes the first assignment, so a rejected call changes
     * nothing.
     */
    method CompleteWith(score: Option<int>, work: int, rest: int, now: int) returns (err: Option<Error>)
      modifies this
      ensures CanBeCompleted(old(Row())).Some? ==> err == CanBeCompleted(old(Row()))
      ensures CanBeCompleted(old(Row())).None? && score.Some? && !(MinFocusScore <= score.value <= MaxFocusScore)
              ==> err == Some(Opaque(FocusRangeText))
      ensures (CanBeCompleted(old(Row())).None? && (score.None? || MinFocusScore <= score.value <= MaxFocusScore)
               && (work <= 0 || rest < 0)) ==> err == Some(Opaque(TimeRangeText))
      ensures err.None? <==> IsInProgress(old(Row())) && AcceptableCompletion(score, work, rest)
      ensures err.Some? ==> Row() == old(Row())
      ensures err.None? ==> Row() == old(Row()).(endTime := Some(now), focusScore := score, workTime := Some(work),
                                                   breakTime := Some(rest), updatedAt := now)
      ensures err.None? ==> IsCompleted(Row()) && CanBeCompleted(Row()).Some? && CanBeAborted(Row()).Some?
      ensures err.None? ==> (ShouldSendOptimizationMessage(Row()) <==> score.Some?)
      ensures err.None? ==> GetWorkTimeForStats(Row()) == work && GetBreakTimeForStats(Row()) == rest
      ensures err.None? ==> ContributesToStatistics(Row()) && (HasFocusScore(Row()) <==> score.Some?)
    {
      err := CanBeCompleted(Row());
      if err.Some? {
        return;
      }
      if score.Some? && (score.value < MinFocusScore || score.value > MaxFocusScore) {
        return Some(Opaque(FocusRangeText));
      }
      if work <= 0 || rest < 0 {
        return Some(Opaque(TimeRangeText));
      }
      endTime := Some(now);
      focusScore := score;
      workTime := Some(work);
      breakTime := Some(rest);
      updatedAt := now;
    }

    /** `Abort`: a round in progress gets an end time and the abort flag. */
    method Abort(now: int) returns (err: Option<Error>)
      modifies this
      ensures err == CanBeAborted(old(Row()))
      ensures err.Some? ==> Row() == old(Row())
      ensures err.None? ==> Row() == old(Row()).(endTime := Some(now), isAborted := true, updatedAt := now)
      ensures err.None? ==> !IsCompleted(Row()) && !IsInProgress(Row()) && !ShouldSendOptimizationMessage(Row())
      ensures err.None? ==> !ContributesToStatistics(Row())
    {
      err := CanBeAborted(Row());
      if err.Some? {
        return;
      }
      endTime := Some(now);
      isAborted := true;
      updatedAt := now;
    }
  }
}
