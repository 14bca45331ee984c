/**
 * backend/internal/infrastructure/repository/postgres/round_repository.go:
 * the `rounds` table as a map from id to row, the guarded completion and
 * abort updates, and the aggregation loop of `CalculateSessionStats`.
 * What the PostgreSQL driver reports (a failed query, the rows an UPDATE
 * affected) is a parameter.
 */
module RoundRepository {
  import opened Wrappers
  import opened GoErrors
  import opened Uuids
  import opened InfraErrors
  import opened Rounds

  const RecordNotFound := Leaf(App(ErrRecordNotFound))
  const DuplicateKeyText := "pq: duplicate key value violates unique constraint \"rounds_pkey\""

  /** What the driver reports for one UPDATE. */
  datatype ExecOutcome = ExecFailed(err: Error) | RowsAffected(n: nat) | RowsAffectedFailed(err: Error)

  /** A failed INSERT other than a duplicate id: a PostgreSQL error with its SQLSTATE code, or another driver error. */
  datatype InsertFailure = PqError(code: string, err: Error) | DriverError(err: Error)

  /** The error `Create` returns for a failed INSERT. */
  function InsertError(f: InsertFailure): (e: Error)
    ensures e.Infra? && e.component == "database" && e.cause == Some(f.err)
    ensures f.PqError? && f.code == "23505" ==> e.operation == "constraint"
    ensures f.PqError? && f.code == "23503" ==> e.operation == "create_round_fk"
    ensures !(f.PqError? && f.code in {"23505", "23503"}) ==> e.operation == "create_round"
  {
    if f.PqError? && f.code == "23505" then NewUniqueConstraintError(Some(f.err))
    else if f.PqError? && f.code == "23503" then NewDatabaseError("create_round_fk", Some(f.err))
    else NewDatabaseError("create_round", Some(f.err))
  }

  /** The row the INSERT creates: only the creation columns are written, the rest keep their defaults. */
  function Inserted(r: RoundRecord): (s: RoundRecord)
    ensures s.id == r.id && s.sessionID == r.sessionID && s.roundOrder == r.roundOrder
    ensures IsInProgress(s) && s.focusScore.None? && s.workTime.None? && s.breakTime.None?
  {
    r.(endTime := None, workTime := None, breakTime := None, focusScore := None, isAborted := false)
  }

  /** The completion UPDATE: end time, score, work and break time, update time. */
  function Completed(r: RoundRecord, score: Option<int>, work: int, rest: int, now: int): RoundRecord
  {
    r.(endTime := Some(now), focusScore := score, workTime := Some(work), breakTime := Some(rest), updatedAt := now)
  }

  /** The abort UPDATE: end time, abort flag, update time. */
  function Aborted(r: RoundRecord, now: int): RoundRecord
  {
    r.(endTime := Some(now), isAborted := true, updatedAt := now)
  }

  /** The guard of `Complete` as written: only an already completed round is refused. */
  function CompleteGuardAsWritten(r: RoundRecord): (e: Option<Error>)
    ensures e.Some? <==> IsCompleted(r)
  {
    if IsCompleted(r) then Some(RecordNotFound) else None
  }

  /** The guard `Complete` evidently intends: the domain rule, refusing completed and aborted rounds alike. */
  function CompleteGuard(r: RoundRecord): (e: Option<Error>)
    ensures e.Some? <==> CanBeCompleted(r).Some?
    ensures e.Some? ==> e == Some(RecordNotFound)
  {
    if IsCompleted(r) || r.isAborted then Some(RecordNotFound) else None
  }

  /**
   * The guard as written lets an aborted round through although the domain
   * rule refuses it; the update then leaves a row that is still aborted but
   * carries a work time and a score.
   */
  lemma CompleteAcceptsAborted(r: RoundRecord, score: Option<int>, work: int, rest: int, now: int)
    requires r.isAborted
    ensures CompleteGuardAsWritten(r).None? && CanBeCompleted(r).Some? && CompleteGuard(r).Some?
    ensures var c := Completed(r, score, work, rest, now);
            !IsCompleted(c) && c.isAborted && GetWorkTimeForStats(c) == work
  {
  }

  /** The guard of `AbortRound`: completed or aborted rounds are refused. */
  function AbortGuard(r: RoundRecord): (e: Option<Error>)
    ensures e.Some? <==> CanBeAborted(r).Some?
    ensures e.Some? ==> e == Some(RecordNotFound)
  {
    if IsCompleted(r) || r.isAborted then Some(RecordNotFound) else None
  }

  /** The error an UPDATE outcome gives: a failed statement, a failed row count, or no row. */
  function ExecError(x: ExecOutcome, operation: string): (e: Option<Error>)
    ensures e.None? <==> x.RowsAffected? && x.n > 0
    ensures x == RowsAffected(0) ==> e == Some(RecordNotFound)
  {
    match x
    case ExecFailed(err) => Some(NewDatabaseError(operation, Some(err)))
    case RowsAffectedFailed(err) => Some(NewDatabaseError(operation + "_check", Some(err)))
    case RowsAffected(n) => if n == 0 then Some(RecordNotFound) else None
  }

  /** The statement took effect: it ran and touched a row (or its row count could not be read). */
  predicate Applied(x: ExecOutcome)
  {
    x.RowsAffectedFailed? || (x.RowsAffected? && x.n > 0)
  }

  /** The rows `CalculateSessionStats` selects: ended and not aborted, in the session. */
  predicate Qualifies(r: RoundRecord, sessionID: Uuid)
  {
    r.sessionID == sessionID && IsCompleted(r)
  }

  /** Sum of the recorded scores. */
  function FocusSum(rs: seq<RoundRecord>): int
  {
    if rs == [] then 0 else FocusSum(rs[..|rs| - 1]) + GetFocusScoreOrZero(rs[|rs| - 1])
  }

  /** Number of rounds with a recorded score. */
  function FocusCount(rs: seq<RoundRecord>): (n: nat)
    ensures n <= |rs|
  {
    if rs == [] then 0 else FocusCount(rs[..|rs| - 1]) + (if rs[|rs| - 1].focusScore.Some? then 1 else 0)
  }

  /** Sum of the recorded work times. */
  function WorkSum(rs: seq<RoundRecord>): int
  {
    if rs == [] then 0 else WorkSum(rs[..|rs| - 1]) + GetWorkTimeForStats(rs[|rs| - 1])
  }

  /** Sum of the recorded break times. */
  function BreakSum(rs: seq<RoundRecord>): int
  {
    if rs == [] then 0 else BreakSum(rs[..|rs| - 1]) + GetBreakTimeForStats(rs[|rs| - 1])
  }

  /** `float64(total) / float64(count)`, or 0 without any score. */
  function Average(sum: int, count: nat): real
  {
    if count == 0 then 0.0 else sum as real / count as real
  }

  predicate ScoresInRange(rs: seq<RoundRecord>)
  {
    forall i :: 0 <= i < |rs| && rs[i].focusScore.Some? ==> 0 <= rs[i].focusScore.value <= 100
  }

  /** With every score in [0,100], the score sum lies between 0 and 100 per score. */
  lemma {:induction false} FocusSumBounds(rs: seq<RoundRecord>)
    requires ScoresInRange(rs)
    ensures 0 <= FocusSum(rs) <= 100 * FocusCount(rs)
  {
    if rs != [] {
      var init := rs[..|rs| - 1];
      assert ScoresInRange(init) by {
        forall i | 0 <= i < |init| && init[i].focusScore.Some?
          ensures 0 <= init[i].focusScore.value <= 100
        {
          assert init[i] == rs[i];
        }
      }
      FocusSumBounds(init);
    }
  }

  /** The session average of scores in [0,100] is itself in [0,100], as the session message requires. */
  lemma AverageInRange(rs: seq<RoundRecord>)
    requires ScoresInRange(rs)
    ensures 0.0 <= Average(FocusSum(rs), FocusCount(rs)) <= 100.0
  {
    FocusSumBounds(rs);
    if FocusCount(rs) > 0 {
      QuotientBounds(FocusSum(rs), FocusCount(rs));
    }
  }

  lemma QuotientBounds(sum: int, count: int)
    requires 0 < count && 0 <= sum <= 100 * count
    ensures 0.0 <= sum as real / count as real <= 100.0
  {
    assert sum as real <= 100.0 * count as real;
  }

  /** The aggregation loop over the selected rows. */
  method SessionStats(rounds: seq<RoundRecord>) returns (avg: real, totalWork: int, count: int, totalBreak: int)
    ensures count == |rounds|
    ensures totalWork == WorkSum(rounds) && totalBreak == BreakSum(rounds)
    ensures avg == Average(FocusSum(rounds), FocusCount(rounds))
    ensures rounds == [] ==> avg == 0.0 && totalWork == 0 && count == 0 && totalBreak == 0
  {
    if |rounds| == 0 {
      return 0.0, 0, 0, 0;
    }
    var totalFocus := 0;
    var validFocusCount := 0;
    totalWork := 0;
    totalBreak := 0;
    var i := 0;
    while i < |rounds|
      invariant 0 <= i <= |rounds|
      invariant totalFocus == FocusSum(rounds[..i]) && validFocusCount == FocusCount(rounds[..i])
      invariant totalWork == WorkSum(rounds[..i]) && totalBreak == BreakSum(rounds[..i])
    {
      var r := rounds[i];
      assert rounds[..i + 1][..i] == rounds[..i];
      if r.focusScore.Some? {
        totalFocus := totalFocus + r.focusScore.value;
        validFocusCount := validFocusCount + 1;
      }
      if r.workTime.Some? {
        totalWork := totalWork + r.workTime.value;
      }
      if r.breakTime.Some? {
        totalBreak := totalBreak + r.breakTime.value;
      }
      i := i + 1;
    }
    assert rounds[..i] == rounds;
    avg := 0.0;
    if validFocusCount > 0 {
      avg := totalFocus as real / validFocusCount as real;
    }
    count := |rounds|;
  }

  /** The `rounds` table. */
  class RoundStore {
    var rows: map<Uuid, RoundRecord>

    /** Each row is stored under its own id. */
    ghost predicate Valid()
      reads this
    {
      forall k :: k in rows ==> rows[k].id == k
    }

    constructor ()
      ensures rows == map[] && Valid()
    {
      rows := map[];
    }

    /** `GetByID`: the stored row, `ErrRecordNotFound` for an unknown id, a query error on a driver failure. */
    function GetByID(id: Uuid, driver: Option<Error>): (r: Result<RoundRecord, Error>)
      reads this
      ensures driver.Some? ==> r == Failure(NewDatabaseQueryError(driver))
      ensures driver.None? ==> (r.Ok? <==> id in rows)
      ensures driver.None? && id !in rows ==> r == Failure(RecordNotFound)
      ensures r.Ok? ==> id in rows && r.value == rows[id]
    {
      if driver.Some? then Failure(NewDatabaseQueryError(driver))
      else if id !in rows then Failure(RecordNotFound)
      else Ok(rows[id])
    }

    /** `Create`: a new row in progress; a duplicate id or a driver failure leaves the table as it was. */
    method Create(round: RoundRecord, failure: Option<InsertFailure>) returns (err: Option<Error>)
      requires Valid()
      modifies this
      ensures Valid()
      ensures err.None? <==> round.id !in old(rows) && failure.None?
      ensures err.None? ==> rows == old(rows)[round.id := Inserted(round)]
      ensures err.Some? ==> rows == old(rows)
      ensures round.id in old(rows) ==> err == Some(NewUniqueConstraintError(Some(Opaque(DuplicateKeyText))))
      ensures round.id !in old(rows) && failure.Some? ==> err == Some(InsertError(failure.value))
    {
      if round.id in rows {
        return Some(NewUniqueConstraintError(Some(Opaque(DuplicateKeyText))));
      }
      if failure.Some? {
        return Some(InsertError(failure.value));
      }
      rows := rows[round.id := Inserted(round)];
      err := None;
    }

    /** `GetLastRoundBySessionID`: a row of the session with the largest order, or `ErrRecordNotFound`. */
    method GetLastRoundBySessionID(sessionID: Uuid, driver: Option<Error>) returns (r: Result<RoundRecord, Error>)
      ensures driver.Some? ==> r == Failure(NewDatabaseQueryError(driver))
      ensures driver.None? ==> (r.Ok? <==> exists k :: k in rows && rows[k].sessionID == sessionID)
      ensures driver.None? && r.Failure? ==> r.error == RecordNotFound
      ensures r.Ok? ==> r.value in rows.Values && r.value.sessionID == sessionID
      ensures r.Ok? ==> forall k :: k in rows && rows[k].sessionID == sessionID ==> rows[k].roundOrder <= r.value.roundOrder
    {
      if driver.Some? {
        return Failure(NewDatabaseQueryError(driver));
      }
      var keys := rows.Keys;
      var best: Option<RoundRecord> := None;
      while keys != {}
        invariant keys <= rows.Keys
        invariant best.Some? ==> best.value in rows.Values && best.value.sessionID == sessionID
        invariant best.Some? ==>
          forall k :: k in rows && k !in keys && rows[k].sessionID == sessionID ==> rows[k].roundOrder <= best.value.roundOrder
        invariant best.None? ==> forall k :: k in rows && k !in keys ==> rows[k].sessionID != sessionID
        decreases keys
      {
        var k :| k in keys;
        if rows[k].sessionID == sessionID && (best.None? || rows[k].roundOrder > best.value.roundOrder) {
          best := Some(rows[k]);
        }
        keys := keys - {k};
      }
      if best.None? {
        return Failure(RecordNotFound);
      }
      return Ok(best.value);
    }

    /**
     * `Complete`: the row must exist and pass the guard; the UPDATE then sets
     * the completion columns, and its outcome decides the error. The guard
     * is the corrected `CompleteGuard`, which refuses an aborted round that
     * the guard as written (`CompleteGuardAsWritten`) lets through.
     */
    method Complete(id: Uuid, score: Option<int>, work: int, rest: int, now: int,
                    driver: Option<Error>, exec: ExecOutcome) returns (err: Option<Error>)
      requires Valid()
      modifies this
      ensures Valid()
      ensures old(GetByID(id, driver)).Failure? ==> err == Some(old(GetByID(id, driver)).error) && rows == old(rows)
      ensures old(GetByID(id, driver)).Ok? && CompleteGuard(old(rows)[id]).Some?
              ==> err == Some(RecordNotFound) && rows == old(rows)
      ensures old(GetByID(id, driver)).Ok? && CompleteGuard(old(rows)[id]).None?
              ==> err == ExecError(exec, "complete_round")
                  && rows == (if Applied(exec) then old(rows)[id := Completed(old(rows)[id], score, work, rest, now)]
                              else old(rows))
      ensures err.None? ==> id in rows && IsCompleted(rows[id])
    {
      var found := GetByID(id, driver);
      if found.Failure? {
        return Some(found.error);
      }
      var round := found.value;
      err := CompleteGuard(round);
      if err.Some? {
        return;
      }
      if Applied(exec) {
        rows := rows[id := Completed(round, score, work, rest, now)];
      }
      err := ExecError(exec, "complete_round");
    }

    /** `AbortRound`: the row must exist and be in progress; the UPDATE sets the end time and the abort flag. */
    method AbortRound(id: Uuid, now: int, driver: Option<Error>, exec: ExecOutcome) returns (err: Option<Error>)
      requires Valid()
      modifies this
      ensures Valid()
      ensures old(GetByID(id, driver)).Failure? ==> err == Some(old(GetByID(id, driver)).error) && rows == old(rows)
      ensures old(GetByID(id, driver)).Ok? && AbortGuard(old(rows)[id]).Some?
              ==> err == Some(RecordNotFound) && rows == old(rows)
      ensures old(GetByID(id, driver)).Ok? && AbortGuard(old(rows)[id]).None?
              ==> err == ExecError(exec, "abort_round")
                  && rows == (if Applied(exec) then old(rows)[id := Aborted(old(rows)[id], now)] else old(rows))
      ensures err.None? ==> id in rows && rows[id].isAborted && !IsInProgress(rows[id])
    {
      var found := GetByID(id, driver);
      if found.Failure? {
        return Some(found.error);
      }
      var round := found.value;
      err := AbortGuard(round);
      if err.Some? {
        return;
      }
      if Applied(exec) {
        rows := rows[id := Aborted(round, now)];
      }
      err := ExecError(exec, "abort_round");
    }

    /** The SELECT of `CalculateSessionStats`: every qualifying row once. */
    method SelectQualifying(sessionID: Uuid) returns (selected: seq<RoundRecord>)
      requires Valid()
      ensures forall i :: 0 <= i < |selected| ==>
                Qualifies(selected[i], sessionID) && selected[i].id in rows && rows[selected[i].id] == selected[i]
      ensures forall k :: k in rows && Qualifies(rows[k], sessionID) ==> rows[k] in selected
      ensures forall i, j :: 0 <= i < j < |selected| ==> selected[i].id != selected[j].id
    {
      var keys := rows.Keys;
      selected := [];
      while keys != {}
        invariant keys <= rows.Keys
        invariant forall i :: 0 <= i < |selected| ==>
                    Qualifies(selected[i], sessionID) && selected[i].id in rows
                    && rows[selected[i].id] == selected[i] && selected[i].id !in keys
        invariant forall k :: k in rows && k !in keys && Qualifies(rows[k], sessionID) ==> rows[k] in selected
        invariant forall i, j :: 0 <= i < j < |selected| ==> selected[i].id != selected[j].id
        decreases keys
      {
        var k :| k in keys;
        if Qualifies(rows[k], sessionID) {
          selected := selected + [rows[k]];
        }
        keys := keys - {k};
      }
    }

    /**
     * `CalculateSessionStats`: the average score, total work, number of
     * qualifying rounds and total break over the rows the query selects;
     * all zero when there are none.
     */
    method CalculateSessionStats(sessionID: Uuid, driver: Option<Error>)
      returns (avg: real, totalWork: int, count: int, totalBreak: int, selected: seq<RoundRecord>, err: Option<Error>)
      requires Valid()
      ensures driver.Some? ==> err == Some(NewDatabaseQueryError(driver)) && avg == 0.0 && totalWork == 0
                               && count == 0 && totalBreak == 0
      ensures driver.None? ==> err.None?
      ensures driver.None? ==> forall i :: 0 <= i < |selected| ==> Qualifies(selected[i], sessionID) && selected[i] in rows.Values
      ensures driver.None? ==> forall k :: k in rows && Qualifies(rows[k], sessionID) ==> rows[k] in selected
      ensures forall i, j :: 0 <= i < j < |selected| ==> selected[i].id != selected[j].id
      ensures err.None? ==> count == |selected| && totalWork == WorkSum(selected) && totalBreak == BreakSum(selected)
                            && avg == Average(FocusSum(selected), FocusCount(selected))
    {
      if driver.Some? {
        return 0.0, 0, 0, 0, [], Some(NewDatabaseQueryError(driver));
      }
      selected := SelectQualifying(sessionID);
      forall i | 0 <= i < |selected| ensures selected[i] in rows.Values {
        assert rows[selected[i].id] == selected[i];
      }
      avg, totalWork, count, totalBreak := SessionStats(selected);
      err := None;
    }
  }
}
