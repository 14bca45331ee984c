/**
 * backend/internal/usecase/round_usecase.go: starting, completing and
 * aborting rounds over the round table, with the optimisation message a
 * completion sends. The session lookup and the user-configuration lookup
 * are parameters (their outcome); the queue is the sequence `sent` of
 * messages it accepted.
 */
module RoundUseCase {
  import opened Wrappers
  import opened GoErrors
  import opened Uuids
  import opened Rounds
  import opened InfraErrors
  import opened RoundRepository
  import opened OptimizationMessage

  const InProgressText :=
    "進行中のラウンドがあります。新しいラウンドを開始する前に現在のラウンドを完了またはスキップしてください。"
  const DefaultWorkTime := 25
  const DefaultBreakTime := 5

  /** As written: a last-round lookup error aborts `StartRound` unless it is the postgres `ErrNoRoundsInSession`. */
  predicate LookupAbortsAsWritten(e: Error)
  {
    !Is(e, PgRound(PgNoRoundsInSession))
  }

  /** As intended: the "no rounds" answer the repository actually gives, `ErrRecordNotFound`, is tolerated as well. */
  predicate LookupAborts(e: Error)
  {
    !Is(e, PgRound(PgNoRoundsInSession)) && !Is(e, App(ErrRecordNotFound))
  }

  /**
   * For a session without rounds the repository answers `ErrRecordNotFound`,
   * which the test as written does not tolerate: the first round of a
   * session could never be started.
   */
  lemma EmptySessionRejectedAsWritten()
    ensures LookupAbortsAsWritten(RecordNotFound) && !LookupAborts(RecordNotFound)
  {
  }

  /** The order of the new round: 1 for the first, otherwise one past the last. */
  function NextRoundOrder(last: Option<RoundRecord>): (n: int)
    ensures last.None? ==> n == 1
    ensures last.Some? ==> n == last.value.roundOrder + 1
  {
    if last.None? then 1 else last.value.roundOrder + 1
  }

  /**
   * `getUserWorkAndBreakTime`: the configured round work and break time when
   * a repository exists and answers, otherwise 25 and 5; it never fails.
   */
  function WorkAndBreakTime(lookup: Option<Result<(int, int), Error>>): (t: (int, int, Option<Error>))
    ensures t.2.None?
    ensures lookup.Some? && lookup.value.Ok? ==> (t.0, t.1) == lookup.value.value
    ensures !(lookup.Some? && lookup.value.Ok?) ==> t.0 == DefaultWorkTime && t.1 == DefaultBreakTime
  {
    if lookup.Some? && lookup.value.Ok? then (lookup.value.value.0, lookup.value.value.1, None)
    else (DefaultWorkTime, DefaultBreakTime, None)
  }

  /** The rounds of a session whose order no other round of it exceeds. */
  ghost predicate IsLast(rows: map<Uuid, RoundRecord>, sessionID: Uuid, r: RoundRecord)
  {
    r in rows.Values && r.sessionID == sessionID
    && forall k :: k in rows && rows[k].sessionID == sessionID ==> rows[k].roundOrder <= r.roundOrder
  }

  /**
   * `StartRound` gets past its lookups to the INSERT: the session exists, and
   * either the last-round lookup fails with an error it tolerates (the new
   * round is then the first) or every round of the session with the highest
   * order has ended.
   */
  ghost predicate ReachesInsert(rows: map<Uuid, RoundRecord>, sessionID: Uuid, sessionErr: Option<Error>,
                                lastDriver: Option<Error>)
  {
    sessionErr.None?
    && if lastDriver.Some? then !LookupAborts(NewDatabaseQueryError(lastDriver))
       else forall last :: IsLast(rows, sessionID, last) ==> last.endTime.Some?
  }

  /** The repository's completion takes effect: its lookup finds the round, the guard passes and the UPDATE touches it. */
  ghost predicate Completes(rows: map<Uuid, RoundRecord>, id: Uuid, checkDriver: Option<Error>, exec: ExecOutcome)
  {
    checkDriver.None? && id in rows && CompleteGuard(rows[id]).None? && ExecError(exec, "complete_round").None?
  }

  /** The same for the repository's abort. */
  ghost predicate Aborts(rows: map<Uuid, RoundRecord>, id: Uuid, checkDriver: Option<Error>, exec: ExecOutcome)
  {
    checkDriver.None? && id in rows && AbortGuard(rows[id]).None? && ExecError(exec, "abort_round").None?
  }

  class RoundService {
    const store: RoundStore
    const sqsConfigured: bool
    var sent: seq<RoundOptimizationMessage>

    constructor (store: RoundStore, sqsConfigured: bool)
      ensures this.store == store && this.sqsConfigured == sqsConfigured && sent == []
    {
      this.store := store;
      this.sqsConfigured := sqsConfigured;
      sent := [];
    }

    /**
     * `StartRound`: the session must exist; a last round without an end time
     * blocks a new one; the new round's order follows the last one's. A
     * lookup error is tested with the corrected `LookupAborts`, so the first
     * round of a session can start; as written (`LookupAbortsAsWritten`) it
     * cannot.
     */
    method StartRound(sessionID: Uuid, sessionErr: Option<Error>, lastDriver: Option<Error>,
                      newID: Uuid, now: int, insertFailure: Option<InsertFailure>)
      returns (r: Result<RoundResponse, Error>)
      requires store.Valid()
      modifies store
      ensures store.Valid()
      ensures r.Failure? ==> store.rows == old(store.rows)
      ensures sessionErr.Some? ==> r == Failure(sessionErr.value)
      ensures sessionErr.None? && lastDriver.Some? && LookupAborts(NewDatabaseQueryError(lastDriver))
              ==> r == Failure(NewDatabaseQueryError(lastDriver))
      ensures r.Ok? ==> newID !in old(store.rows) && newID in store.rows && store.rows == old(store.rows)[newID := store.rows[newID]]
      ensures r.Ok? ==> var s := store.rows[newID];
                        IsInProgress(s) && s.sessionID == sessionID && s.startTime == now && r.value == ToResponse(s)
      ensures r.Ok? && lastDriver.None? && (exists k :: k in old(store.rows) && old(store.rows)[k].sessionID == sessionID)
              ==> exists last :: IsLast(old(store.rows), sessionID, last) && last.endTime.Some?
                                 && r.value.roundOrder == last.roundOrder + 1
      ensures r.Ok? && lastDriver.None? && (forall k :: k in old(store.rows) ==> old(store.rows)[k].sessionID != sessionID)
              ==> r.value.roundOrder == 1
      ensures r.Ok? && lastDriver.Some? ==> r.value.roundOrder == 1
      ensures ReachesInsert(old(store.rows), sessionID, sessionErr, lastDriver) && newID in old(store.rows)
              ==> r == Failure(NewUniqueConstraintError(Some(Opaque(DuplicateKeyText))))
      ensures ReachesInsert(old(store.rows), sessionID, sessionErr, lastDriver) && newID !in old(store.rows)
              && insertFailure.Some?
              ==> r == Failure(InsertError(insertFailure.value))
      ensures ReachesInsert(old(store.rows), sessionID, sessionErr, lastDriver) && newID !in old(store.rows)
              && insertFailure.None?
              ==> r.Ok?
      ensures ReachesInsert(old(store.rows), sessionID, sessionErr, lastDriver) && lastDriver.None?
              ==> forall last :: IsLast(old(store.rows), sessionID, last) ==> r.Ok? ==> r.value.roundOrder == last.roundOrder + 1
      ensures sessionErr.None? && lastDriver.None?
              && (forall last :: IsLast(old(store.rows), sessionID, last) ==> last.endTime.None?)
              && (exists k :: k in old(store.rows) && old(store.rows)[k].sessionID == sessionID)
              ==> r == Failure(Opaque(InProgressText))
    {
      if sessionErr.Some? {
        return Failure(sessionErr.value);
      }
      var last := store.GetLastRoundBySessionID(sessionID, lastDriver);
      if last.Failure? && LookupAborts(last.error) {
        return Failure(last.error);
      }
      if last.Ok? {
        assert IsLast(store.rows, sessionID, last.value);
      }
      var lastRound: Option<RoundRecord> := if last.Ok? then Some(last.value) else None;
      if lastRound.Some? && lastRound.value.endTime.None? {
        return Failure(Opaque(InProgressText));
      }
      var order := NextRoundOrder(lastRound);
      var round := new Round(newID, sessionID, order, now);
      var err := store.Create(round.Row(), insertFailure);
      if err.Some? {
        return Failure(err.value);
      }
      r := Ok(ToResponse(store.rows[newID]));
    }

    /**
     * `CompleteRound`: the round and its session must exist; the round is
     * completed with the user's configured times, and a message is sent
     * exactly when a score was given (and a queue client exists and accepts it).
     * The message goes out before the round is read again, so a failing
     * re-read (`rereadDriver`) reports an error after the round was completed
     * and the message sent. `checkDriver` is the outcome of the lookup inside
     * `RoundStore.Complete`. It inherits the corrected guard of `RoundStore.Complete`.
     */
    method CompleteRound(id: Uuid, userID: Uuid, score: Option<int>, readDriver: Option<Error>,
                         sessionErr: Option<Error>, config: Option<Result<(int, int), Error>>,
                         checkDriver: Option<Error>, exec: ExecOutcome, rereadDriver: Option<Error>,
                         messageID: Uuid, now: int, accepted: bool)
      returns (r: Result<RoundResponse, Error>)
      requires store.Valid()
      modifies store, this
      ensures store.Valid()
      ensures old(store.GetByID(id, readDriver)).Failure? ==> r == Failure(old(store.GetByID(id, readDriver)).error)
      ensures old(store.GetByID(id, readDriver)).Ok? && sessionErr.Some? ==> r == Failure(sessionErr.value)
      ensures old(store.GetByID(id, readDriver)).Ok? && sessionErr.None? && old(store.GetByID(id, checkDriver)).Failure?
              ==> r == Failure(old(store.GetByID(id, checkDriver)).error)
      ensures score.None? || !sqsConfigured || !accepted ==> sent == old(sent)
      ensures !(old(store.GetByID(id, readDriver)).Ok? && sessionErr.None? && checkDriver.None?
                && CompleteGuard(old(store.rows)[id]).None? && Applied(exec))
              ==> store.rows == old(store.rows)
      ensures old(store.GetByID(id, readDriver)).Ok? && sessionErr.None? && checkDriver.None?
              && CompleteGuard(old(store.rows)[id]).Some?
              ==> r == Failure(RecordNotFound)
      ensures old(store.GetByID(id, readDriver)).Ok? && sessionErr.None? && checkDriver.None?
              && CompleteGuard(old(store.rows)[id]).None? && ExecError(exec, "complete_round").Some?
              ==> r == Failure(ExecError(exec, "complete_round").value)
      ensures !(old(store.GetByID(id, readDriver)).Ok? && sessionErr.None? && Completes(old(store.rows), id, checkDriver, exec))
              ==> r.Failure? && sent == old(sent)
      ensures old(store.GetByID(id, readDriver)).Ok? && sessionErr.None? && Completes(old(store.rows), id, checkDriver, exec)
              ==> store.rows == old(store.rows)[id := Completed(old(store.rows)[id], score, WorkAndBreakTime(config).0,
                                                                WorkAndBreakTime(config).1, now)]
                  && (score.Some? && sqsConfigured && accepted
                      ==> sent == old(sent) + [NewRoundOptimizationMessage(messageID, now, userID, id, score.value)])
                  && r == (if rereadDriver.Some? then Failure(NewDatabaseQueryError(rereadDriver))
                           else Ok(ToResponse(store.rows[id])))
      ensures r.Ok? ==> id in old(store.rows) && IsInProgress(old(store.rows)[id])
      ensures r.Ok? ==> r.value == ToResponse(store.rows[id]) && IsCompleted(store.rows[id])
    {
      var found := store.GetByID(id, readDriver);
      if found.Failure? {
        return Failure(found.error);
      }
      if sessionErr.Some? {
        return Failure(sessionErr.value);
      }
      var times := WorkAndBreakTime(config);
      var err := store.Complete(id, score, times.0, times.1, now, checkDriver, exec);
      if err.Some? {
        return Failure(err.value);
      }
      if score.Some? && sqsConfigured {
        var message := NewRoundOptimizationMessage(messageID, now, userID, id, score.value);
        if accepted {
          sent := sent + [message];
        }
      }
      var updated := store.GetByID(id, rereadDriver);
      if updated.Failure? {
        return Failure(updated.error);
      }
      r := Ok(ToResponse(updated.value));
    }

    /**
     * `AbortRound`: the round and its session must exist; the round is
     * aborted and nothing is sent. `checkDriver` is the outcome of the lookup
     * inside `RoundStore.AbortRound`, `rereadDriver` that of the final read.
     */
    method AbortRound(id: Uuid, readDriver: Option<Error>, sessionErr: Option<Error>, checkDriver: Option<Error>,
                      exec: ExecOutcome, rereadDriver: Option<Error>, now: int)
      returns (r: Result<RoundResponse, Error>)
      requires store.Valid()
      modifies store
      ensures store.Valid()
      ensures sent == old(sent)
      ensures old(store.GetByID(id, readDriver)).Failure? ==> r == Failure(old(store.GetByID(id, readDriver)).error)
      ensures old(store.GetByID(id, readDriver)).Ok? && sessionErr.Some? ==> r == Failure(sessionErr.value)
      ensures old(store.GetByID(id, readDriver)).Ok? && sessionErr.None? && old(store.GetByID(id, checkDriver)).Failure?
              ==> r == Failure(old(store.GetByID(id, checkDriver)).error)
      ensures !(old(store.GetByID(id, readDriver)).Ok? && sessionErr.None? && Aborts(old(store.rows), id, checkDriver, exec))
              ==> r.Failure?
      ensures !(old(store.GetByID(id, readDriver)).Ok? && sessionErr.None? && checkDriver.None?
                && AbortGuard(old(store.rows)[id]).None? && Applied(exec))
              ==> store.rows == old(store.rows)
      ensures old(store.GetByID(id, readDriver)).Ok? && sessionErr.None? && checkDriver.None?
              && AbortGuard(old(store.rows)[id]).Some?
              ==> r == Failure(RecordNotFound)
      ensures old(store.GetByID(id, readDriver)).Ok? && sessionErr.None? && checkDriver.None?
              && AbortGuard(old(store.rows)[id]).None? && ExecError(exec, "abort_round").Some?
              ==> r == Failure(ExecError(exec, "abort_round").value)
      ensures old(store.GetByID(id, readDriver)).Ok? && sessionErr.None? && Aborts(old(store.rows), id, checkDriver, exec)
              ==> store.rows == old(store.rows)[id := Aborted(old(store.rows)[id], now)]
                  && r == (if rereadDriver.Some? then Failure(NewDatabaseQueryError(rereadDriver))
                           else Ok(ToResponse(store.rows[id])))
      ensures r.Ok? ==> id in old(store.rows) && IsInProgress(old(store.rows)[id])
      ensures r.Ok? ==> r.value == ToResponse(store.rows[id]) && r.value.isAborted
    {
      var found := store.GetByID(id, readDriver);
      if found.Failure? {
        return Failure(found.error);
      }
      if sessionErr.Some? {
        return Failure(sessionErr.value);
      }
      var err := store.AbortRound(id, now, checkDriver, exec);
      if err.Some? {
        return Failure(err.value);
      }
      var updated := store.GetByID(id, rereadDriver);
      if updated.Failure? {
        return Failure(updated.error);
      }
      r := Ok(ToResponse(updated.value));
    }
  }
}
