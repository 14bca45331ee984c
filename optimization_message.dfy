/**
 * backend/internal/domain/model/round_optimization_message.go and
 * session_optimization_message.go: the messages queued for the optimiser
 * when a round or a session ends. The fresh message id (`uuid.New()`) and
 * the clock are parameters; `%.1f` is the parameter `fixed1`.
 */
module OptimizationMessage {
  import opened Wrappers
  import opened Text
  import opened Uuids

  const RoundMessageType := "round_optimization"
  const SessionMessageType := "session_optimization"
  const MessageVersion := "2.0"

  datatype RoundOptimizationMessage = RoundOptimizationMessage(
    messageID: string, messageType: string, timestamp: int, version: string,
    userID: string, roundID: string, focusScore: int)

  datatype SessionOptimizationMessage = SessionOptimizationMessage(
    messageID: string, messageType: string, timestamp: int, version: string,
    userID: string, sessionID: string, avgFocusScore: real, totalWorkTime: int)

  /** `IsValid`: ids present, exact type and version, a score in [0,100]. */
  predicate RoundMessageValid(m: RoundOptimizationMessage)
  {
    m.messageID != "" && m.userID != "" && m.roundID != ""
    && m.messageType == RoundMessageType && m.version == MessageVersion
    && 0 <= m.focusScore <= 100
  }

  /** `IsValid`: as for rounds, with an average in [0,100] and a non-negative total. */
  predicate SessionMessageValid(m: SessionOptimizationMessage)
  {
    m.messageID != "" && m.userID != "" && m.sessionID != ""
    && m.messageType == SessionMessageType && m.version == MessageVersion
    && 0.0 <= m.avgFocusScore <= 100.0 && m.totalWorkTime >= 0
  }

  /**
   * `NewRoundOptimizationMessage`: the ids are rendered as canonical text, so a
   * fresh message is valid exactly when its score is in range.
   */
  function NewRoundOptimizationMessage(messageID: Uuid, now: int, userID: Uuid, roundID: Uuid, focusScore: int)
    : (m: RoundOptimizationMessage)
    ensures m.messageType == RoundMessageType && m.version == MessageVersion && m.timestamp == now
    ensures m.messageID == messageID && m.userID == userID && m.roundID == roundID && m.focusScore == focusScore
    ensures RoundMessageValid(m) <==> 0 <= focusScore <= 100
    ensures RoundLogReady(m)
  {
    RoundOptimizationMessage(messageID, RoundMessageType, now, MessageVersion, userID, roundID, focusScore)
  }

  /** `NewSessionOptimizationMessage`: valid exactly when the average and the total are in range. */
  function NewSessionOptimizationMessage(messageID: Uuid, now: int, userID: Uuid, sessionID: Uuid,
                                         avgFocusScore: real, totalWorkTime: int)
    : (m: SessionOptimizationMessage)
    ensures m.messageType == SessionMessageType && m.version == MessageVersion && m.timestamp == now
    ensures m.messageID == messageID && m.userID == userID && m.sessionID == sessionID
    ensures m.avgFocusScore == avgFocusScore && m.totalWorkTime == totalWorkTime
    ensures SessionMessageValid(m) <==> 0.0 <= avgFocusScore <= 100.0 && totalWorkTime >= 0
    ensures SessionLogReady(m)
  {
    SessionOptimizationMessage(messageID, SessionMessageType, now, MessageVersion, userID, sessionID,
                               avgFocusScore, totalWorkTime)
  }

  /** `ToLogString` slices `[:8]` of each id, which panics on a shorter id. */
  predicate RoundLogReady(m: RoundOptimizationMessage)
  {
    |m.messageID| >= 8 && |m.userID| >= 8 && |m.roundID| >= 8
  }

  predicate SessionLogReady(m: SessionOptimizationMessage)
  {
    |m.messageID| >= 8 && |m.userID| >= 8 && |m.sessionID| >= 8
  }

  /**
   * The log line names the first eight characters of the message, user and
   * round ids, in that order, and ends with the focus score.
   */
  function RoundLogString(m: RoundOptimizationMessage): (s: string)
    requires RoundLogReady(m)
    ensures HasPrefix(s, "RoundOptimization[ID=" + m.messageID[..8] + ", UserID=" + m.userID[..8]
                         + ", RoundID=" + m.roundID[..8] + ", FocusScore=")
    ensures HasSuffix(s, ", FocusScore=" + Itoa(m.focusScore) + "]")
    ensures |s| == 21 + 8 + 9 + 8 + 10 + 8 + 13 + |Itoa(m.focusScore)| + 1
  {
    var head := "RoundOptimization[ID=" + m.messageID[..8] + ", UserID=" + m.userID[..8]
                + ", RoundID=" + m.roundID[..8] + ", FocusScore=";
    var s := head + Itoa(m.focusScore) + "]";
    assert s[..|head|] == head;
    assert s[|s| - (13 + |Itoa(m.focusScore)| + 1)..] == ", FocusScore=" + Itoa(m.focusScore) + "]";
    s
  }

  /** The score at the end of the round log line reads back as the message's score. */
  lemma RoundLogScoreReadsBack(m: RoundOptimizationMessage)
    requires RoundLogReady(m)
    ensures var s := RoundLogString(m);
            1 + |Itoa(m.focusScore)| <= |s|
            && ParseInt(s[|s| - 1 - |Itoa(m.focusScore)|..|s| - 1]) == Some(m.focusScore)
  {
    var s := RoundLogString(m);
    var tail := ", FocusScore=" + Itoa(m.focusScore) + "]";
    assert s[|s| - |tail|..] == tail;
    assert s[|s| - 1 - |Itoa(m.focusScore)|..|s| - 1] == tail[13..|tail| - 1];
    assert tail[13..|tail| - 1] == Itoa(m.focusScore);
    ParseItoa(m.focusScore);
  }

  /**
   * The log line names the first eight characters of the message, user and
   * session ids, then the average focus with one decimal (`fixed1`), and ends
   * with the total work time in minutes.
   */
  function SessionLogString(m: SessionOptimizationMessage, fixed1: real -> string): (s: string)
    requires SessionLogReady(m)
    ensures HasPrefix(s, "SessionOptimization[ID=" + m.messageID[..8] + ", UserID=" + m.userID[..8]
                         + ", SessionID=" + m.sessionID[..8] + ", AvgFocus=" + fixed1(m.avgFocusScore))
    ensures HasSuffix(s, ", TotalWork=" + Itoa(m.totalWorkTime) + "min]")
    ensures |s| == 23 + 8 + 9 + 8 + 12 + 8 + 11 + |fixed1(m.avgFocusScore)| + 12 + |Itoa(m.totalWorkTime)| + 4
  {
    var head := "SessionOptimization[ID=" + m.messageID[..8] + ", UserID=" + m.userID[..8]
                + ", SessionID=" + m.sessionID[..8] + ", AvgFocus=" + fixed1(m.avgFocusScore);
    var tail := ", TotalWork=" + Itoa(m.totalWorkTime) + "min]";
    var s := head + tail;
    assert s[..|head|] == head;
    assert s[|s| - |tail|..] == tail;
    s
  }

  /** The total work time near the end of the session log line reads back as the message's. */
  lemma SessionLogWorkReadsBack(m: SessionOptimizationMessage, fixed1: real -> string)
    requires SessionLogReady(m)
    ensures var s := SessionLogString(m, fixed1);
            4 + |Itoa(m.totalWorkTime)| <= |s|
            && ParseInt(s[|s| - 4 - |Itoa(m.totalWorkTime)|..|s| - 4]) == Some(m.totalWorkTime)
  {
    var s := SessionLogString(m, fixed1);
    var tail := ", TotalWork=" + Itoa(m.totalWorkTime) + "min]";
    assert s[|s| - |tail|..] == tail;
    assert s[|s| - 4 - |Itoa(m.totalWorkTime)|..|s| - 4] == tail[12..|tail| - 4];
    assert tail[12..|tail| - 4] == Itoa(m.totalWorkTime);
    ParseItoa(m.totalWorkTime);
  }

  /** A valid message may still make `ToLogString` panic: validity asks only for non-empty ids. */
  lemma ValidDoesNotImplyLogReady()
    ensures var m := RoundOptimizationMessage("m", RoundMessageType, 0, MessageVersion, "u", "r", 50);
            RoundMessageValid(m) && !RoundLogReady(m)
  {
  }
}
