/** The learning-session actions: ownership guards, activation and the session duration (controllers/LearningSessionController.ts). */
module LearningSessionController {
  import opened Wrappers
  import opened Time
  import opened Accounts
  import opened LearningSessionModel
  import opened Companions
  import Seqs

  /**
   * `Math.round(ms / 1000 / 60)`: the nearest whole number of minutes, a half rounding up
   * (`Math.round` rounds towards +∞ at .5; Dafny's `/` by a positive divisor is the floor).
   */
  function RoundedMinutes(ms: int): (m: int)
    ensures 60000 * m - 30000 <= ms < 60000 * m + 30000
  {
    (ms + 30000) / 60000
  }

  /** The rounding is determined by its bracket: no other number of minutes lies within half a minute. */
  lemma RoundedMinutesUnique(ms: int, m: int)
    requires 60000 * m - 30000 <= ms < 60000 * m + 30000
    ensures m == RoundedMinutes(ms)
  {
    var r := RoundedMinutes(ms);
    assert 60000 * (m - r) < 60000 && 60000 * (r - m) < 60000;
  }

  /** Longer calls are never given fewer minutes. */
  lemma RoundedMinutesMonotone(a: int, b: int)
    requires a <= b
    ensures RoundedMinutes(a) <= RoundedMinutes(b)
  {
  }

  /** What `getVapiCall` reported when it succeeded with data (`None`: failed, threw or returned no data). */
  datatype CallDetails = CallDetails(transcript: Option<string>, startedAt: Option<TimeValue>, endedAt: Option<TimeValue>)

  /** The `{ feedback?, rating? }` argument of `completeLearningSession`. */
  datatype Feedback = Feedback(feedback: Option<string>, rating: Option<int>)

  /**
   * The guard chain of `getLearningSession` and `completeLearningSession`: signed in, known
   * locally, the session exists, and the caller owns it.
   */
  function GetLearningSession(current: Option<ClerkUser>, userByClerkId: string -> Option<User>,
                              rows: seq<LearningSession>, sessionId: string): (r: ApiResponse<LearningSession>)
    ensures var auth := Authenticate(current, userByClerkId);
            auth.Failure? ==> r == Failure(auth.error)
    ensures var auth := Authenticate(current, userByClerkId);
            auth.Success? && Seqs.FindSingle(rows, WithId(sessionId)).None? ==>
              r == Failure("Learning session not found")
    ensures var auth := Authenticate(current, userByClerkId);
            var found := Seqs.FindSingle(rows, WithId(sessionId));
            auth.Success? && found.Some? && found.value.userId != auth.data.id ==>
              r == Failure("Unauthorized to access this session")
    ensures r.Success? ==>
              var auth := Authenticate(current, userByClerkId);
              auth.Success? && Seqs.FindSingle(rows, WithId(sessionId)) == Some(r.data)
              && r.data.id == sessionId && r.data.userId == auth.data.id
  {
    var auth := Authenticate(current, userByClerkId);
    if auth.Failure? then Failure(auth.error)
    else
      var session := Seqs.FindSingle(rows, WithId(sessionId));
      if session.None? then Failure("Learning session not found")
      else if session.value.userId != auth.data.id then Failure("Unauthorized to access this session")
      else Success(session.value)
  }

  /** The duration the finished Vapi call gives, when its details carry both timestamps. */
  function CallMinutes(session: LearningSession, call: Option<CallDetails>): (d: Option<int>)
    ensures d.Some? <==> Truthy(session.vapiCallId) && call.Some? && call.value.startedAt.Some? && call.value.endedAt.Some?
    ensures d.Some? ==> d.value == RoundedMinutes(call.value.endedAt.value - call.value.startedAt.value)
  {
    if Truthy(session.vapiCallId) && call.Some? && call.value.startedAt.Some? && call.value.endedAt.Some? then
      Some(RoundedMinutes(call.value.endedAt.value - call.value.startedAt.value))
    else None
  }

  /**
   * The fields `completeLearningSession` passes to `completeSession`: the caller's feedback, the
   * call's transcript, and the call's duration unless it is missing or 0, in which case the
   * minutes since the session started. The stored `startedAt` is never empty, so a duration
   * is always supplied.
   */
  function CompletionFor(session: LearningSession, data: Feedback, call: Option<CallDetails>, now: TimeValue): (c: Completion)
    ensures c.feedback == data.feedback && c.rating == data.rating
    ensures c.transcript == (if Truthy(session.vapiCallId) && call.Some? then call.value.transcript else None)
    ensures c.duration.Some?
    ensures var fromCall := CallMinutes(session, call);
            if fromCall.Some? && fromCall.value != 0 then c.duration == fromCall
            else c.duration == Some(RoundedMinutes(now - session.startedAt))
  {
    var fromCall := CallMinutes(session, call);
    var duration := if fromCall.Some? && fromCall.value != 0 then fromCall.value else RoundedMinutes(now - session.startedAt);
    Completion(Some(duration), if Truthy(session.vapiCallId) && call.Some? then call.value.transcript else None,
               data.feedback, data.rating)
  }

  /** A stored duration of 0 minutes means the session itself lasted under half a minute. */
  lemma ZeroDurationMeansShortSession(session: LearningSession, data: Feedback, call: Option<CallDetails>, now: TimeValue)
    requires CompletionFor(session, data, call, now).duration == Some(0)
    ensures -30000 <= now - session.startedAt < 30000
  {
  }

  /** Without a Vapi call id the call details are not consulted at all. */
  lemma NoCallIdIgnoresCall(session: LearningSession, data: Feedback, c1: Option<CallDetails>, c2: Option<CallDetails>, now: TimeValue)
    requires !Truthy(session.vapiCallId)
    ensures CompletionFor(session, data, c1, now) == CompletionFor(session, data, c2, now)
  {
  }

  /** The update `startLearningSession` makes once a Vapi call exists. */
  function ActivationPatch(callId: string): (p: SessionPatch)
    ensures p.status == Some(Active) && p.vapiCallId == Some(callId)
    ensures p.endedAt.None? && p.duration.None? && p.transcript.None? && p.feedback.None? && p.rating.None?
  {
    SessionPatch(Some(callId), Some(Active), None, None, None, None, None)
  }

  /** Updating the row just inserted under a fresh id rewrites that row alone. */
  lemma UpdateFreshRow(rows: seq<LearningSession>, s: LearningSession, patch: SessionPatch, now: TimeValue)
    requires Seqs.Count(rows, WithId(s.id)) == 0
    ensures UpdateRows(rows + [s], s.id, patch, now) == Some((rows + [ApplyPatch(s, patch, now)], ApplyPatch(s, patch, now)))
  {
    Seqs.CountAppend(rows, [s], WithId(s.id));
    assert [s][1..] == [];
    Seqs.UpdateSingleAt(rows + [s], WithId(s.id), Patcher(patch, now), |rows|);
    assert (rows + [s])[|rows| := ApplyPatch(s, patch, now)] == rows + [ApplyPatch(s, patch, now)];
  }

  /**
   * `startLearningSession`. `companionById` is `getCompanionById`; `callId` is the id of the
   * call `createVapiCall` returned, `None` when it failed or threw.
   */
  method StartLearningSession(table: LearningSessionTable, current: Option<ClerkUser>,
                              userByClerkId: string -> Option<User>, companionById: string -> Option<Companion>,
                              companionId: string, newId: string, callId: Option<string>, now: TimeValue)
    returns (r: ApiResponse<LearningSession>)
    modifies table
    ensures var auth := Authenticate(current, userByClerkId);
            auth.Failure? ==> r == Failure(auth.error) && table.rows == old(table.rows)
    ensures var auth := Authenticate(current, userByClerkId);
            auth.Success? && companionById(companionId).None? ==>
              r == Failure("Companion not found") && table.rows == old(table.rows)
    ensures var auth := Authenticate(current, userByClerkId);
            auth.Success? && companionById(companionId).Some?
            && InsertSession(old(table.rows), CreateLearningSessionData(companionId, auth.data.id), newId, now).None? ==>
              r == Failure("Failed to create learning session") && table.rows == old(table.rows)
    ensures r.Success? ==>
              var auth := Authenticate(current, userByClerkId);
              var companion := companionById(companionId);
              var s := NewSession(CreateLearningSessionData(companionId, auth.data.id), newId, now);
              auth.Success? && companion.Some? && Seqs.Count(old(table.rows), WithId(newId)) == 0
              && r.data == s
              && table.rows == old(table.rows) + [if Truthy(companion.value.vapiAssistantId) && callId.Some?
                                                  then ApplyPatch(s, ActivationPatch(callId.value), now) else s]
  {
    var auth := Authenticate(current, userByClerkId);
    if auth.Failure? {
      return Failure(auth.error);
    }
    var companion := companionById(companionId);
    if companion.None? {
      return Failure("Companion not found");
    }
    ghost var before := table.rows;
    var session := table.CreateSession(CreateLearningSessionData(companionId, auth.data.id), newId, now);
    if session.None? {
      return Failure("Failed to create learning session");
    }
    if Truthy(companion.value.vapiAssistantId) && callId.Some? {
      UpdateFreshRow(before, session.value, ActivationPatch(callId.value), now);
      var _ := table.UpdateSession(session.value.id, ActivationPatch(callId.value), now);
    }
    r := Success(session.value);
  }

  /** `completeLearningSession`: the owner's session is completed with the derived duration; nobody else's is touched. */
  method CompleteLearningSession(table: LearningSessionTable, current: Option<ClerkUser>,
                                 userByClerkId: string -> Option<User>, sessionId: string, data: Feedback,
                                 call: Option<CallDetails>, now: TimeValue)
    returns (r: ApiResponse<LearningSession>)
    modifies table
    ensures var guard := GetLearningSession(current, userByClerkId, old(table.rows), sessionId);
            guard.Failure? ==> r == guard && table.rows == old(table.rows)
    ensures var guard := GetLearningSession(current, userByClerkId, old(table.rows), sessionId);
            guard.Success? ==>
              var u := CompleteRows(old(table.rows), sessionId, CompletionFor(guard.data, data, call, now), now);
              u.Some? && r == Success(u.value.1) && table.rows == u.value.0
  {
    var guard := GetLearningSession(current, userByClerkId, table.rows, sessionId);
    if guard.Failure? {
      return guard;
    }
    var session := guard.data;
    var transcript: Option<string> := None;
    var duration: Option<int> := None;
    if Truthy(session.vapiCallId) && call.Some? {
      transcript := call.value.transcript;
      if call.value.startedAt.Some? && call.value.endedAt.Some? {
        duration := Some(RoundedMinutes(call.value.endedAt.value - call.value.startedAt.value));
      }
    }
    if duration.None? || duration.value == 0 {
      duration := Some(RoundedMinutes(now - session.startedAt));
    }
    var fields := Completion(duration, transcript, data.feedback, data.rating);
    assert fields == CompletionFor(session, data, call, now);
    assert Seqs.Count(table.rows, WithId(sessionId)) == 1;
    var completed := table.CompleteSession(sessionId, fields, now);
    if completed.None? {
      r := Failure("Failed to complete learning session");
    } else {
      r := Success(completed.value);
    }
  }

  /** A completed session belongs to the caller and is marked completed at `now`. */
  lemma CompletedSessionIsOwnersAndCompleted(rows: seq<LearningSession>, current: Option<ClerkUser>,
                                             userByClerkId: string -> Option<User>, sessionId: string,
                                             data: Feedback, call: Option<CallDetails>, now: TimeValue)
    requires GetLearningSession(current, userByClerkId, rows, sessionId).Success?
    ensures var session := GetLearningSession(current, userByClerkId, rows, sessionId).data;
            var u := CompleteRows(rows, sessionId, CompletionFor(session, data, call, now), now);
            u.Some? && u.value.1.status == Completed && u.value.1.endedAt == Some(now)
            && u.value.1.userId == Authenticate(current, userByClerkId).data.id
            && u.value.1.duration.Some?
  {
    var session := GetLearningSession(current, userByClerkId, rows, sessionId).data;
    var u := CompleteRows(rows, sessionId, CompletionFor(session, data, call, now), now);
    var j :| 0 <= j < |rows| && rows[j].id == sessionId && u.value.1 == ApplyPatch(rows[j], CompletionPatch(CompletionFor(session, data, call, now), now), now);
    assert WithId(sessionId)(rows[j]);
    Seqs.UpdateSingleAt(rows, WithId(sessionId), Patcher(CompletionPatch(CompletionFor(session, data, call, now), now), now), j);
  }

  /** `getLearningStats`: the signed-in user's statistics. */
  function GetLearningStats(current: Option<ClerkUser>, userByClerkId: string -> Option<User>,
                            rows: seq<LearningSession>, fault: bool): (r: ApiResponse<SessionStats>)
    ensures var auth := Authenticate(current, userByClerkId);
            (auth.Failure? ==> r == Failure(auth.error))
            && (auth.Success? ==> r == Success(GetSessionStats(rows, auth.data.id, fault)))
  {
    var auth := Authenticate(current, userByClerkId);
    if auth.Failure? then Failure(auth.error) else Success(GetSessionStats(rows, auth.data.id, fault))
  }
}
