/** The session-history actions (controllers/SessionController.ts). */
module SessionController {
  import opened Wrappers
  import opened Time
  import opened Accounts
  import opened SessionHistoryModel
  import Seqs

  /** `createSession(companionId, duration)`: records a finished session for the signed-in user. */
  method CreateSession(table: SessionHistoryTable, current: Option<ClerkUser>, userByClerkId: string -> Option<User>,
                       companionId: string, duration: int, newId: string, now: TimeValue)
    returns (r: ApiResponse<SessionRecord>)
    modifies table
    ensures var auth := Authenticate(current, userByClerkId);
            auth.Failure? ==> r == Failure(auth.error) && table.rows == old(table.rows)
    ensures var auth := Authenticate(current, userByClerkId);
            auth.Success? ==>
              var ins := InsertSession(old(table.rows), NewRecord(auth.data.id, companionId, duration, None, None), newId, now);
              (ins.None? ==> r == Failure("Failed to create session") && table.rows == old(table.rows))
              && (ins.Some? ==> r == Success(ins.value) && table.rows == old(table.rows) + [ins.value])
    ensures r.Success? ==>
              r.data.userId == Authenticate(current, userByClerkId).data.id
              && r.data.companionId == companionId && r.data.duration == Some(duration) && r.data.completedAt == now
  {
    var auth := Authenticate(current, userByClerkId);
    if auth.Failure? {
      return Failure(auth.error);
    }
    var session := table.CreateSession(NewRecord(auth.data.id, companionId, duration, None, None), newId, now);
    if session.None? {
      return Failure("Failed to create session");
    }
    r := Success(session.value);
  }

  /** `getSessionById`: needs no sign-in. */
  function GetSessionById(rows: seq<SessionRecord>, id: string): (r: ApiResponse<SessionRecord>)
    ensures r.Failure? <==> Seqs.FindSingle(rows, WithId(id)).None?
    ensures r.Failure? ==> r.error == "Session not found"
    ensures r.Success? ==> r.data in rows && r.data.id == id
  {
    var session := Seqs.FindSingle(rows, WithId(id));
    if session.None? then Failure("Session not found") else Success(session.value)
  }

  /** The guard chain of `updateSessionFeedback`: signed in, known locally, the session exists, the caller owns it. */
  function FeedbackGuard(current: Option<ClerkUser>, userByClerkId: string -> Option<User>,
                         rows: seq<SessionRecord>, id: string): (r: ApiResponse<SessionRecord>)
    ensures var auth := Authenticate(current, userByClerkId);
            auth.Failure? ==> r == Failure(auth.error)
    ensures var auth := Authenticate(current, userByClerkId);
            auth.Success? && Seqs.FindSingle(rows, WithId(id)).None? ==> r == Failure("Session not found")
    ensures var auth := Authenticate(current, userByClerkId);
            var found := Seqs.FindSingle(rows, WithId(id));
            auth.Success? && found.Some? && found.value.userId != auth.data.id ==>
              r == Failure("Unauthorized to update this session")
    ensures r.Success? ==>
              var auth := Authenticate(current, userByClerkId);
              auth.Success? && Seqs.FindSingle(rows, WithId(id)) == Some(r.data) && r.data.userId == auth.data.id
  {
    var auth := Authenticate(current, userByClerkId);
    if auth.Failure? then Failure(auth.error)
    else
      var session := Seqs.FindSingle(rows, WithId(id));
      if session.None? then Failure("Session not found")
      else if session.value.userId != auth.data.id then Failure("Unauthorized to update this session")
      else Success(session.value)
  }

  /** The update `updateSessionFeedback` sends: feedback, and the rating when one is given. */
  function FeedbackPatch(feedback: string, rating: Option<int>): (p: RecordPatch)
    ensures p.duration.None? && p.feedback == Some(feedback) && p.rating == rating
  {
    RecordPatch(None, Some(feedback), rating)
  }

  /**
   * `updateSessionFeedback`: when the guards pass, the session's feedback (and rating, if
   * given) are rewritten; when they fail the table is untouched.
   */
  method UpdateSessionFeedback(table: SessionHistoryTable, current: Option<ClerkUser>, userByClerkId: string -> Option<User>,
                               id: string, feedback: string, rating: Option<int>)
    returns (r: ApiResponse<SessionRecord>)
    modifies table
    ensures var guard := FeedbackGuard(current, userByClerkId, old(table.rows), id);
            guard.Failure? ==> r == guard && table.rows == old(table.rows)
    ensures var guard := FeedbackGuard(current, userByClerkId, old(table.rows), id);
            guard.Success? ==>
              var u := UpdateRows(old(table.rows), id, FeedbackPatch(feedback, rating));
              u.Some? && r == Success(u.value.1) && table.rows == u.value.0
  {
    var guard := FeedbackGuard(current, userByClerkId, table.rows, id);
    if guard.Failure? {
      return guard;
    }
    var updated := table.UpdateSession(id, FeedbackPatch(feedback, rating));
    if updated.None? {
      return Failure("Failed to update session");
    }
    r := Success(updated.value);
  }

  /** For the owner, only feedback and rating change: every other field and every other row stay as they were. */
  lemma FeedbackChangesOnlyFeedback(rows: seq<SessionRecord>, current: Option<ClerkUser>, userByClerkId: string -> Option<User>,
                                    id: string, feedback: string, rating: Option<int>, j: nat)
    requires FeedbackGuard(current, userByClerkId, rows, id).Success?
    requires j < |rows|
    ensures var u := UpdateRows(rows, id, FeedbackPatch(feedback, rating));
            u.Some?
            && (rows[j].id != id ==> u.value.0[j] == rows[j])
            && (rows[j].id == id ==>
                  u.value.0[j] == rows[j].(feedback := Some(feedback), rating := if rating.Some? then rating else rows[j].rating))
  {
  }

  /** `getUserSessionStats`: the signed-in user's history statistics. */
  function GetUserSessionStatsFor(current: Option<ClerkUser>, userByClerkId: string -> Option<User>,
                                  rows: seq<SessionRecord>, fault: bool): (r: ApiResponse<HistoryStats>)
    ensures var auth := Authenticate(current, userByClerkId);
            (auth.Failure? ==> r == Failure(auth.error))
            && (auth.Success? ==> r == Success(GetUserSessionStats(rows, auth.data.id, fault)))
  {
    var auth := Authenticate(current, userByClerkId);
    if auth.Failure? then Failure(auth.error) else Success(GetUserSessionStats(rows, auth.data.id, fault))
  }
}
