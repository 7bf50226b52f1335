/** The `learning_sessions` table and its statistics (models/LearningSession.ts). */
module LearningSessionModel {
  import opened Wrappers
  import opened Time
  import Seqs

  datatype SessionStatus = Pending | Active | Completed | Cancelled

  /**
   * A stored `LearningSession` row. `updatedAt` is the last value the application wrote
   * (`None` until the first update; the database default and `createdAt` are left out).
   */
  datatype LearningSession = LearningSession(
    id: string,
    userId: string,
    companionId: string,
    vapiCallId: Option<string>,
    status: SessionStatus,
    startedAt: TimeValue,
    endedAt: Option<TimeValue>,
    duration: Option<int>,
    transcript: Option<string>,
    feedback: Option<string>,
    rating: Option<int>,
    updatedAt: Option<TimeValue>)

  /** `CreateLearningSessionData`. */
  datatype CreateLearningSessionData = CreateLearningSessionData(companionId: string, userId: string)

  /** The fields a `Partial<LearningSession>` update may carry: `None` is a field left out. */
  datatype SessionPatch = SessionPatch(
    vapiCallId: Option<string>,
    status: Option<SessionStatus>,
    endedAt: Option<TimeValue>,
    duration: Option<int>,
    transcript: Option<string>,
    feedback: Option<string>,
    rating: Option<int>)

  /** The argument of `completeSession`. */
  datatype Completion = Completion(
    duration: Option<int>,
    transcript: Option<string>,
    feedback: Option<string>,
    rating: Option<int>)

  function WithId(id: string): LearningSession -> bool
  {
    (s: LearningSession) => s.id == id
  }

  function OwnedBy(userId: string): LearningSession -> bool
  {
    (s: LearningSession) => s.userId == userId
  }

  /** `createSession`: the row the insert stores, stamped `pending` and started now. */
  function NewSession(data: CreateLearningSessionData, newId: string, now: TimeValue): (s: LearningSession)
    ensures s.id == newId && s.userId == data.userId && s.companionId == data.companionId
    ensures s.status == Pending && s.startedAt == now
    ensures s.vapiCallId.None? && s.endedAt.None? && s.duration.None?
    ensures s.transcript.None? && s.feedback.None? && s.rating.None? && s.updatedAt.None?
  {
    LearningSession(newId, data.userId, data.companionId, None, Pending, now, None, None, None, None, None, None)
  }

  /** The insert fails, and `createSession` returns null, when the new id is already taken. */
  function InsertSession(rows: seq<LearningSession>, data: CreateLearningSessionData, newId: string, now: TimeValue): (r: Option<LearningSession>)
    ensures r.Some? <==> Seqs.Count(rows, WithId(newId)) == 0
    ensures r.Some? ==> r.value == NewSession(data, newId, now)
  {
    if Seqs.Count(rows, WithId(newId)) == 0 then Some(NewSession(data, newId, now)) else None
  }

  /** `{...updates, updatedAt: now}` applied to a row. */
  function ApplyPatch(s: LearningSession, patch: SessionPatch, now: TimeValue): (r: LearningSession)
    ensures r.id == s.id && r.userId == s.userId && r.companionId == s.companionId && r.startedAt == s.startedAt
    ensures r.vapiCallId == (if patch.vapiCallId.Some? then patch.vapiCallId else s.vapiCallId)
    ensures r.status == (if patch.status.Some? then patch.status.value else s.status)
    ensures r.endedAt == (if patch.endedAt.Some? then patch.endedAt else s.endedAt)
    ensures r.duration == (if patch.duration.Some? then patch.duration else s.duration)
    ensures r.transcript == (if patch.transcript.Some? then patch.transcript else s.transcript)
    ensures r.feedback == (if patch.feedback.Some? then patch.feedback else s.feedback)
    ensures r.rating == (if patch.rating.Some? then patch.rating else s.rating)
    ensures r.updatedAt == Some(now)
  {
    s.(vapiCallId := if patch.vapiCallId.Some? then patch.vapiCallId else s.vapiCallId,
       status := if patch.status.Some? then patch.status.value else s.status,
       endedAt := if patch.endedAt.Some? then patch.endedAt else s.endedAt,
       duration := if patch.duration.Some? then patch.duration else s.duration,
       transcript := if patch.transcript.Some? then patch.transcript else s.transcript,
       feedback := if patch.feedback.Some? then patch.feedback else s.feedback,
       rating := if patch.rating.Some? then patch.rating else s.rating,
       updatedAt := Some(now))
  }

  function Patcher(patch: SessionPatch, now: TimeValue): LearningSession -> LearningSession
  {
    (s: LearningSession) => ApplyPatch(s, patch, now)
  }

  /** `updateSession`: the table after the update and the updated row, or null. */
  function UpdateRows(rows: seq<LearningSession>, id: string, patch: SessionPatch, now: TimeValue): (r: Option<(seq<LearningSession>, LearningSession)>)
    ensures r.Some? <==> Seqs.Count(rows, WithId(id)) == 1
    ensures r.Some? ==>
              |r.value.0| == |rows|
              && forall j :: 0 <= j < |rows| ==>
                   r.value.0[j] == (if rows[j].id == id then ApplyPatch(rows[j], patch, now) else rows[j])
    ensures r.Some? ==> exists j :: 0 <= j < |rows| && rows[j].id == id && r.value.1 == ApplyPatch(rows[j], patch, now)
  {
    Seqs.UpdateSingle(rows, WithId(id), Patcher(patch, now))
  }

  /** `completeSession`'s update: the supplied fields plus `completed` and `endedAt`. */
  function CompletionPatch(c: Completion, now: TimeValue): (patch: SessionPatch)
    ensures patch.status == Some(Completed) && patch.endedAt == Some(now)
    ensures patch.duration == c.duration && patch.transcript == c.transcript
    ensures patch.feedback == c.feedback && patch.rating == c.rating
    ensures patch.vapiCallId.None?
  {
    SessionPatch(None, Some(Completed), Some(now), c.duration, c.transcript, c.feedback, c.rating)
  }

  /** `completeSession`. */
  function CompleteRows(rows: seq<LearningSession>, id: string, c: Completion, now: TimeValue): (r: Option<(seq<LearningSession>, LearningSession)>)
    ensures r.Some? ==>
              var s := r.value.1;
              s.status == Completed && s.endedAt == Some(now) && s.updatedAt == Some(now)
              && (c.duration.Some? ==> s.duration == c.duration)
              && (c.transcript.Some? ==> s.transcript == c.transcript)
              && (c.feedback.Some? ==> s.feedback == c.feedback)
              && (c.rating.Some? ==> s.rating == c.rating)
  {
    UpdateRows(rows, id, CompletionPatch(c, now), now)
  }

  /** The statistics object: `averageRating` is `ratingSum / ratingCount`, or 0 when `ratingCount` is 0. */
  datatype SessionStats = SessionStats(
    totalSessions: nat,
    totalDuration: int,
    ratingSum: int,
    ratingCount: nat,
    completedSessions: nat)

  const NoStats := SessionStats(0, 0, 0, 0, 0)

  function Plus(a: SessionStats, b: SessionStats): SessionStats
  {
    SessionStats(a.totalSessions + b.totalSessions, a.totalDuration + b.totalDuration,
                 a.ratingSum + b.ratingSum, a.ratingCount + b.ratingCount,
                 a.completedSessions + b.completedSessions)
  }

  function IsCompleted(): LearningSession -> bool
  {
    (s: LearningSession) => s.status == Completed
  }

  /** `s.rating` is truthy: present and not 0. */
  function HasRating(): LearningSession -> bool
  {
    (s: LearningSession) => s.rating.Some? && s.rating.value != 0
  }

  /** `s.duration || 0`. */
  function DurationOrZero(): LearningSession -> int
  {
    (s: LearningSession) => if s.duration.Some? then s.duration.value else 0
  }

  function RatingOrZero(): LearningSession -> int
  {
    (s: LearningSession) => if s.rating.Some? then s.rating.value else 0
  }

  /**
   * `getSessionStats`: over the user's rows, the completed ones give the duration total and,
   * those with a truthy rating, the rating average. A failed query (`fault`) gives zeros.
   */
  function GetSessionStats(rows: seq<LearningSession>, userId: string, fault: bool): (st: SessionStats)
    ensures fault ==> st == NoStats
    ensures st.ratingCount <= st.completedSessions <= st.totalSessions <= |rows|
  {
    if fault then NoStats
    else
      var sessions := Seqs.Filter(rows, OwnedBy(userId));
      var completed := Seqs.Filter(sessions, IsCompleted());
      var rated := Seqs.Filter(completed, HasRating());
      SessionStats(|sessions|, Seqs.Sum(completed, DurationOrZero()), Seqs.Sum(rated, RatingOrZero()),
                   |rated|, |completed|)
  }

  /** What one row adds to the statistics of its owner: the reference definition of the aggregate. */
  function RowStats(s: LearningSession, userId: string): SessionStats
  {
    if s.userId != userId then NoStats
    else if s.status != Completed then SessionStats(1, 0, 0, 0, 0)
    else if HasRating()(s) then SessionStats(1, DurationOrZero()(s), s.rating.value, 1, 1)
    else SessionStats(1, DurationOrZero()(s), 0, 0, 1)
  }

  /** The statistics as a row-by-row sum. */
  function RowwiseStats(rows: seq<LearningSession>, userId: string): (st: SessionStats)
    ensures st.ratingCount <= st.completedSessions <= st.totalSessions <= |rows|
  {
    if |rows| == 0 then NoStats else Plus(RowStats(rows[0], userId), RowwiseStats(rows[1..], userId))
  }

  lemma PlusAssociative(x: SessionStats, y: SessionStats, z: SessionStats)
    ensures Plus(x, Plus(y, z)) == Plus(Plus(x, y), z)
  {
  }

  lemma PlusNothing(x: SessionStats)
    ensures Plus(NoStats, x) == x
  {
  }

  lemma {:induction false} RowwiseAppend(a: seq<LearningSession>, b: seq<LearningSession>, userId: string)
    ensures RowwiseStats(a + b, userId) == Plus(RowwiseStats(a, userId), RowwiseStats(b, userId))
  {
    if |a| > 0 {
      var h := RowStats(a[0], userId);
      assert (a + b)[0] == a[0] && (a + b)[1..] == a[1..] + b;
      calc {
        RowwiseStats(a + b, userId);
        Plus(h, RowwiseStats(a[1..] + b, userId));
        { RowwiseAppend(a[1..], b, userId); }
        Plus(h, Plus(RowwiseStats(a[1..], userId), RowwiseStats(b, userId)));
        { PlusAssociative(h, RowwiseStats(a[1..], userId), RowwiseStats(b, userId)); }
        Plus(Plus(h, RowwiseStats(a[1..], userId)), RowwiseStats(b, userId));
        Plus(RowwiseStats(a, userId), RowwiseStats(b, userId));
      }
    } else {
      assert a + b == b;
      PlusNothing(RowwiseStats(b, userId));
    }
  }

  /** The source's filter/reduce pipeline computes exactly the row-by-row sum. */
  lemma {:induction false} StatsAreRowwise(rows: seq<LearningSession>, userId: string)
    ensures GetSessionStats(rows, userId, false) == RowwiseStats(rows, userId)
  {
    if |rows| > 0 {
      assert rows == [rows[0]] + rows[1..];
      StatsAreRowwise(rows[1..], userId);
      StatsCons(rows[0], rows[1..], userId);
    }
  }

  /** The pipeline over one more row adds that row's contribution. */
  lemma StatsCons(r: LearningSession, tail: seq<LearningSession>, userId: string)
    ensures GetSessionStats([r] + tail, userId, false) == Plus(RowStats(r, userId), GetSessionStats(tail, userId, false))
  {
    if r.userId != userId {
      StatsConsOther(r, tail, userId);
    } else if r.status != Completed {
      StatsConsUnfinished(r, tail, userId);
    } else {
      StatsConsCompleted(r, tail, userId);
    }
  }

  lemma StatsConsOther(r: LearningSession, tail: seq<LearningSession>, userId: string)
    requires r.userId != userId
    ensures GetSessionStats([r] + tail, userId, false) == Plus(RowStats(r, userId), GetSessionStats(tail, userId, false))
  {
    Seqs.FilterCons(r, tail, OwnedBy(userId));
    assert Seqs.Filter([r] + tail, OwnedBy(userId)) == Seqs.Filter(tail, OwnedBy(userId));
    PlusNothing(GetSessionStats(tail, userId, false));
  }

  lemma StatsConsUnfinished(r: LearningSession, tail: seq<LearningSession>, userId: string)
    requires r.userId == userId && r.status != Completed
    ensures GetSessionStats([r] + tail, userId, false) == Plus(RowStats(r, userId), GetSessionStats(tail, userId, false))
  {
    var mineT := Seqs.Filter(tail, OwnedBy(userId));
    var mine := Seqs.Filter([r] + tail, OwnedBy(userId));
    Seqs.FilterCons(r, tail, OwnedBy(userId));
    assert mine == [r] + mineT;
    Seqs.FilterCons(r, mineT, IsCompleted());
    assert Seqs.Filter(mine, IsCompleted()) == Seqs.Filter(mineT, IsCompleted());
    assert RowStats(r, userId) == SessionStats(1, 0, 0, 0, 0);
  }

  lemma StatsConsCompleted(r: LearningSession, tail: seq<LearningSession>, userId: string)
    requires r.userId == userId && r.status == Completed
    ensures GetSessionStats([r] + tail, userId, false) == Plus(RowStats(r, userId), GetSessionStats(tail, userId, false))
  {
    var mineT := Seqs.Filter(tail, OwnedBy(userId));
    var doneT := Seqs.Filter(mineT, IsCompleted());
    var ratedT := Seqs.Filter(doneT, HasRating());
    var mine := Seqs.Filter([r] + tail, OwnedBy(userId));
    var done := Seqs.Filter(mine, IsCompleted());
    var rated := Seqs.Filter(done, HasRating());
    Seqs.FilterCons(r, tail, OwnedBy(userId));
    assert mine == [r] + mineT;
    Seqs.FilterCons(r, mineT, IsCompleted());
    assert done == [r] + doneT;
    Seqs.FilterCons(r, doneT, HasRating());
    Seqs.SumCons(r, doneT, DurationOrZero());
    if HasRating()(r) {
      assert rated == [r] + ratedT;
      Seqs.SumCons(r, ratedT, RatingOrZero());
      CompletedRatedContribution(r, userId);
    } else {
      assert rated == ratedT;
      CompletedUnratedContribution(r, userId);
    }
  }

  lemma CompletedRatedContribution(r: LearningSession, userId: string)
    requires r.userId == userId && r.status == Completed && HasRating()(r)
    ensures RowStats(r, userId) == SessionStats(1, DurationOrZero()(r), RatingOrZero()(r), 1, 1)
  {
  }

  lemma CompletedUnratedContribution(r: LearningSession, userId: string)
    requires r.userId == userId && r.status == Completed && !HasRating()(r)
    ensures RowStats(r, userId) == SessionStats(1, DurationOrZero()(r), 0, 0, 1)
  {
  }

  lemma RowwiseSingle(s: LearningSession, userId: string)
    ensures RowwiseStats([s], userId) == RowStats(s, userId)
  {
    var one := [s];
    assert one[0] == s && one[1..] == [];
    assert RowwiseStats(one[1..], userId) == NoStats;
    PlusZero(RowStats(s, userId));
  }

  lemma PlusZero(x: SessionStats)
    ensures Plus(x, NoStats) == x
  {
  }

  /** Statistics over two batches of rows add up. */
  lemma StatsAppend(a: seq<LearningSession>, b: seq<LearningSession>, userId: string)
    ensures GetSessionStats(a + b, userId, false)
            == Plus(GetSessionStats(a, userId, false), GetSessionStats(b, userId, false))
  {
    StatsAreRowwise(a + b, userId);
    StatsAreRowwise(a, userId);
    StatsAreRowwise(b, userId);
    RowwiseAppend(a, b, userId);
  }

  /** Appending one row adds that row's contribution. */
  lemma StatsAppendRow(rows: seq<LearningSession>, s: LearningSession, userId: string)
    ensures GetSessionStats(rows + [s], userId, false) == Plus(GetSessionStats(rows, userId, false), RowStats(s, userId))
  {
    StatsAreRowwise(rows + [s], userId);
    StatsAreRowwise(rows, userId);
    RowwiseAppend(rows, [s], userId);
    RowwiseSingle(s, userId);
  }

  /** A completed session rated 0 counts as completed but not towards the rating average. */
  lemma ZeroRatingIsIgnored(rows: seq<LearningSession>, s: LearningSession)
    requires s.status == Completed && s.rating == Some(0)
    ensures var before := GetSessionStats(rows, s.userId, false);
            var after := GetSessionStats(rows + [s], s.userId, false);
            after.ratingCount == before.ratingCount && after.ratingSum == before.ratingSum
            && after.completedSessions == before.completedSessions + 1
            && after.totalSessions == before.totalSessions + 1
  {
    StatsAppendRow(rows, s, s.userId);
  }

  /** A session that is not completed adds to `totalSessions` only. */
  lemma UnfinishedSessionCountsOnlyInTotal(rows: seq<LearningSession>, s: LearningSession)
    requires s.status != Completed
    ensures var before := GetSessionStats(rows, s.userId, false);
            GetSessionStats(rows + [s], s.userId, false)
            == before.(totalSessions := before.totalSessions + 1)
  {
    StatsAppendRow(rows, s, s.userId);
  }

  /** Rows of other users do not affect a user's statistics. */
  lemma OtherUsersRowsIgnored(rows: seq<LearningSession>, s: LearningSession, userId: string)
    requires s.userId != userId
    ensures GetSessionStats(rows + [s], userId, false) == GetSessionStats(rows, userId, false)
  {
    StatsAppendRow(rows, s, userId);
  }

  /** Replacing one row changes the row-by-row sum by that row's difference. */
  lemma {:induction false} RowwiseReplace(rows: seq<LearningSession>, k: nat, x: LearningSession, userId: string)
    requires k < |rows|
    ensures Plus(RowwiseStats(rows[k := x], userId), RowStats(rows[k], userId))
            == Plus(RowwiseStats(rows, userId), RowStats(x, userId))
  {
    var after := rows[k := x];
    if k > 0 {
      var tail := rows[1..];
      assert after[0] == rows[0] && after[1..] == tail[k - 1 := x];
      RowwiseReplace(tail, k - 1, x, userId);
      PlusShift(RowStats(rows[0], userId), RowwiseStats(tail[k - 1 := x], userId), RowStats(rows[k], userId),
                RowwiseStats(tail, userId), RowStats(x, userId));
    } else {
      assert after[1..] == rows[1..];
      PlusSwap(RowwiseStats(rows[1..], userId), RowStats(rows[0], userId), RowStats(x, userId));
    }
  }

  lemma PlusShift(a: SessionStats, b: SessionStats, c: SessionStats, d: SessionStats, e: SessionStats)
    requires Plus(b, c) == Plus(d, e)
    ensures Plus(Plus(a, b), c) == Plus(Plus(a, d), e)
  {
  }

  lemma PlusSwap(t: SessionStats, old0: SessionStats, new0: SessionStats)
    ensures Plus(Plus(new0, t), old0) == Plus(Plus(old0, t), new0)
  {
  }

  /** Completing one of the user's unfinished sessions adds exactly one completed session. */
  lemma CompletingCountsOnce(rows: seq<LearningSession>, id: string, c: Completion, now: TimeValue, k: nat)
    requires k < |rows| && rows[k].id == id && rows[k].status != Completed
    requires CompleteRows(rows, id, c, now).Some?
    ensures var userId := rows[k].userId;
            var before := GetSessionStats(rows, userId, false);
            var after := GetSessionStats(CompleteRows(rows, id, c, now).value.0, userId, false);
            after.completedSessions == before.completedSessions + 1
            && after.totalSessions == before.totalSessions
  {
    var userId := rows[k].userId;
    var patch := CompletionPatch(c, now);
    assert WithId(id)(rows[k]);
    Seqs.UpdateSingleAt(rows, WithId(id), Patcher(patch, now), k);
    var x := ApplyPatch(rows[k], patch, now);
    assert CompleteRows(rows, id, c, now).value.0 == rows[k := x];
    RowwiseReplace(rows, k, x, userId);
    StatsAreRowwise(rows, userId);
    StatsAreRowwise(rows[k := x], userId);
  }

  /** A new session is pending and appears under its id afterwards. */
  lemma CreatedSessionIsPending(rows: seq<LearningSession>, data: CreateLearningSessionData, newId: string, now: TimeValue)
    requires InsertSession(rows, data, newId, now).Some?
    ensures var s := InsertSession(rows, data, newId, now).value;
            s.status == Pending && s.startedAt == now
            && Seqs.FindSingle(rows + [s], WithId(newId)) == Some(s)
  {
    var s := InsertSession(rows, data, newId, now).value;
    Seqs.CountAppend(rows, [s], WithId(newId));
    assert [s][1..] == [];
    Seqs.UpdateSingleAt(rows + [s], WithId(newId), Patcher(SessionPatch(None, None, None, None, None, None, None), now), |rows|);
  }

  /** The `learning_sessions` table. */
  class LearningSessionTable {
    var rows: seq<LearningSession>

    constructor (initial: seq<LearningSession>)
      ensures rows == initial
    {
      rows := initial;
    }

    /** `getSessionById`: the row with that id, or null. */
    function GetSessionById(id: string): (r: Option<LearningSession>)
      reads this
      ensures r.Some? ==> r.value in rows && r.value.id == id
      ensures r.None? <==> Seqs.Count(rows, WithId(id)) != 1
    {
      Seqs.FindSingle(rows, WithId(id))
    }

    function GetSessionStatsFor(userId: string, fault: bool): (st: SessionStats)
      reads this
      ensures !fault ==> st == RowwiseStats(rows, userId)
      ensures fault ==> st == NoStats
    {
      StatsAreRowwise(rows, userId);
      GetSessionStats(rows, userId, fault)
    }

    /** `createSession`: appends a pending row, or returns null and changes nothing. */
    method CreateSession(data: CreateLearningSessionData, newId: string, now: TimeValue) returns (r: Option<LearningSession>)
      modifies this
      ensures r == InsertSession(old(rows), data, newId, now)
      ensures rows == if r.Some? then old(rows) + [r.value] else old(rows)
    {
      r := InsertSession(rows, data, newId, now);
      if r.Some? {
        rows := rows + [r.value];
      }
    }

    /** `updateSession`. */
    method UpdateSession(id: string, patch: SessionPatch, now: TimeValue) returns (r: Option<LearningSession>)
      modifies this
      ensures var u := UpdateRows(old(rows), id, patch, now);
              (u.Some? ==> r == Some(u.value.1) && rows == u.value.0)
              && (u.None? ==> r.None? && rows == old(rows))
    {
      var u := UpdateRows(rows, id, patch, now);
      if u.Some? {
        rows := u.value.0;
        r := Some(u.value.1);
      } else {
        r := None;
      }
    }

    /** `completeSession`. */
    method CompleteSession(id: string, c: Completion, now: TimeValue) returns (r: Option<LearningSession>)
      modifies this
      ensures var u := CompleteRows(old(rows), id, c, now);
              (u.Some? ==> r == Some(u.value.1) && rows == u.value.0)
              && (u.None? ==> r.None? && rows == old(rows))
    {
      r := UpdateSession(id, CompletionPatch(c, now), now);
    }
  }
}
