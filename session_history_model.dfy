/** The `session_history` table and its statistics (models/SessionHistory.ts). */
module SessionHistoryModel {
  import opened Wrappers
  import opened Time
  import Seqs

  /** A stored `SessionHistory` row; `duration` is nullable in the table, hence the `|| 0` when summing. */
  datatype SessionRecord = SessionRecord(
    id: string,
    userId: string,
    companionId: string,
    duration: Option<int>,
    completedAt: TimeValue,
    feedback: Option<string>,
    rating: Option<int>)

  /** `Omit<SessionHistory, 'id' | 'completedAt'>`: what the caller of `createSession` supplies. */
  datatype NewRecord = NewRecord(
    userId: string,
    companionId: string,
    duration: int,
    feedback: Option<string>,
    rating: Option<int>)

  /** The fields a `Partial<SessionHistory>` update may carry: `None` is a field left out. */
  datatype RecordPatch = RecordPatch(
    duration: Option<int>,
    feedback: Option<string>,
    rating: Option<int>)

  function WithId(id: string): SessionRecord -> bool
  {
    (s: SessionRecord) => s.id == id
  }

  function OwnedBy(userId: string): SessionRecord -> bool
  {
    (s: SessionRecord) => s.userId == userId
  }

  /** `createSession`: the caller's fields, with `completedAt` stamped now. */
  function NewSession(data: NewRecord, newId: string, now: TimeValue): (s: SessionRecord)
    ensures s.id == newId && s.completedAt == now
    ensures s.userId == data.userId && s.companionId == data.companionId && s.duration == Some(data.duration)
    ensures s.feedback == data.feedback && s.rating == data.rating
  {
    SessionRecord(newId, data.userId, data.companionId, Some(data.duration), now, data.feedback, data.rating)
  }

  /** The insert fails, and `createSession` returns null, when the new id is already taken. */
  function InsertSession(rows: seq<SessionRecord>, data: NewRecord, newId: string, now: TimeValue): (r: Option<SessionRecord>)
    ensures r.Some? <==> Seqs.Count(rows, WithId(newId)) == 0
    ensures r.Some? ==> r.value == NewSession(data, newId, now)
  {
    if Seqs.Count(rows, WithId(newId)) == 0 then Some(NewSession(data, newId, now)) else None
  }

  /** `.update(updates)`: nothing is stamped. */
  function ApplyPatch(s: SessionRecord, patch: RecordPatch): (r: SessionRecord)
    ensures r.id == s.id && r.userId == s.userId && r.companionId == s.companionId && r.completedAt == s.completedAt
    ensures r.duration == (if patch.duration.Some? then patch.duration else s.duration)
    ensures r.feedback == (if patch.feedback.Some? then patch.feedback else s.feedback)
    ensures r.rating == (if patch.rating.Some? then patch.rating else s.rating)
  {
    s.(duration := if patch.duration.Some? then patch.duration else s.duration,
       feedback := if patch.feedback.Some? then patch.feedback else s.feedback,
       rating := if patch.rating.Some? then patch.rating else s.rating)
  }

  function Patcher(patch: RecordPatch): SessionRecord -> SessionRecord
  {
    (s: SessionRecord) => ApplyPatch(s, patch)
  }

  /** `updateSession`: the table after the update and the updated row, or null. */
  function UpdateRows(rows: seq<SessionRecord>, id: string, patch: RecordPatch): (r: Option<(seq<SessionRecord>, SessionRecord)>)
    ensures r.Some? <==> Seqs.Count(rows, WithId(id)) == 1
    ensures r.Some? ==>
              |r.value.0| == |rows|
              && forall j :: 0 <= j < |rows| ==>
                   r.value.0[j] == (if rows[j].id == id then ApplyPatch(rows[j], patch) else rows[j])
    ensures r.Some? ==> exists j :: 0 <= j < |rows| && rows[j].id == id && r.value.1 == ApplyPatch(rows[j], patch)
  {
    Seqs.UpdateSingle(rows, WithId(id), Patcher(patch))
  }

  /** The statistics object: `averageRating` is `ratingSum / ratingCount`, or 0 when `ratingCount` is 0. */
  datatype HistoryStats = HistoryStats(totalSessions: nat, totalDuration: int, ratingSum: int, ratingCount: nat)

  const NoStats := HistoryStats(0, 0, 0, 0)

  function Plus(a: HistoryStats, b: HistoryStats): HistoryStats
  {
    HistoryStats(a.totalSessions + b.totalSessions, a.totalDuration + b.totalDuration,
                 a.ratingSum + b.ratingSum, a.ratingCount + b.ratingCount)
  }

  /** `session.rating !== null`: a stored rating of 0 counts. */
  function HasRating(): SessionRecord -> bool
  {
    (s: SessionRecord) => s.rating.Some?
  }

  /** `session.duration || 0`. */
  function DurationOrZero(): SessionRecord -> int
  {
    (s: SessionRecord) => if s.duration.Some? then s.duration.value else 0
  }

  function RatingOrZero(): SessionRecord -> int
  {
    (s: SessionRecord) => if s.rating.Some? then s.rating.value else 0
  }

  /**
   * `getUserSessionStats`: over all of the user's rows, whatever they hold, the count, the
   * duration total and the average of the non-null ratings. A failed query (`fault`) gives zeros.
   */
  function GetUserSessionStats(rows: seq<SessionRecord>, userId: string, fault: bool): (st: HistoryStats)
    ensures fault ==> st == NoStats
    ensures st.ratingCount <= st.totalSessions <= |rows|
  {
    if fault then NoStats
    else
      var sessions := Seqs.Filter(rows, OwnedBy(userId));
      var rated := Seqs.Filter(sessions, HasRating());
      HistoryStats(|sessions|, Seqs.Sum(sessions, DurationOrZero()), Seqs.Sum(rated, RatingOrZero()), |rated|)
  }

  /** What one row adds to the statistics of its owner: the reference definition of the aggregate. */
  function RowStats(s: SessionRecord, userId: string): HistoryStats
  {
    if s.userId != userId then NoStats
    else if s.rating.Some? then HistoryStats(1, DurationOrZero()(s), s.rating.value, 1)
    else HistoryStats(1, DurationOrZero()(s), 0, 0)
  }

  /** The statistics as a row-by-row sum. */
  function RowwiseStats(rows: seq<SessionRecord>, userId: string): (st: HistoryStats)
    ensures st.ratingCount <= st.totalSessions <= |rows|
  {
    if |rows| == 0 then NoStats else Plus(RowStats(rows[0], userId), RowwiseStats(rows[1..], userId))
  }

  /** The pipeline over one more row adds that row's contribution. */
  lemma StatsCons(r: SessionRecord, tail: seq<SessionRecord>, userId: string)
    ensures GetUserSessionStats([r] + tail, userId, false) == Plus(RowStats(r, userId), GetUserSessionStats(tail, userId, false))
  {
    Seqs.FilterCons(r, tail, OwnedBy(userId));
    if r.userId != userId {
      assert Seqs.Filter([r] + tail, OwnedBy(userId)) == Seqs.Filter(tail, OwnedBy(userId));
      PlusNothing(GetUserSessionStats(tail, userId, false));
    } else {
      StatsConsOwn(r, tail, userId);
    }
  }

  /** One more row of the user counts once, with its duration and, unless null, its rating. */
  lemma StatsConsOwn(r: SessionRecord, tail: seq<SessionRecord>, userId: string)
    requires r.userId == userId
    ensures GetUserSessionStats([r] + tail, userId, false) == Plus(RowStats(r, userId), GetUserSessionStats(tail, userId, false))
  {
    var mineT := Seqs.Filter(tail, OwnedBy(userId));
    var ratedT := Seqs.Filter(mineT, HasRating());
    var mine := Seqs.Filter([r] + tail, OwnedBy(userId));
    Seqs.FilterCons(r, tail, OwnedBy(userId));
    assert mine == [r] + mineT;
    Seqs.FilterCons(r, mineT, HasRating());
    Seqs.SumCons(r, mineT, DurationOrZero());
    if r.rating.Some? {
      assert Seqs.Filter(mine, HasRating()) == [r] + ratedT;
      Seqs.SumCons(r, ratedT, RatingOrZero());
    } else {
      assert Seqs.Filter(mine, HasRating()) == ratedT;
    }
  }

  /** The source's filter/reduce pipeline computes exactly the row-by-row sum. */
  lemma {:induction false} StatsAreRowwise(rows: seq<SessionRecord>, userId: string)
    ensures GetUserSessionStats(rows, userId, false) == RowwiseStats(rows, userId)
  {
    if |rows| > 0 {
      assert rows == [rows[0]] + rows[1..];
      StatsAreRowwise(rows[1..], userId);
      StatsCons(rows[0], rows[1..], userId);
    }
  }

  lemma RowwiseSingle(s: SessionRecord, userId: string)
    ensures RowwiseStats([s], userId) == RowStats(s, userId)
  {
    var one := [s];
    assert one[0] == s && one[1..] == [];
    assert RowwiseStats(one[1..], userId) == NoStats;
    PlusZero(RowStats(s, userId));
  }

  lemma PlusZero(x: HistoryStats)
    ensures Plus(x, NoStats) == x
  {
  }

  /** Appending one row adds that row's contribution. */
  lemma StatsAppendRow(rows: seq<SessionRecord>, s: SessionRecord, userId: string)
    ensures GetUserSessionStats(rows + [s], userId, false) == Plus(GetUserSessionStats(rows, userId, false), RowStats(s, userId))
  {
    StatsAreRowwise(rows + [s], userId);
    StatsAreRowwise(rows, userId);
    RowwiseAppend(rows, [s], userId);
    RowwiseSingle(s, userId);
  }

  lemma PlusAssociative(x: HistoryStats, y: HistoryStats, z: HistoryStats)
    ensures Plus(x, Plus(y, z)) == Plus(Plus(x, y), z)
  {
  }

  lemma PlusNothing(x: HistoryStats)
    ensures Plus(NoStats, x) == x
  {
  }

  lemma {:induction false} RowwiseAppend(a: seq<SessionRecord>, b: seq<SessionRecord>, userId: string)
    ensures RowwiseStats(a + b, userId) == Plus(RowwiseStats(a, userId), RowwiseStats(b, userId))
  {
    if |a| > 0 {
      var h := RowStats(a[0], userId);
      assert (a + b)[0] == a[0] && (a + b)[1..] == a[1..] + b;
      calc {
        RowwiseStats(a + b, userId);
        Plus(h, RowwiseStats(a[1..] + b, userId));
        { RowwiseAppend(a[1..], b, userId); }
        Plus(h, Plus(RowwiseStats(a[1..], userId), RowwiseStats(b, userId)));
        { PlusAssociative(h, RowwiseStats(a[1..], userId), RowwiseStats(b, userId)); }
        Plus(Plus(h, RowwiseStats(a[1..], userId)), RowwiseStats(b, userId));
        Plus(RowwiseStats(a, userId), RowwiseStats(b, userId));
      }
    } else {
      assert a + b == b;
      PlusNothing(RowwiseStats(b, userId));
    }
  }

  /** Every row of the user counts, with its duration (or 0) and, unless null, its rating, 0 included. */
  lemma RecordedSessionCounts(rows: seq<SessionRecord>, s: SessionRecord)
    ensures var before := GetUserSessionStats(rows, s.userId, false);
            var after := GetUserSessionStats(rows + [s], s.userId, false);
            after.totalSessions == before.totalSessions + 1
            && after.totalDuration == before.totalDuration + (if s.duration.Some? then s.duration.value else 0)
            && (s.rating.Some? ==> after.ratingCount == before.ratingCount + 1
                                   && after.ratingSum == before.ratingSum + s.rating.value)
            && (s.rating.None? ==> after.ratingCount == before.ratingCount && after.ratingSum == before.ratingSum)
  {
    StatsAppendRow(rows, s, s.userId);
  }

  /** Rows of other users do not affect a user's statistics. */
  lemma OtherUsersRowsIgnored(rows: seq<SessionRecord>, s: SessionRecord, userId: string)
    requires s.userId != userId
    ensures GetUserSessionStats(rows + [s], userId, false) == GetUserSessionStats(rows, userId, false)
  {
    StatsAppendRow(rows, s, userId);
  }

  /** `createSession` adds the recorded duration to its user's total. */
  lemma CreateAddsDuration(rows: seq<SessionRecord>, data: NewRecord, newId: string, now: TimeValue)
    requires InsertSession(rows, data, newId, now).Some?
    ensures var after := rows + [InsertSession(rows, data, newId, now).value];
            GetUserSessionStats(after, data.userId, false).totalDuration
            == GetUserSessionStats(rows, data.userId, false).totalDuration + data.duration
  {
    RecordedSessionCounts(rows, NewSession(data, newId, now));
  }

  /** The `session_history` table. */
  class SessionHistoryTable {
    var rows: seq<SessionRecord>

    constructor (initial: seq<SessionRecord>)
      ensures rows == initial
    {
      rows := initial;
    }

    /** `getSessionById`: the row with that id, or null. */
    function GetSessionById(id: string): (r: Option<SessionRecord>)
      reads this
      ensures r.Some? ==> r.value in rows && r.value.id == id
      ensures r.None? <==> Seqs.Count(rows, WithId(id)) != 1
    {
      Seqs.FindSingle(rows, WithId(id))
    }

    function GetUserSessionStatsFor(userId: string, fault: bool): (st: HistoryStats)
      reads this
      ensures !fault ==> st == RowwiseStats(rows, userId)
      ensures fault ==> st == NoStats
    {
      StatsAreRowwise(rows, userId);
      GetUserSessionStats(rows, userId, fault)
    }

    /** `createSession`: appends the row stamped now, or returns null and changes nothing. */
    method CreateSession(data: NewRecord, newId: string, now: TimeValue) returns (r: Option<SessionRecord>)
      modifies this
      ensures r == InsertSession(old(rows), data, newId, now)
      ensures rows == if r.Some? then old(rows) + [r.value] else old(rows)
    {
      r := InsertSession(rows, data, newId, now);
      if r.Some? {
        rows := rows + [r.value];
      }
    }

    /** `updateSession`. */
    method UpdateSession(id: string, patch: RecordPatch) returns (r: Option<SessionRecord>)
      modifies this
      ensures var u := UpdateRows(old(rows), id, patch);
              (u.Some? ==> r == Some(u.value.1) && rows == u.value.0)
              && (u.None? ==> r.None? && rows == old(rows))
    {
      var u := UpdateRows(rows, id, patch);
      if u.Some? {
        rows := u.value.0;
        r := Some(u.value.1);
      } else {
        r := None;
      }
    }
  }
}
