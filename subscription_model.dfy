/** The `user_subscriptions` table and the tier and usage rules over it (models/Subscription.ts). */
module SubscriptionModel {
  import opened Wrappers
  import opened Time
  import opened SubscriptionPlans
  import Seqs

  /** A stored `UserSubscription` row; `createdAt`/`updatedAt` are set by the database and left out. */
  datatype Subscription = Subscription(
    id: string,
    userId: string,
    planId: string,
    tier: Tier,
    status: Option<string>,
    currentPeriodStart: TimeValue,
    currentPeriodEnd: TimeValue,
    cancelAtPeriodEnd: bool,
    stripeCustomerId: Option<string>,
    stripeSubscriptionId: Option<string>)

  /** The argument of `createUserSubscription`: a row without its database-assigned fields. */
  datatype NewSubscription = NewSubscription(
    userId: string,
    planId: string,
    tier: Tier,
    status: Option<string>,
    currentPeriodStart: Instant,
    currentPeriodEnd: Instant,
    cancelAtPeriodEnd: bool,
    stripeCustomerId: Option<string>,
    stripeSubscriptionId: Option<string>)

  /** A `Partial<UserSubscription>`: `None` is a field the caller did not supply. */
  datatype SubscriptionPatch = SubscriptionPatch(
    planId: Option<string>,
    tier: Option<Tier>,
    status: Option<string>,
    currentPeriodStart: Option<Instant>,
    currentPeriodEnd: Option<Instant>,
    cancelAtPeriodEnd: Option<bool>,
    stripeCustomerId: Option<string>,
    stripeSubscriptionId: Option<string>)

  /** Why a store operation throws. */
  datatype StoreError =
    | InvalidTimeValue   // `toISOString` on an invalid date (a RangeError)
    | NotSingleRow       // `.single()` did not see exactly one row (PGRST116)
    | DuplicateId        // the insert collides with an existing primary key

  predicate IsActiveFor(row: Subscription, userId: string)
  {
    row.userId == userId && row.status == Some("active")
  }

  function ActiveFor(userId: string): Subscription -> bool
  {
    (row: Subscription) => IsActiveFor(row, userId)
  }

  function WithId(id: string): Subscription -> bool
  {
    (row: Subscription) => row.id == id
  }

  /**
   * `getUserSubscription`: `.eq(userId).eq(status, "active").single()`. PGRST116, reported
   * when the filter matches no row or several, becomes null.
   */
  function ActiveSubscription(rows: seq<Subscription>, userId: string): (r: Option<Subscription>)
    ensures r.Some? <==> Seqs.Count(rows, ActiveFor(userId)) == 1
    ensures r.Some? ==> r.value in rows && IsActiveFor(r.value, userId)
    ensures r.Some? ==> forall j :: 0 <= j < |rows| && IsActiveFor(rows[j], userId) ==> rows[j] == r.value
  {
    if Seqs.Count(rows, ActiveFor(userId)) == 1 then
      var k := Seqs.FirstIndex(rows, ActiveFor(userId));
      assert k < |rows|;
      assert forall j :: 0 <= j < |rows| && IsActiveFor(rows[j], userId) ==> j == k by {
        forall j | 0 <= j < |rows| && IsActiveFor(rows[j], userId) ensures j == k {
          assert ActiveFor(userId)(rows[j]);
          Seqs.CountOneIsFirst(rows, ActiveFor(userId), j);
        }
      }
      Some(rows[k])
    else
      assert Seqs.Count(rows, ActiveFor(userId)) != 0 ==> Seqs.FirstIndex(rows, ActiveFor(userId)) < |rows|;
      None
  }

  /**
   * `getUserTier`: FREE without an active subscription, once `now` is past the period end,
   * or when the lookup throws (`fault`); the stored tier otherwise.
   */
  function TierOf(subscription: Option<Subscription>, now: TimeValue, fault: bool): (t: Tier)
    ensures fault || subscription.None? ==> t == Free
    ensures subscription.Some? && subscription.value.status != Some("active") ==> t == Free
    ensures !fault && subscription.Some? && now > subscription.value.currentPeriodEnd ==> t == Free
    ensures (!fault && subscription.Some? && subscription.value.status == Some("active")
             && now <= subscription.value.currentPeriodEnd) ==> t == subscription.value.tier
  {
    if fault then Free
    else if subscription.None? || subscription.value.status != Some("active") then Free
    else if now > subscription.value.currentPeriodEnd then Free
    else subscription.value.tier
  }

  /** `getUserTier` over the table. */
  function GetUserTier(rows: seq<Subscription>, userId: string, now: TimeValue, fault: bool): (t: Tier)
    ensures t != Free ==> !fault && exists row :: row in rows && IsActiveFor(row, userId)
                                                 && now <= row.currentPeriodEnd && row.tier == t
    ensures Seqs.Count(rows, ActiveFor(userId)) != 1 ==> t == Free
    ensures ActiveSubscription(rows, userId).Some? && !fault && now <= ActiveSubscription(rows, userId).value.currentPeriodEnd ==>
              t == ActiveSubscription(rows, userId).value.tier
  {
    TierOf(ActiveSubscription(rows, userId), now, fault)
  }

  /** `getCompanionLimit`: FREE 3, BASIC 15, PRO and ENTERPRISE unlimited (-1), anything else 3. */
  function CompanionLimit(t: Tier): (n: int)
    ensures n == -1 <==> t == Pro || t == Enterprise
    ensures n != -1 ==> n > 0
  {
    match t
    case Free => 3
    case Basic => 15
    case Pro => -1
    case Enterprise => -1
    case Unlisted(_) => 3
  }

  /** `getSessionLimit`: FREE 10, BASIC 100, PRO and ENTERPRISE unlimited (-1), anything else 10. */
  function SessionLimit(t: Tier): (n: int)
    ensures n == -1 <==> t == Pro || t == Enterprise
    ensures n != -1 ==> n > 0
  {
    match t
    case Free => 10
    case Basic => 100
    case Pro => -1
    case Enterprise => -1
    case Unlisted(_) => 10
  }

  /** The model's limit table agrees with the catalog's `COMPANION_LIMITS`/`SESSION_LIMITS` on every listed tier. */
  lemma LimitsMatchCatalogTables(t: Tier)
    requires !t.Unlisted?
    ensures CompanionLimits(t) == Some(CompanionLimit(t)) && SessionLimits(t) == Some(SessionLimit(t))
  {
  }

  /** `UsageStats`. */
  datatype UsageStats = UsageStats(
    companionsUsed: int,
    companionLimit: int,
    sessionsUsed: int,
    sessionLimit: int,
    canCreateCompanion: bool,
    canStartSession: bool)

  /** The reply to a `count: "exact"` query: a count that may be null, or an error. */
  datatype CountReply = Counted(count: Option<nat>) | CountFailed

  /** The snapshot returned when counting fails. */
  const SafeDefaults := UsageStats(0, 3, 0, 10, true, true)

  /** Room left under a limit, where -1 means unlimited. */
  predicate WithinLimit(used: int, limit: int)
  {
    limit == -1 || used < limit
  }

  /** `count || 0`. */
  function CountValue(c: Option<nat>): (n: nat)
    ensures c.Some? ==> n == c.value
    ensures c.None? ==> n == 0
  {
    if c.Some? then c.value else 0
  }

  /**
   * The usage snapshot for the given limits: counts as reported (null counted as 0) with the
   * flags `limit == -1 || used < limit`; the fixed permissive defaults when a count fails.
   */
  function Usage(companions: CountReply, sessions: CountReply, companionLimit: int, sessionLimit: int): (u: UsageStats)
    ensures companions.CountFailed? || sessions.CountFailed? ==> u == SafeDefaults
    ensures companions.Counted? && sessions.Counted? ==>
              u.companionsUsed == CountValue(companions.count) && u.sessionsUsed == CountValue(sessions.count)
              && u.companionLimit == companionLimit && u.sessionLimit == sessionLimit
    ensures u.canCreateCompanion <==> WithinLimit(u.companionsUsed, u.companionLimit)
    ensures u.canStartSession <==> WithinLimit(u.sessionsUsed, u.sessionLimit)
  {
    if companions.CountFailed? || sessions.CountFailed? then SafeDefaults
    else
      var c := CountValue(companions.count);
      var s := CountValue(sessions.count);
      UsageStats(c, companionLimit, s, sessionLimit, WithinLimit(c, companionLimit), WithinLimit(s, sessionLimit))
  }

  /** `getUserUsageStats`: the usage snapshot under the model's own limit table. */
  function GetUserUsageStats(rows: seq<Subscription>, userId: string, now: TimeValue, tierFault: bool,
                             companions: CountReply, sessions: CountReply): (u: UsageStats)
    ensures companions.Counted? && sessions.Counted? ==>
              var t := GetUserTier(rows, userId, now, tierFault);
              u.companionLimit == CompanionLimit(t) && u.sessionLimit == SessionLimit(t)
    ensures companions.CountFailed? || sessions.CountFailed? ==> u == SafeDefaults
  {
    var t := GetUserTier(rows, userId, now, tierFault);
    Usage(companions, sessions, CompanionLimit(t), SessionLimit(t))
  }

  /** The row `createUserSubscription` stores: each supplied field as given, the dates ISO-serialised. */
  function NewRow(fields: NewSubscription, newId: string): (r: Result<Subscription, StoreError>)
    ensures r.Err? <==> fields.currentPeriodStart.InvalidDate? || fields.currentPeriodEnd.InvalidDate?
    ensures r.Err? ==> r.error == InvalidTimeValue
    ensures r.Ok? ==>
              var row := r.value;
              row.id == newId && row.userId == fields.userId && row.planId == fields.planId
              && row.tier == fields.tier && row.status == fields.status
              && At(row.currentPeriodStart) == fields.currentPeriodStart
              && At(row.currentPeriodEnd) == fields.currentPeriodEnd
              && row.cancelAtPeriodEnd == fields.cancelAtPeriodEnd
              && row.stripeCustomerId == fields.stripeCustomerId
              && row.stripeSubscriptionId == fields.stripeSubscriptionId
  {
    if fields.currentPeriodStart.InvalidDate? || fields.currentPeriodEnd.InvalidDate? then Err(InvalidTimeValue)
    else
      Ok(Subscription(newId, fields.userId, fields.planId, fields.tier, fields.status,
                      fields.currentPeriodStart.ms, fields.currentPeriodEnd.ms, fields.cancelAtPeriodEnd,
                      fields.stripeCustomerId, fields.stripeSubscriptionId))
  }

  /** The outcome of inserting `fields` under `newId`: also fails when the id is taken. */
  function InsertRow(rows: seq<Subscription>, fields: NewSubscription, newId: string): (r: Result<Subscription, StoreError>)
    ensures r.Ok? ==> r == NewRow(fields, newId) && forall row :: row in rows ==> row.id != newId
    ensures NewRow(fields, newId).Err? ==> r == NewRow(fields, newId)
    ensures NewRow(fields, newId).Ok? && (exists row :: row in rows && row.id == newId) ==> r == Err(DuplicateId)
    ensures NewRow(fields, newId).Ok? && Seqs.Count(rows, WithId(newId)) == 0 ==> r == NewRow(fields, newId)
  {
    var row := NewRow(fields, newId);
    if row.Err? then row
    else if Seqs.Count(rows, WithId(newId)) != 0 then
      var k := Seqs.FirstIndex(rows, WithId(newId));
      assert k < |rows|;
      Err(DuplicateId)
    else
      assert forall row :: row in rows ==> row.id != newId by {
        forall row | row in rows ensures row.id != newId {
          var j :| 0 <= j < |rows| && rows[j] == row;
          assert !WithId(newId)(rows[j]);
        }
      }
      row
  }

  /** Whether a patch holds a date `toISOString` rejects. */
  predicate HasInvalidDate(patch: SubscriptionPatch)
  {
    (patch.currentPeriodStart.Some? && patch.currentPeriodStart.value.InvalidDate?)
    || (patch.currentPeriodEnd.Some? && patch.currentPeriodEnd.value.InvalidDate?)
  }

  function PatchDate(stored: TimeValue, supplied: Option<Instant>): TimeValue
  {
    if supplied.Some? && supplied.value.At? then supplied.value.ms else stored
  }

  /** The row after `{ ...updates }` is written over it. */
  function ApplyPatch(row: Subscription, patch: SubscriptionPatch): (r: Subscription)
    requires !HasInvalidDate(patch)
    ensures r.id == row.id && r.userId == row.userId
    ensures r.planId == (if patch.planId.Some? then patch.planId.value else row.planId)
    ensures r.tier == (if patch.tier.Some? then patch.tier.value else row.tier)
    ensures r.status == (if patch.status.Some? then patch.status else row.status)
    ensures At(r.currentPeriodStart) == (if patch.currentPeriodStart.Some? then patch.currentPeriodStart.value else At(row.currentPeriodStart))
    ensures At(r.currentPeriodEnd) == (if patch.currentPeriodEnd.Some? then patch.currentPeriodEnd.value else At(row.currentPeriodEnd))
    ensures r.cancelAtPeriodEnd == (if patch.cancelAtPeriodEnd.Some? then patch.cancelAtPeriodEnd.value else row.cancelAtPeriodEnd)
    ensures r.stripeCustomerId == (if patch.stripeCustomerId.Some? then patch.stripeCustomerId else row.stripeCustomerId)
    ensures r.stripeSubscriptionId == (if patch.stripeSubscriptionId.Some? then patch.stripeSubscriptionId else row.stripeSubscriptionId)
  {
    row.(
      planId := if patch.planId.Some? then patch.planId.value else row.planId,
      tier := if patch.tier.Some? then patch.tier.value else row.tier,
      status := if patch.status.Some? then patch.status else row.status,
      currentPeriodStart := PatchDate(row.currentPeriodStart, patch.currentPeriodStart),
      currentPeriodEnd := PatchDate(row.currentPeriodEnd, patch.currentPeriodEnd),
      cancelAtPeriodEnd := if patch.cancelAtPeriodEnd.Some? then patch.cancelAtPeriodEnd.value else row.cancelAtPeriodEnd,
      stripeCustomerId := if patch.stripeCustomerId.Some? then patch.stripeCustomerId else row.stripeCustomerId,
      stripeSubscriptionId := if patch.stripeSubscriptionId.Some? then patch.stripeSubscriptionId else row.stripeSubscriptionId)
  }

  /** The patch that supplies nothing. */
  const EmptyPatch := SubscriptionPatch(None, None, None, None, None, None, None, None)

  /** A patch that supplies no field leaves a row as it was. */
  lemma EmptyPatchIsIdentity(row: Subscription)
    ensures ApplyPatch(row, EmptyPatch) == row
  {
  }

  /** The updated table and row of `updateUserSubscription`: exactly one row must have the id. */
  function UpdateRows(rows: seq<Subscription>, id: string, patch: SubscriptionPatch): (r: Result<(seq<Subscription>, Subscription), StoreError>)
    ensures HasInvalidDate(patch) ==> r == Err(InvalidTimeValue)
    ensures !HasInvalidDate(patch) && Seqs.Count(rows, WithId(id)) != 1 ==> r == Err(NotSingleRow)
    ensures r.Ok? ==>
              (Seqs.Count(rows, WithId(id)) == 1 && |r.value.0| == |rows|
               && forall j :: 0 <= j < |rows| ==>
                    r.value.0[j] == (if rows[j].id == id then ApplyPatch(rows[j], patch) else rows[j]))
    ensures r.Ok? ==> r.value.1 in r.value.0 && exists j :: 0 <= j < |rows| && rows[j].id == id && r.value.1 == ApplyPatch(rows[j], patch)
  {
    if HasInvalidDate(patch) then Err(InvalidTimeValue)
    else if Seqs.Count(rows, WithId(id)) != 1 then Err(NotSingleRow)
    else
      var k := Seqs.FirstIndex(rows, WithId(id));
      assert k < |rows|;
      forall j | 0 <= j < |rows| && rows[j].id == id ensures j == k {
        assert WithId(id)(rows[j]);
        Seqs.CountOneIsFirst(rows, WithId(id), j);
      }
      var updated := ApplyPatch(rows[k], patch);
      Ok((rows[k := updated], updated))
  }

  /** An update by an id that exactly one row has rewrites that row alone. */
  lemma UpdateRowsAt(rows: seq<Subscription>, id: string, patch: SubscriptionPatch, k: nat)
    requires !HasInvalidDate(patch) && k < |rows| && rows[k].id == id && Seqs.Count(rows, WithId(id)) == 1
    ensures UpdateRows(rows, id, patch) == Ok((rows[k := ApplyPatch(rows[k], patch)], ApplyPatch(rows[k], patch)))
  {
    assert WithId(id)(rows[k]);
    Seqs.CountOneIsFirst(rows, WithId(id), k);
  }

  /** Writing the same patch twice is writing it once. */
  lemma ApplyPatchIdempotent(row: Subscription, patch: SubscriptionPatch)
    requires !HasInvalidDate(patch)
    ensures ApplyPatch(ApplyPatch(row, patch), patch) == ApplyPatch(row, patch)
  {
  }

  /**
   * Updating a user's active row with a patch that keeps it active, then updating the row
   * found again with the same patch, changes nothing the second time.
   */
  lemma UpdateActiveRowIdempotent(rows: seq<Subscription>, userId: string, patch: SubscriptionPatch)
    requires ActiveSubscription(rows, userId).Some?
    requires UpdateRows(rows, ActiveSubscription(rows, userId).value.id, patch).Ok?
    requires patch.status.None? || patch.status == Some("active")
    ensures var active := ActiveSubscription(rows, userId).value;
            var (once, patched) := UpdateRows(rows, active.id, patch).value;
            ActiveSubscription(once, userId) == Some(patched)
            && UpdateRows(once, patched.id, patch) == Ok((once, patched))
  {
    var active := ActiveSubscription(rows, userId).value;
    var id := active.id;
    var k := ActiveIndex(rows, userId);
    UpdateRowsAt(rows, id, patch, k);
    var patched := ApplyPatch(active, patch);
    var once := rows[k := patched];
    ReplaceActiveRow(rows, userId, k, patched);
    Seqs.CountUpdate(rows, WithId(id), k, patched);
    assert WithId(id)(rows[k]) && WithId(id)(patched);
    UpdateRowsAt(once, id, patch, k);
    ApplyPatchIdempotent(active, patch);
    assert once[k := patched] == once;
  }

  /** The position of a user's single active row. */
  lemma ActiveIndex(rows: seq<Subscription>, userId: string) returns (k: nat)
    requires ActiveSubscription(rows, userId).Some?
    ensures k < |rows| && rows[k] == ActiveSubscription(rows, userId).value
  {
    var i :| 0 <= i < |rows| && rows[i] == ActiveSubscription(rows, userId).value;
    k := i;
  }

  /** Overwriting the single active row with another active row of the same user keeps it the single one. */
  lemma ReplaceActiveRow(rows: seq<Subscription>, userId: string, k: nat, x: Subscription)
    requires ActiveSubscription(rows, userId).Some?
    requires k < |rows| && rows[k] == ActiveSubscription(rows, userId).value
    requires IsActiveFor(x, userId)
    ensures ActiveSubscription(rows[k := x], userId) == Some(x)
  {
    Seqs.CountUpdate(rows, ActiveFor(userId), k, x);
    assert ActiveFor(userId)(rows[k]) && ActiveFor(userId)(x);
    var once := rows[k := x];
    assert once[k] == x;
  }

  /** The row `cancelUserSubscription` writes. */
  function CancelRow(row: Subscription): (r: Subscription)
    ensures r.status == Some("cancelled") && r.cancelAtPeriodEnd
    ensures r.(status := row.status, cancelAtPeriodEnd := row.cancelAtPeriodEnd) == row
  {
    row.(status := Some("cancelled"), cancelAtPeriodEnd := true)
  }

  /** The table and row after `cancelUserSubscription`: the user's single active row is cancelled. */
  function CancelRows(rows: seq<Subscription>, userId: string): (r: Result<(seq<Subscription>, Subscription), StoreError>)
    ensures r.Err? <==> ActiveSubscription(rows, userId).None?
    ensures r.Err? ==> r.error == NotSingleRow
    ensures r.Ok? ==> var k := Seqs.FirstIndex(rows, ActiveFor(userId));
              k < |rows| && rows[k] == ActiveSubscription(rows, userId).value
              && r.value == (rows[k := CancelRow(rows[k])], CancelRow(rows[k]))
  {
    var active := ActiveSubscription(rows, userId);
    if active.None? then Err(NotSingleRow)
    else
      var k := Seqs.FirstIndex(rows, ActiveFor(userId));
      assert k < |rows|;
      Ok((rows[k := CancelRow(rows[k])], CancelRow(rows[k])))
  }

  /** Cancelling touches only the user's active row, and in it only status and `cancelAtPeriodEnd`. */
  lemma CancelOnlyTouchesActiveRow(rows: seq<Subscription>, userId: string)
    requires CancelRows(rows, userId).Ok?
    ensures var (after, cancelled) := CancelRows(rows, userId).value;
            var was := ActiveSubscription(rows, userId).value;
            |after| == |rows|
            && (forall j :: 0 <= j < |rows| && !IsActiveFor(rows[j], userId) ==> after[j] == rows[j])
            && cancelled.planId == was.planId && cancelled.tier == was.tier
            && cancelled.currentPeriodStart == was.currentPeriodStart
            && cancelled.currentPeriodEnd == was.currentPeriodEnd
            && cancelled.status == Some("cancelled") && cancelled.cancelAtPeriodEnd
  {
    var k := Seqs.FirstIndex(rows, ActiveFor(userId));
    assert forall j :: 0 <= j < |rows| && !IsActiveFor(rows[j], userId) ==> j != k;
  }

  /** After a successful cancel the user has no active subscription, so their tier is FREE. */
  lemma {:induction false} CancelledUserIsFree(rows: seq<Subscription>, userId: string, now: TimeValue)
    requires CancelRows(rows, userId).Ok?
    ensures ActiveSubscription(CancelRows(rows, userId).value.0, userId).None?
    ensures GetUserTier(CancelRows(rows, userId).value.0, userId, now, false) == Free
  {
    var k := Seqs.FirstIndex(rows, ActiveFor(userId));
    Seqs.CountUpdate(rows, ActiveFor(userId), k, CancelRow(rows[k]));
    assert ActiveFor(userId)(rows[k]);
    assert !ActiveFor(userId)(CancelRow(rows[k]));
  }

  /** Several active rows for one user hide them all: the lookup sees none, and the tier is FREE. */
  lemma DuplicateActiveRowsMeanFree(rows: seq<Subscription>, userId: string, now: TimeValue, i: nat, j: nat)
    requires i < j < |rows| && IsActiveFor(rows[i], userId) && IsActiveFor(rows[j], userId)
    ensures ActiveSubscription(rows, userId).None?
    ensures GetUserTier(rows, userId, now, false) == Free
  {
    assert rows == rows[..j] + rows[j..];
    Seqs.CountAppend(rows[..j], rows[j..], ActiveFor(userId));
    assert rows[..j][i] == rows[i] && ActiveFor(userId)(rows[..j][i]);
    assert rows[j..][0] == rows[j] && ActiveFor(userId)(rows[j..][0]);
  }

  /** The `user_subscriptions` table. */
  class SubscriptionTable {
    var rows: seq<Subscription>

    constructor (initial: seq<Subscription>)
      ensures rows == initial
    {
      rows := initial;
    }

    /** `getUserSubscription`. */
    function GetUserSubscription(userId: string): (r: Option<Subscription>)
      reads this
      ensures r.Some? ==> r.value in rows && IsActiveFor(r.value, userId)
      ensures r.Some? <==> Seqs.Count(rows, ActiveFor(userId)) == 1
      ensures r == ActiveSubscription(rows, userId)
    {
      ActiveSubscription(rows, userId)
    }

    /** `getUserTier`; `fault` when the lookup throws something other than PGRST116. */
    function GetTier(userId: string, now: TimeValue, fault: bool): (t: Tier)
      reads this
      ensures t != Free ==> GetUserSubscription(userId).Some? && GetUserSubscription(userId).value.tier == t
      ensures Seqs.Count(rows, ActiveFor(userId)) != 1 ==> t == Free
      ensures ActiveSubscription(rows, userId).Some? && !fault && now <= ActiveSubscription(rows, userId).value.currentPeriodEnd ==>
                t == ActiveSubscription(rows, userId).value.tier
    {
      GetUserTier(rows, userId, now, fault)
    }

    /** `createUserSubscription`: appends the new row, or throws and leaves the table unchanged. */
    method CreateUserSubscription(fields: NewSubscription, newId: string) returns (r: Result<Subscription, StoreError>)
      modifies this
      ensures r == InsertRow(old(rows), fields, newId)
      ensures rows == if r.Ok? then old(rows) + [r.value] else old(rows)
    {
      r := InsertRow(rows, fields, newId);
      if r.Ok? {
        rows := rows + [r.value];
      }
    }

    /** `updateUserSubscription`: the supplied fields of the row with that id, or a throw and no change. */
    method UpdateUserSubscription(id: string, patch: SubscriptionPatch) returns (r: Result<Subscription, StoreError>)
      modifies this
      ensures var u := UpdateRows(old(rows), id, patch);
              (u.Ok? ==> r == Ok(u.value.1) && rows == u.value.0)
              && (u.Err? ==> r == Err(u.error) && rows == old(rows))
    {
      var u := UpdateRows(rows, id, patch);
      if u.Ok? {
        rows := u.value.0;
        r := Ok(u.value.1);
      } else {
        r := Err(u.error);
      }
    }

    /** `cancelUserSubscription`: cancels the user's active row, or throws and changes nothing. */
    method CancelUserSubscription(userId: string) returns (r: Result<Subscription, StoreError>)
      modifies this
      ensures var c := CancelRows(old(rows), userId);
              (c.Ok? ==> r == Ok(c.value.1) && rows == c.value.0)
              && (c.Err? ==> r == Err(c.error) && rows == old(rows))
    {
      var c := CancelRows(rows, userId);
      if c.Ok? {
        rows := c.value.0;
        r := Ok(c.value.1);
      } else {
        r := Err(c.error);
      }
    }
  }
}
