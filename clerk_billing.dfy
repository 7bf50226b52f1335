/** Subscription records kept in a Clerk user's public metadata (lib/clerk-billing.ts). */
module ClerkBilling {
  import opened Wrappers
  import opened Time

  /** The `subscription` object in public metadata; dates are ISO strings, kept here as their time values. */
  datatype BillingMetadata = BillingMetadata(
    planId: Option<string>,
    status: Option<string>,
    currentPeriodStart: Option<TimeValue>,
    currentPeriodEnd: Option<TimeValue>,
    cancelAtPeriodEnd: Option<bool>,
    createdAt: Option<TimeValue>,
    updatedAt: Option<TimeValue>,
    cancelledAt: Option<TimeValue>)

  const EmptyMetadata := BillingMetadata(None, None, None, None, None, None, None, None)

  /** `publicMetadata.subscription`: absent or falsy, a truthy non-object, or an object. */
  datatype MetadataValue = NoSubscription | NonObject | Record(meta: BillingMetadata)

  /** 30 days in milliseconds. */
  const BillingPeriodMs: int := 30 * 24 * 60 * 60 * 1000

  /** `{ ...value }`: the own fields of an object; nothing for any other value. */
  function Spread(v: MetadataValue): (m: BillingMetadata)
    ensures v.Record? ==> m == v.meta
    ensures !v.Record? ==> m == EmptyMetadata
  {
    if v.Record? then v.meta else EmptyMetadata
  }

  /**
   * The record `createSubscription` writes. Its period end is 30 days after `now`;
   * `toISOString` throws a RangeError when that lies beyond the representable range.
   */
  function CreatedRecord(planId: string, now: TimeValue): (r: Result<BillingMetadata, string>)
    ensures r.Ok? <==> now + BillingPeriodMs <= MaxTime
    ensures r.Ok? ==> r.value.planId == Some(planId) && r.value.status == Some("active")
                      && r.value.currentPeriodStart == Some(now)
                      && r.value.currentPeriodEnd == Some(now + BillingPeriodMs)
                      && r.value.cancelAtPeriodEnd == Some(false) && r.value.createdAt == Some(now)
                      && r.value.updatedAt.None? && r.value.cancelledAt.None?
  {
    if now + BillingPeriodMs <= MaxTime then
      Ok(BillingMetadata(Some(planId), Some("active"), Some(now), Some(now + BillingPeriodMs),
                         Some(false), Some(now), None, None))
    else Err("RangeError: Invalid time value")
  }

  /** The record `updateSubscription` writes: the current one with a new plan and `updatedAt`. */
  function UpdatedRecord(current: MetadataValue, planId: string, now: TimeValue): (r: BillingMetadata)
    ensures r.planId == Some(planId) && r.updatedAt == Some(now)
    ensures var o := Spread(current);
            r.status == o.status && r.currentPeriodStart == o.currentPeriodStart
            && r.currentPeriodEnd == o.currentPeriodEnd && r.cancelAtPeriodEnd == o.cancelAtPeriodEnd
            && r.createdAt == o.createdAt && r.cancelledAt == o.cancelledAt
  {
    Spread(current).(planId := Some(planId), updatedAt := Some(now))
  }

  /** The record `cancelSubscription` writes: the current one, cancelled at the period end. */
  function CancelledRecord(current: MetadataValue, now: TimeValue): (r: BillingMetadata)
    ensures r.status == Some("cancelled") && r.cancelAtPeriodEnd == Some(true) && r.cancelledAt == Some(now)
    ensures var o := Spread(current);
            r.planId == o.planId && r.currentPeriodStart == o.currentPeriodStart
            && r.currentPeriodEnd == o.currentPeriodEnd && r.createdAt == o.createdAt && r.updatedAt == o.updatedAt
  {
    Spread(current).(status := Some("cancelled"), cancelAtPeriodEnd := Some(true), cancelledAt := Some(now))
  }

  function MergeField<T>(stored: Option<T>, incoming: Option<T>): Option<T>
  {
    if incoming.Some? then incoming else stored
  }

  /**
   * `updateUserMetadata` merges the new object into the stored one: a field the new
   * record sets replaces the stored one, every other stored field remains.
   */
  function Merge(stored: MetadataValue, incoming: BillingMetadata): (r: MetadataValue)
    ensures r.Record?
  {
    var o := Spread(stored);
    Record(BillingMetadata(
      MergeField(o.planId, incoming.planId), MergeField(o.status, incoming.status),
      MergeField(o.currentPeriodStart, incoming.currentPeriodStart), MergeField(o.currentPeriodEnd, incoming.currentPeriodEnd),
      MergeField(o.cancelAtPeriodEnd, incoming.cancelAtPeriodEnd), MergeField(o.createdAt, incoming.createdAt),
      MergeField(o.updatedAt, incoming.updatedAt), MergeField(o.cancelledAt, incoming.cancelledAt)))
  }

  /** What `getUserSubscription` returns: the metadata value when truthy; `None` for null. */
  function AsSubscription(v: MetadataValue): (r: Option<MetadataValue>)
    ensures r.None? <==> v.NoSubscription?
    ensures r.Some? ==> r.value == v
  {
    if v.NoSubscription? then None else Some(v)
  }

  /** The result of `syncSubscriptionStatus`. */
  datatype ClerkSubscriptionStatus = ClerkSubscriptionStatus(
    planId: Option<string>,
    status: Option<string>,
    currentPeriodStart: Instant,
    currentPeriodEnd: Instant,
    cancelAtPeriodEnd: bool)

  /** `new Date(isoString)`; `new Date(undefined)` is an invalid date. */
  function DateOf(t: Option<TimeValue>): (d: Instant)
    ensures d.At? <==> t.Some?
    ensures d.At? ==> d.ms == t.value
  {
    if t.Some? then At(t.value) else InvalidDate
  }

  /**
   * `syncSubscriptionStatus` given what `getUser` yielded (`None` when it threw):
   * the mapped shape of an object, and null for anything else.
   */
  function SyncSubscriptionStatus(user: Option<MetadataValue>): (r: Option<ClerkSubscriptionStatus>)
    ensures r.Some? <==> user.Some? && user.value.Record?
    ensures r.Some? ==> var m := user.value.meta;
              r.value.planId == m.planId && r.value.status == m.status
              && r.value.currentPeriodStart == DateOf(m.currentPeriodStart)
              && r.value.currentPeriodEnd == DateOf(m.currentPeriodEnd)
              && (r.value.cancelAtPeriodEnd <==> m.cancelAtPeriodEnd == Some(true))
  {
    if user.Some? && user.value.Record? then
      var m := user.value.meta;
      Some(ClerkSubscriptionStatus(m.planId, m.status, DateOf(m.currentPeriodStart),
                                   DateOf(m.currentPeriodEnd), m.cancelAtPeriodEnd == Some(true)))
    else None
  }

  /** The `featureAccess` table of `hasFeatureAccess`; a plan id that is not a key gives no features. */
  function PlanFeatures(planId: Option<string>): (fs: seq<string>)
    ensures planId.None? ==> fs == []
  {
    match planId
    case Some("basic") => ["advanced_voice", "priority_support", "analytics"]
    case Some("core_learner") => ["advanced_voice", "priority_support", "analytics", "progress_tracking", "recommendations"]
    case Some("pro") => ["advanced_voice", "priority_support", "analytics", "progress_tracking", "recommendations",
                         "api_access", "custom_branding", "unlimited"]
    case _ => []
  }

  /** `hasFeatureAccess`, given what `getUserSubscription` returned. */
  function FeatureAccess(subscription: Option<MetadataValue>, feature: string): (b: bool)
    ensures subscription.None? ==> !b
    ensures b ==> subscription.value.Record? && subscription.value.meta.planId in {Some("basic"), Some("core_learner"), Some("pro")}
    ensures b <==> subscription.Some? && feature in PlanFeatures(Spread(subscription.value).planId)
  {
    subscription.Some? && feature in PlanFeatures(Spread(subscription.value).planId)
  }

  /** The plans' feature sets are nested, each strictly: basic, then core_learner, then pro. */
  lemma FeatureSetsNested(f: string)
    ensures f in PlanFeatures(Some("basic")) ==> f in PlanFeatures(Some("core_learner"))
    ensures f in PlanFeatures(Some("core_learner")) ==> f in PlanFeatures(Some("pro"))
    ensures "progress_tracking" !in PlanFeatures(Some("basic")) && "progress_tracking" in PlanFeatures(Some("core_learner"))
    ensures "api_access" !in PlanFeatures(Some("core_learner")) && "api_access" in PlanFeatures(Some("pro"))
  {
  }

  /** Access never depends on the record's status. */
  lemma FeatureAccessIgnoresStatus(m: BillingMetadata, status: Option<string>, feature: string)
    ensures FeatureAccess(Some(Record(m)), feature) == FeatureAccess(Some(Record(m.(status := status))), feature)
  {
  }

  /** A cancelled record still grants what the record before cancelling granted. */
  lemma CancelledKeepsFeatures(current: MetadataValue, now: TimeValue, feature: string)
    ensures FeatureAccess(Some(Merge(current, CancelledRecord(current, now))), feature)
            == FeatureAccess(AsSubscription(current), feature)
  {
  }

  /** Merging a record built by spreading the stored one writes exactly that record. */
  lemma MergeOfSpreadIsReplacement(stored: MetadataValue, planId: string, now: TimeValue)
    ensures Merge(stored, UpdatedRecord(stored, planId, now)) == Record(UpdatedRecord(stored, planId, now))
    ensures Merge(stored, CancelledRecord(stored, now)) == Record(CancelledRecord(stored, now))
  {
  }

  /** A new subscription written over a cancelled one keeps the old `cancelledAt`, as the merge never removes a field. */
  lemma CreateAfterCancelKeepsCancelledAt(stored: MetadataValue, planId: string, cancelled: TimeValue, now: TimeValue)
    requires CreatedRecord(planId, now).Ok?
    ensures Merge(Merge(stored, CancelledRecord(stored, cancelled)), CreatedRecord(planId, now).value).meta.cancelledAt
            == Some(cancelled)
  {
  }

  /** A freshly created record syncs as active, not cancelling, for a 30-day period. */
  lemma SyncOfCreated(planId: string, now: TimeValue)
    requires CreatedRecord(planId, now).Ok?
    ensures var s := SyncSubscriptionStatus(Some(Record(CreatedRecord(planId, now).value)));
            s.Some? && s.value.status == Some("active") && !s.value.cancelAtPeriodEnd
            && s.value.planId == Some(planId)
            && s.value.currentPeriodEnd.At? && s.value.currentPeriodStart.At?
            && s.value.currentPeriodEnd.ms - s.value.currentPeriodStart.ms == BillingPeriodMs
  {
  }

  /** The Clerk user store: each known user's `publicMetadata.subscription`. */
  class BillingStore {
    var metadata: map<string, MetadataValue>

    constructor (initial: map<string, MetadataValue>)
      ensures metadata == initial
    {
      metadata := initial;
    }

    /** `getUserSubscription`: null for an unknown user (the lookup throws) or a falsy value. */
    function GetUserSubscription(userId: string): (r: Option<MetadataValue>)
      reads this
      ensures userId !in metadata ==> r.None?
      ensures userId in metadata ==> r == AsSubscription(metadata[userId])
    {
      if userId in metadata then AsSubscription(metadata[userId]) else None
    }

    /** `syncSubscriptionStatus` against the store. */
    function SyncStatus(userId: string): (r: Option<ClerkSubscriptionStatus>)
      reads this
      ensures r.Some? ==> userId in metadata && metadata[userId].Record?
    {
      SyncSubscriptionStatus(if userId in metadata then Some(metadata[userId]) else None)
    }

    /** `hasFeatureAccess` against the store. */
    function HasFeatureAccess(userId: string, feature: string): (b: bool)
      reads this
      ensures b ==> userId in metadata && metadata[userId].Record?
    {
      FeatureAccess(GetUserSubscription(userId), feature)
    }

    /** `createSubscription`: writes a fresh active record; throws for an unknown user or an out-of-range period. */
    method CreateSubscription(userId: string, planId: string, now: TimeValue) returns (r: Result<BillingMetadata, string>)
      modifies this
      ensures userId !in old(metadata) ==> r.Err? && metadata == old(metadata)
      ensures userId in old(metadata) ==> r == CreatedRecord(planId, now)
      ensures r.Ok? ==> metadata == old(metadata)[userId := Merge(old(metadata)[userId], r.value)]
      ensures r.Err? ==> metadata == old(metadata)
    {
      if userId !in metadata {
        return Err("User not found");
      }
      r := CreatedRecord(planId, now);
      if r.Ok? {
        metadata := metadata[userId := Merge(metadata[userId], r.value)];
      }
    }

    /** `updateSubscription`: the stored record with a new plan id and `updatedAt`. */
    method UpdateSubscription(userId: string, planId: string, now: TimeValue) returns (r: Result<BillingMetadata, string>)
      modifies this
      ensures userId !in old(metadata) ==> r.Err? && metadata == old(metadata)
      ensures userId in old(metadata) ==>
                r == Ok(UpdatedRecord(old(metadata)[userId], planId, now))
                && metadata == old(metadata)[userId := Record(r.value)]
    {
      if userId !in metadata {
        return Err("User not found");
      }
      var updated := UpdatedRecord(metadata[userId], planId, now);
      MergeOfSpreadIsReplacement(metadata[userId], planId, now);
      metadata := metadata[userId := Merge(metadata[userId], updated)];
      r := Ok(updated);
    }

    /** `cancelSubscription`: the stored record marked cancelled at period end, with `cancelledAt`. */
    method CancelSubscription(userId: string, now: TimeValue) returns (r: Result<BillingMetadata, string>)
      modifies this
      ensures userId !in old(metadata) ==> r.Err? && metadata == old(metadata)
      ensures userId in old(metadata) ==>
                r == Ok(CancelledRecord(old(metadata)[userId], now))
                && metadata == old(metadata)[userId := Record(r.value)]
    {
      if userId !in metadata {
        return Err("User not found");
      }
      var cancelled := CancelledRecord(metadata[userId], now);
      MergeOfSpreadIsReplacement(metadata[userId], "", now);
      metadata := metadata[userId := Merge(metadata[userId], cancelled)];
      r := Ok(cancelled);
    }
  }
}
