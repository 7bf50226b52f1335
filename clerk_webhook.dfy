/** The Clerk webhook endpoint (app/api/webhooks/clerk/route.ts). */
module ClerkWebhook {
  import opened Wrappers
  import opened Time
  import opened SubscriptionPlans
  import opened SubscriptionModel
  import opened Accounts
  import Seqs
  import Text

  // ---------------------------------------------------------------- payloads

  /** An entry of a subscription event's `items`: its status, `plan_id` and `plan?.id`. */
  datatype Item = Item(status: Option<string>, planId: Option<string>, planRefId: Option<string>)

  /** The fields the subscription handlers read from `evt.data`; timestamps are in milliseconds. */
  datatype SubscriptionData = SubscriptionData(
    id: Option<string>,
    payerUserId: Option<string>,        // `payer?.user_id`
    userId: Option<string>,             // `user_id`, read by the cancellation handler only
    items: Option<seq<Item>>,
    status: Option<string>,
    currentPeriodStart: Option<int>,
    currentPeriodEnd: Option<int>,
    cancelAtPeriodEnd: Option<bool>,
    customer: Option<string>)

  /** The fields `handleUserUpdated` reads from `evt.data`. */
  datatype UserData = UserData(
    id: string,
    emailAddresses: seq<Option<string>>,  // `email_addresses[i].email_address`
    firstName: Option<string>,
    lastName: Option<string>,
    imageUrl: Option<string>)

  /** A verified event: its `type` and its `data`, read as either shape. */
  datatype Event = Event(eventType: string, user: UserData, subscription: SubscriptionData)

  datatype SvixHeaders = SvixHeaders(id: Option<string>, timestamp: Option<string>, signature: Option<string>)

  /**
   * A `POST` as seen by the handler: whether the secret is set, the headers, whether the body
   * parses as JSON, and the payload if its signature checks.
   */
  datatype WebhookRequest = WebhookRequest(secretConfigured: bool, headers: SvixHeaders, bodyIsJson: bool, verified: Option<Event>)

  /** Why the updated handler fails. */
  datatype HandlerError =
    | MissingUserId                        // "User ID not found in subscription data"
    | MissingPlanId                        // "Plan ID not found in subscription data"
    | UserNotInDatabase(clerkUserId: string)
    | StoreFailure(cause: StoreError)

  datatype WebhookResponse =
    | NotConfigured                        // 501, the secret is not set
    | MissingSvixHeaders                   // 400 "Error occurred -- no svix headers"
    | BodyNotJson                          // 500, `req.json()` throws outside every `try`
    | VerificationFailed                   // 400 "Error occurred"
    | Received                             // 200 `{ received: true }`
    | ProcessingFailed(error: HandlerError) // 500 "Error processing webhook: ..."

  function StatusCode(r: WebhookResponse): (code: int)
    ensures code in {501, 400, 200, 500}
  {
    match r
    case NotConfigured => 501
    case MissingSvixHeaders => 400
    case BodyNotJson => 500
    case VerificationFailed => 400
    case Received => 200
    case ProcessingFailed(_) => 500
  }

  // ---------------------------------------------------------------- dispatch

  datatype EventKind = UserCreated | UserUpdated | SubscriptionCreated | SubscriptionUpdated | SubscriptionCancelled | Unhandled

  /** The `switch (eventType)` of `POST`. */
  function Dispatch(eventType: string): (k: EventKind)
    ensures k == Unhandled <==>
              eventType !in {"user.created", "user.updated", "subscription.created", "subscription.updated", "subscription.cancelled"}
    ensures k == SubscriptionUpdated <==> eventType == "subscription.updated"
  {
    match eventType
    case "user.created" => UserCreated
    case "user.updated" => UserUpdated
    case "subscription.created" => SubscriptionCreated
    case "subscription.updated" => SubscriptionUpdated
    case "subscription.cancelled" => SubscriptionCancelled
    case _ => Unhandled
  }

  // ---------------------------------------------------------------- plan-id extraction

  predicate IsLive(item: Item)
  {
    item.status == Some("active") || item.status == Some("upcoming")
  }

  function LiveItem(): Item -> bool
  {
    (item: Item) => IsLive(item)
  }

  /** `firstItem.plan_id || firstItem.plan?.id`. */
  function ItemPlanId(item: Item): (r: Option<string>)
    ensures Truthy(item.planId) ==> r == item.planId
    ensures !Truthy(item.planId) ==> r == item.planRefId
  {
    if Truthy(item.planId) then item.planId else item.planRefId
  }

  /**
   * The plan id both subscription handlers extract: the `plan_id` of the first active or
   * upcoming item, else the first item's `plan_id` or `plan.id`; `None` is the throw.
   */
  function ExtractPlanId(items: Option<seq<Item>>): (r: Option<string>)
    ensures r.Some? ==> r.value != ""
    ensures items.None? || |items.value| == 0 ==> r.None?
    ensures items.Some? && Seqs.Find(items.value, LiveItem()).Some? && Truthy(Seqs.Find(items.value, LiveItem()).value.planId) ==>
              r == Seqs.Find(items.value, LiveItem()).value.planId
    ensures items.Some? && |items.value| > 0
            && (Seqs.Find(items.value, LiveItem()).None? || !Truthy(Seqs.Find(items.value, LiveItem()).value.planId)) ==>
              (r.Some? <==> Truthy(ItemPlanId(items.value[0]))) && (r.Some? ==> r == ItemPlanId(items.value[0]))
  {
    var live := if items.Some? then Seqs.Find(items.value, LiveItem()) else None;
    var fromLive := if live.Some? then live.value.planId else None;
    var planId := if !Truthy(fromLive) && items.Some? && |items.value| > 0 then ItemPlanId(items.value[0]) else fromLive;
    if Truthy(planId) then planId else None
  }

  /** The first live item decides whenever it carries a plan id, wherever it stands. */
  lemma LiveItemTakesPrecedence(items: seq<Item>, i: nat)
    requires i < |items| && IsLive(items[i]) && Truthy(items[i].planId)
    requires forall j :: 0 <= j < i ==> !IsLive(items[j])
    ensures ExtractPlanId(Some(items)) == items[i].planId
  {
    var k := Seqs.FirstIndex(items, LiveItem());
    assert LiveItem()(items[i]);
    assert forall j :: 0 <= j < i ==> !LiveItem()(items[j]);
    assert k == i;
  }

  /** With no live item the first item alone is consulted, even when a later one has a plan. */
  lemma FirstItemFallback(items: seq<Item>)
    requires |items| > 0 && forall j :: 0 <= j < |items| ==> !IsLive(items[j])
    ensures ExtractPlanId(Some(items)) == (if Truthy(ItemPlanId(items[0])) then ItemPlanId(items[0]) else None)
  {
    assert forall j :: 0 <= j < |items| ==> !LiveItem()(items[j]);
  }

  /** A live item without a `plan_id` also falls back to the first item, not to a later plan. */
  lemma LiveItemWithoutPlanIdFallsBack()
    ensures ExtractPlanId(Some([Item(Some("active"), Some(""), None), Item(Some("past_due"), Some("pro"), None)])) == None
    ensures ExtractPlanId(Some([Item(Some("active"), Some(""), Some("basic")), Item(Some("active"), Some("pro"), None)]))
            == Some("basic")
  {
    var first := Item(Some("active"), Some(""), None);
    assert LiveItem()(first);
    var second := Item(Some("active"), Some(""), Some("basic"));
    assert LiveItem()(second);
  }

  // ---------------------------------------------------------------- plan resolution

  /** The substring tests that send an unknown plan id to "core-learner". */
  predicate CoreLearnerPattern(planId: string)
  {
    Text.Contains(planId, "basic") || Text.Contains(planId, "core") || Text.Contains(planId, "cplan")
    || Text.Contains(planId, "learner")
  }

  /** The last resort for an unknown plan id: case-sensitive substring tests, in order. */
  function FallbackPlan(planId: string): (r: Option<Plan>)
    ensures CoreLearnerPattern(planId) ==> r == GetSubscriptionPlan("core-learner")
    ensures !CoreLearnerPattern(planId) && Text.Contains(planId, "pro") ==> r == GetSubscriptionPlan("pro")
    ensures !CoreLearnerPattern(planId) && !Text.Contains(planId, "pro") ==> r == GetSubscriptionPlan("basic")
    ensures r.Some? && r.value in Catalog
  {
    IdLookups();
    if CoreLearnerPattern(planId) then GetSubscriptionPlan("core-learner")
    else if Text.Contains(planId, "pro") then GetSubscriptionPlan("pro")
    else GetSubscriptionPlan("basic")
  }

  /**
   * The resolver of `handleSubscriptionUpdated`: the plan with that Clerk plan id, else the
   * plan with that internal id, else the substring fallback. It never comes up empty, so the
   * "no fallback available" throw cannot happen.
   */
  function ResolvePlan(planId: string): (r: Option<Plan>)
    ensures r.Some? && r.value in Catalog
    ensures FindByClerkPlanId(planId).Some? ==> r == FindByClerkPlanId(planId)
    ensures FindByClerkPlanId(planId).None? && GetSubscriptionPlan(planId).Some? ==> r == GetSubscriptionPlan(planId)
    ensures FindByClerkPlanId(planId).None? && GetSubscriptionPlan(planId).None? ==> r == FallbackPlan(planId)
  {
    var exact := FindByClerkPlanId(planId);
    if exact.Some? then exact
    else
      var byId := GetSubscriptionPlan(planId);
      if byId.Some? then byId else FallbackPlan(planId)
  }

  /** Every catalog plan is found again from its Clerk plan id. */
  lemma ResolveClerkPlanId(p: Plan)
    requires p in Catalog && p.clerkPlanId.Some?
    ensures ResolvePlan(p.clerkPlanId.value) == Some(p)
  {
    FindByClerkPlanIdRoundTrip(p);
  }

  /** Every catalog plan is found again from its internal id. */
  lemma ResolveInternalId(i: nat)
    requires i < |Catalog|
    ensures ResolvePlan(Catalog[i].id) == Some(Catalog[i])
  {
    // only "basic" is both an internal id and a Clerk plan id, and both name the same plan
    if i == 0 || i == 2 {
      InternalIdsAreNoClerkIds();
      IdLookups();
    } else {
      ClerkIdLookups();
    }
  }

  /** None of the catalog ids and Clerk plan ids contains "cplan". */
  lemma CatalogIdsLackCplan(planId: string)
    requires Text.Contains(planId, "cplan")
    ensures planId !in {"free", "basic", "core-learner", "pro", "core_learner"}
  {
    assert planId != "basic" by { Text.AbsentChar("basic", "cplan", 1); }
    assert planId != "core_learner" by { Text.AbsentChar("core_learner", "cplan", 1); }
    assert planId != "pro" by { Text.AbsentChar("pro", "cplan", 0); }
    assert planId != "free" by { Text.AbsentChar("free", "cplan", 0); }
    assert planId != "core-learner" by { Text.AbsentChar("core-learner", "cplan", 1); }
  }

  /** An id containing "cplan" names no plan, by internal id or by Clerk plan id. */
  lemma KnownIdsLackCplan(planId: string)
    requires Text.Contains(planId, "cplan")
    ensures FindByClerkPlanId(planId).None? && GetSubscriptionPlan(planId).None?
  {
    CatalogIdsLackCplan(planId);
    UnknownIdLookups(planId);
  }

  /** An id containing "cplan" resolves to "core-learner", even when it also contains "pro". */
  lemma CplanMeansCoreLearner(planId: string)
    requires Text.Contains(planId, "cplan")
    ensures ResolvePlan(planId) == Some(CoreLearnerPlan)
  {
    KnownIdsLackCplan(planId);
    IdLookups();
    ClerkIdLookups();
  }

  /** "core_learner_pro_trial" is no catalog id; it contains "core", and that test comes first. */
  lemma CoreLearnerProTrial(s: string)
    requires s == "core_learner_pro_trial"
    ensures ResolvePlan(s) == Some(CoreLearnerPlan)
  {
    UnknownIdLookups(s);
    assert CoreLearnerPattern(s) by { Text.ContainsAt(s, "core", 0); }
    IdLookups();
  }

  /** The substring tests on "pro_annual_v2": only "pro" matches. */
  lemma ProAnnualV2Tests(s: string)
    requires s == "pro_annual_v2"
    ensures !CoreLearnerPattern(s) && Text.Contains(s, "pro")
  {
    assert !Text.Contains(s, "basic") by { Text.AbsentChar(s, "basic", 0); }
    assert !Text.Contains(s, "core") by { Text.AbsentChar(s, "core", 0); }
    assert !Text.Contains(s, "cplan") by { Text.AbsentChar(s, "cplan", 0); }
    assert !Text.Contains(s, "learner") by { Text.AbsentChar(s, "learner", 1); }
    Text.ContainsAt(s, "pro", 0);
  }

  /** "pro_annual_v2" resolves through the "pro" test to the PRO plan, with no companion or session limit. */
  lemma ProAnnualV2(s: string)
    requires s == "pro_annual_v2"
    ensures ResolvePlan(s) == Some(ProPlan)
    ensures ResolvePlan(s).value.tier == Pro && CompanionLimit(Pro) == -1 && SessionLimit(Pro) == -1
  {
    UnknownIdLookups(s);
    ProAnnualV2Tests(s);
    IdLookups();
  }

  /** The substring tests on "PRO_plan": none matches, since they are case-sensitive. */
  lemma UpperCaseTests(s: string)
    requires s == "PRO_plan"
    ensures !CoreLearnerPattern(s) && !Text.Contains(s, "pro")
  {
    assert !Text.Contains(s, "basic") by { Text.AbsentChar(s, "basic", 0); }
    assert !Text.Contains(s, "core") by { Text.AbsentChar(s, "core", 0); }
    assert !Text.Contains(s, "cplan") by { Text.AbsentChar(s, "cplan", 0); }
    assert !Text.Contains(s, "learner") by { Text.AbsentChar(s, "learner", 1); }
    Text.AbsentChar(s, "pro", 1);
  }

  /** "PRO_plan" matches no test and falls to "basic". */
  lemma UpperCaseFallsToBasic(s: string)
    requires s == "PRO_plan"
    ensures ResolvePlan(s) == Some(BasicPlan)
  {
    UnknownIdLookups(s);
    UpperCaseTests(s);
    IdLookups();
  }

  // ---------------------------------------------------------------- timestamps

  /**
   * `parseDate`: an absent, zero or negative timestamp, or one `Date` rejects, gives `now`;
   * any other is taken as milliseconds. The result is always a valid date.
   */
  function ParseDate(timestamp: Option<int>, now: TimeValue): (d: TimeValue)
    ensures timestamp.Some? && 0 < timestamp.value <= MaxTime ==> d == timestamp.value
    ensures !(timestamp.Some? && 0 < timestamp.value <= MaxTime) ==> d == now
  {
    if timestamp.None? || timestamp.value == 0 || timestamp.value < 0 then now
    else
      match MakeDate(timestamp.value)
      case At(ms) => ms
      case InvalidDate => now
  }

  /** `new Date(timestamp * 1000)` of the updated handler's create branch: no guard at all. */
  function ScaledDate(timestamp: Option<int>): (d: Instant)
    ensures timestamp.None? ==> d == InvalidDate
    ensures timestamp.Some? ==> d == MakeDate(timestamp.value * 1000)
  {
    if timestamp.None? then InvalidDate else MakeDate(timestamp.value * 1000)
  }

  /**
   * The two readings disagree on every valid millisecond timestamp: the create branch of the
   * updated handler stores a date a thousand times further from the epoch than `parseDate`.
   */
  lemma ScaledDateDisagreesWithParseDate(timestamp: int, now: TimeValue)
    requires 0 < timestamp <= MaxTime / 1000
    ensures ParseDate(Some(timestamp), now) == timestamp
    ensures ScaledDate(Some(timestamp)) == At(1000 * timestamp) && 1000 * timestamp != timestamp
  {
  }

  /** A millisecond timestamp past 8.64e12 (the year 2243) is out of range once multiplied. */
  lemma ScaledDateOverflows(timestamp: int, now: TimeValue)
    requires MaxTime / 1000 < timestamp <= MaxTime
    ensures ParseDate(Some(timestamp), now) == timestamp
    ensures ScaledDate(Some(timestamp)) == InvalidDate
  {
  }

  /** `subscriptionData.cancel_at_period_end || false`. */
  function CancelFlag(data: SubscriptionData): bool
  {
    data.cancelAtPeriodEnd == Some(true)
  }

  // ---------------------------------------------------------------- subscription.created

  /**
   * The row `handleSubscriptionCreated` asks the model to insert; `None` when it writes
   * nothing (a missing user or plan id is thrown and swallowed, a missing user or plan returns).
   */
  function CreatedFields(data: SubscriptionData, userByClerkId: string -> Option<User>, now: TimeValue): (f: Option<NewSubscription>)
    ensures f.Some? <==>
              Truthy(data.payerUserId) && ExtractPlanId(data.items).Some?
              && userByClerkId(data.payerUserId.value).Some? && FindByClerkPlanId(ExtractPlanId(data.items).value).Some?
    ensures f.Some? ==>
              var dbUser := userByClerkId(data.payerUserId.value).value;
              var plan := FindByClerkPlanId(ExtractPlanId(data.items).value).value;
              f.value == NewSubscription(dbUser.id, plan.id, plan.tier, Some(OrElse(data.status, "active")),
                                         At(ParseDate(data.currentPeriodStart, now)), At(ParseDate(data.currentPeriodEnd, now)),
                                         CancelFlag(data), data.customer, data.id)
  {
    if !Truthy(data.payerUserId) then None
    else
      var planId := ExtractPlanId(data.items);
      if planId.None? then None
      else
        var dbUser := userByClerkId(data.payerUserId.value);
        if dbUser.None? then None
        else
          var plan := FindByClerkPlanId(planId.value);
          if plan.None? then None
          else
            Some(NewSubscription(dbUser.value.id, plan.value.id, plan.value.tier, Some(OrElse(data.status, "active")),
                                 At(ParseDate(data.currentPeriodStart, now)), At(ParseDate(data.currentPeriodEnd, now)),
                                 CancelFlag(data), data.customer, data.id))
  }

  /** The table after `handleSubscriptionCreated`: always an insert, never an upsert. */
  function CreatedWrite(rows: seq<Subscription>, data: SubscriptionData, userByClerkId: string -> Option<User>,
                        now: TimeValue, newId: string): (r: seq<Subscription>)
    ensures r == rows || (|r| == |rows| + 1 && r[..|rows|] == rows)
    ensures CreatedFields(data, userByClerkId, now).None? ==> r == rows
  {
    var f := CreatedFields(data, userByClerkId, now);
    if f.None? then rows
    else
      var ins := InsertRow(rows, f.value, newId);
      if ins.Ok? then rows + [ins.value] else rows
  }

  /** The created handler inserts under any fresh id, whatever the user already has. */
  lemma CreatedAlwaysInserts(rows: seq<Subscription>, data: SubscriptionData, userByClerkId: string -> Option<User>,
                             now: TimeValue, newId: string)
    requires CreatedFields(data, userByClerkId, now).Some?
    requires forall row :: row in rows ==> row.id != newId
    ensures var row := NewRow(CreatedFields(data, userByClerkId, now).value, newId);
            row.Ok? && CreatedWrite(rows, data, userByClerkId, now, newId) == rows + [row.value]
  {
  }

  /**
   * Delivering the same `subscription.created` event twice leaves the user with two active
   * rows, and the user's tier drops to FREE: the handler is not idempotent.
   */
  lemma DuplicateCreatedEventMeansFree(rows: seq<Subscription>, data: SubscriptionData, userByClerkId: string -> Option<User>,
                                       now: TimeValue, id1: string, id2: string)
    requires CreatedFields(data, userByClerkId, now).Some?
    requires OrElse(data.status, "active") == "active"
    requires id1 != id2 && forall row :: row in rows ==> row.id != id1 && row.id != id2
    ensures var once := CreatedWrite(rows, data, userByClerkId, now, id1);
            var twice := CreatedWrite(once, data, userByClerkId, now, id2);
            var userId := CreatedFields(data, userByClerkId, now).value.userId;
            |twice| == |rows| + 2 && GetUserTier(twice, userId, now, false) == Free
  {
    var f := CreatedFields(data, userByClerkId, now).value;
    var once := CreatedWrite(rows, data, userByClerkId, now, id1);
    CreatedAlwaysInserts(rows, data, userByClerkId, now, id1);
    assert once == rows + [NewRow(f, id1).value];
    CreatedAlwaysInserts(once, data, userByClerkId, now, id2);
    var twice := CreatedWrite(once, data, userByClerkId, now, id2);
    assert twice == once + [NewRow(f, id2).value];
    DuplicateActiveRowsMeanFree(twice, f.userId, now, |rows|, |rows| + 1);
  }

  // ---------------------------------------------------------------- subscription.updated

  /** The patch the updated handler writes over the user's active row. */
  function UpdatedPatch(plan: Plan, data: SubscriptionData, now: TimeValue): (p: SubscriptionPatch)
    ensures !HasInvalidDate(p)
    ensures p.planId == Some(plan.id) && p.tier == Some(plan.tier) && p.status == Some(OrElse(data.status, "active"))
    ensures p.currentPeriodStart == Some(At(ParseDate(data.currentPeriodStart, now)))
    ensures p.currentPeriodEnd == Some(At(ParseDate(data.currentPeriodEnd, now)))
    ensures p.cancelAtPeriodEnd == Some(CancelFlag(data))
    ensures p.stripeCustomerId == data.customer && p.stripeSubscriptionId == data.id
  {
    SubscriptionPatch(Some(plan.id), Some(plan.tier), Some(OrElse(data.status, "active")),
                      Some(At(ParseDate(data.currentPeriodStart, now))), Some(At(ParseDate(data.currentPeriodEnd, now))),
                      Some(CancelFlag(data)), data.customer, data.id)
  }

  /** The row the updated handler inserts when the user has no active one (timestamps scaled). */
  function UpdatedNewFields(userId: string, plan: Plan, data: SubscriptionData): (f: NewSubscription)
    ensures f.userId == userId && f.planId == plan.id && f.tier == plan.tier && f.status == Some(OrElse(data.status, "active"))
    ensures f.currentPeriodStart == ScaledDate(data.currentPeriodStart) && f.currentPeriodEnd == ScaledDate(data.currentPeriodEnd)
    ensures f.cancelAtPeriodEnd == CancelFlag(data) && f.stripeCustomerId == data.customer && f.stripeSubscriptionId == data.id
  {
    NewSubscription(userId, plan.id, plan.tier, Some(OrElse(data.status, "active")),
                    ScaledDate(data.currentPeriodStart), ScaledDate(data.currentPeriodEnd),
                    CancelFlag(data), data.customer, data.id)
  }

  /** The table after `handleSubscriptionUpdated`, or what it throws (and nothing is written). */
  function UpdatedWrite(rows: seq<Subscription>, data: SubscriptionData, userByClerkId: string -> Option<User>,
                        now: TimeValue, newId: string): (r: Result<seq<Subscription>, HandlerError>)
    ensures !Truthy(data.payerUserId) ==> r == Err(MissingUserId)
    ensures Truthy(data.payerUserId) && ExtractPlanId(data.items).None? ==> r == Err(MissingPlanId)
    ensures Truthy(data.payerUserId) && ExtractPlanId(data.items).Some? && userByClerkId(data.payerUserId.value).None? ==>
              r == Err(UserNotInDatabase(data.payerUserId.value))
    ensures r.Ok? ==>
              var dbUser := userByClerkId(data.payerUserId.value).value;
              var plan := ResolvePlan(ExtractPlanId(data.items).value).value;
              var existing := ActiveSubscription(rows, dbUser.id);
              (existing.Some? ==>
                 |r.value| == |rows|
                 && forall j :: 0 <= j < |rows| ==>
                      r.value[j] == (if rows[j].id == existing.value.id then ApplyPatch(rows[j], UpdatedPatch(plan, data, now)) else rows[j]))
              && (existing.None? ==>
                 |r.value| == |rows| + 1 && r.value[..|rows|] == rows
                 && r.value[|rows|].userId == dbUser.id && r.value[|rows|].planId == plan.id && r.value[|rows|].tier == plan.tier
                 && NewRow(UpdatedNewFields(dbUser.id, plan, data), newId).Ok?
                 && r.value == rows + [NewRow(UpdatedNewFields(dbUser.id, plan, data), newId).value])
    ensures Truthy(data.payerUserId) && ExtractPlanId(data.items).Some? && userByClerkId(data.payerUserId.value).Some? ==>
              var existing := ActiveSubscription(rows, userByClerkId(data.payerUserId.value).value.id);
              existing.Some? && Seqs.Count(rows, WithId(existing.value.id)) == 1 ==> r.Ok?
    ensures Truthy(data.payerUserId) && ExtractPlanId(data.items).Some? && userByClerkId(data.payerUserId.value).Some? ==>
              var dbUser := userByClerkId(data.payerUserId.value).value;
              var plan := ResolvePlan(ExtractPlanId(data.items).value).value;
              var fields := UpdatedNewFields(dbUser.id, plan, data);
              ActiveSubscription(rows, dbUser.id).None? && NewRow(fields, newId).Ok? && Seqs.Count(rows, WithId(newId)) == 0 ==> r.Ok?
  {
    if !Truthy(data.payerUserId) then Err(MissingUserId)
    else
      var planId := ExtractPlanId(data.items);
      if planId.None? then Err(MissingPlanId)
      else
        var dbUser := userByClerkId(data.payerUserId.value);
        if dbUser.None? then Err(UserNotInDatabase(data.payerUserId.value))
        else
          var plan := ResolvePlan(planId.value).value;
          var existing := ActiveSubscription(rows, dbUser.value.id);
          if existing.Some? then
            var u := UpdateRows(rows, existing.value.id, UpdatedPatch(plan, data, now));
            if u.Ok? then Ok(u.value.0) else Err(StoreFailure(u.error))
          else
            var ins := InsertRow(rows, UpdatedNewFields(dbUser.value.id, plan, data), newId);
            if ins.Ok? then Ok(rows + [ins.value]) else Err(StoreFailure(ins.error))
  }

  /** A missing period timestamp on a first-time update gives an invalid date, and the update fails. */
  lemma UpdatedInsertNeedsTimestamps(rows: seq<Subscription>, data: SubscriptionData, userByClerkId: string -> Option<User>,
                                     now: TimeValue, newId: string)
    requires Truthy(data.payerUserId) && ExtractPlanId(data.items).Some? && userByClerkId(data.payerUserId.value).Some?
    requires ActiveSubscription(rows, userByClerkId(data.payerUserId.value).value.id).None?
    requires data.currentPeriodStart.None? || data.currentPeriodEnd.None?
    ensures UpdatedWrite(rows, data, userByClerkId, now, newId) == Err(StoreFailure(InvalidTimeValue))
  {
  }

  /**
   * Replaying a `subscription.updated` event whose status is "active" over a user who has an
   * active row changes nothing more: the update branch is idempotent.
   */
  lemma UpdatedReplayIsIdempotent(rows: seq<Subscription>, data: SubscriptionData,
                                  userByClerkId: string -> Option<User>, now: TimeValue, newId: string)
    requires UpdatedWrite(rows, data, userByClerkId, now, newId).Ok?
    requires ActiveSubscription(rows, userByClerkId(data.payerUserId.value).value.id).Some?
    requires OrElse(data.status, "active") == "active"
    ensures var once := UpdatedWrite(rows, data, userByClerkId, now, newId).value;
            UpdatedWrite(once, data, userByClerkId, now, newId) == Ok(once)
  {
    var userId := userByClerkId(data.payerUserId.value).value.id;
    var plan := ResolvePlan(ExtractPlanId(data.items).value).value;
    var patch := UpdatedPatch(plan, data, now);
    var existing := ActiveSubscription(rows, userId).value;
    UpdateActiveRowIdempotent(rows, userId, patch);
  }

  // ---------------------------------------------------------------- subscription.cancelled

  /** The table after `handleSubscriptionCancelled`; every failure is swallowed. */
  function CancelledWrite(rows: seq<Subscription>, data: SubscriptionData, userByClerkId: string -> Option<User>): (r: seq<Subscription>)
    ensures data.userId.None? || userByClerkId(data.userId.value).None? ==> r == rows
    ensures data.userId.Some? && userByClerkId(data.userId.value).Some? ==>
              var c := CancelRows(rows, userByClerkId(data.userId.value).value.id);
              r == if c.Ok? then c.value.0 else rows
  {
    if data.userId.None? then rows
    else
      match userByClerkId(data.userId.value)
      case None => rows
      case Some(dbUser) =>
        var c := CancelRows(rows, dbUser.id);
        if c.Ok? then c.value.0 else rows
  }

  /** After the cancellation event the user (if known) has no active row and is FREE. */
  lemma CancelledEventMeansFree(rows: seq<Subscription>, data: SubscriptionData, userByClerkId: string -> Option<User>,
                                now: TimeValue)
    requires data.userId.Some? && userByClerkId(data.userId.value).Some?
    ensures var userId := userByClerkId(data.userId.value).value.id;
            ActiveSubscription(rows, userId).Some? ==> GetUserTier(CancelledWrite(rows, data, userByClerkId), userId, now, false) == Free
  {
    var userId := userByClerkId(data.userId.value).value.id;
    if ActiveSubscription(rows, userId).Some? {
      CancelledUserIsFree(rows, userId, now);
    }
  }

  // ---------------------------------------------------------------- user.updated

  /**
   * The row `handleUserUpdated` writes through `updateUser`: the first email address, the
   * trimmed display name and the image, each falling back to what is stored when falsy.
   */
  function UserUpdatedRow(data: UserData, userByClerkId: string -> Option<User>): (r: Option<User>)
    ensures r.Some? <==> userByClerkId(data.id).Some?
    ensures r.Some? ==>
              var dbUser := userByClerkId(data.id).value;
              r.value.id == dbUser.id && r.value.clerkId == dbUser.clerkId
              && r.value.email == (if |data.emailAddresses| > 0 && Truthy(data.emailAddresses[0]) then data.emailAddresses[0].value else dbUser.email)
              && r.value.name == (if DisplayName(data.firstName, data.lastName) != "" then DisplayName(data.firstName, data.lastName) else dbUser.name)
              && r.value.image == (if Truthy(data.imageUrl) then data.imageUrl else dbUser.image)
  {
    match userByClerkId(data.id)
    case None => None
    case Some(dbUser) =>
      var email := if |data.emailAddresses| > 0 then OrElse(data.emailAddresses[0], dbUser.email) else dbUser.email;
      var name := DisplayName(data.firstName, data.lastName);
      Some(dbUser.(email := email,
                   name := if name != "" then name else dbUser.name,
                   image := if Truthy(data.imageUrl) then data.imageUrl else dbUser.image))
  }

  /** An event with no names and no image leaves the stored name and image alone. */
  lemma BlankUserUpdateKeepsProfile(data: UserData, userByClerkId: string -> Option<User>)
    requires userByClerkId(data.id).Some?
    requires data.firstName.None? && data.lastName.None? && !Truthy(data.imageUrl)
    ensures UserUpdatedRow(data, userByClerkId).value.name == userByClerkId(data.id).value.name
    ensures UserUpdatedRow(data, userByClerkId).value.image == userByClerkId(data.id).value.image
  {
    DisplayNameOfNothing();
  }

  // ---------------------------------------------------------------- POST

  /** Whether the header check of `POST` fails: each svix header must be present and non-empty. */
  predicate MissingHeader(h: SvixHeaders)
  {
    !Truthy(h.id) || !Truthy(h.timestamp) || !Truthy(h.signature)
  }

  /** What a `POST` returns, how it leaves the subscription table, and the user row it writes. */
  datatype WebhookOutcome = WebhookOutcome(response: WebhookResponse, rows: seq<Subscription>, userWrite: Option<User>)

  /** `POST`: the gates in order, then the handler the event type selects. */
  function Outcome(req: WebhookRequest, rows: seq<Subscription>, userByClerkId: string -> Option<User>,
                   now: TimeValue, newId: string): (o: WebhookOutcome)
    ensures !req.secretConfigured ==> o == WebhookOutcome(NotConfigured, rows, None)
    ensures req.secretConfigured && MissingHeader(req.headers) ==> o == WebhookOutcome(MissingSvixHeaders, rows, None)
    ensures req.secretConfigured && !MissingHeader(req.headers) && !req.bodyIsJson ==>
              o == WebhookOutcome(BodyNotJson, rows, None)
    ensures req.secretConfigured && !MissingHeader(req.headers) && req.bodyIsJson && req.verified.None? ==>
              o == WebhookOutcome(VerificationFailed, rows, None)
    ensures o.userWrite.Some? ==> req.bodyIsJson && req.verified.Some? && Dispatch(req.verified.value.eventType) == UserUpdated
    ensures o.response.ProcessingFailed? ==>
              req.bodyIsJson && req.verified.Some? && Dispatch(req.verified.value.eventType) == SubscriptionUpdated && o.rows == rows
    ensures o.rows != rows ==> o.response == Received
  {
    if !req.secretConfigured then WebhookOutcome(NotConfigured, rows, None)
    else if MissingHeader(req.headers) then WebhookOutcome(MissingSvixHeaders, rows, None)
    else if !req.bodyIsJson then WebhookOutcome(BodyNotJson, rows, None)
    else if req.verified.None? then WebhookOutcome(VerificationFailed, rows, None)
    else
      var evt := req.verified.value;
      match Dispatch(evt.eventType)
      case UserCreated => WebhookOutcome(Received, rows, None)
      case UserUpdated => WebhookOutcome(Received, rows, UserUpdatedRow(evt.user, userByClerkId))
      case SubscriptionCreated => WebhookOutcome(Received, CreatedWrite(rows, evt.subscription, userByClerkId, now, newId), None)
      case SubscriptionUpdated =>
        (match UpdatedWrite(rows, evt.subscription, userByClerkId, now, newId)
         case Ok(after) => WebhookOutcome(Received, after, None)
         case Err(e) => WebhookOutcome(ProcessingFailed(e), rows, None))
      case SubscriptionCancelled => WebhookOutcome(Received, CancelledWrite(rows, evt.subscription, userByClerkId), None)
      case Unhandled => WebhookOutcome(Received, rows, None)
  }

  /**
   * The status code: 501 and 400 come from the gates alone; 500 from a body that is not JSON
   * or from a failed update event.
   */
  lemma StatusDecision(req: WebhookRequest, rows: seq<Subscription>, userByClerkId: string -> Option<User>,
                       now: TimeValue, newId: string)
    ensures var code := StatusCode(Outcome(req, rows, userByClerkId, now, newId).response);
            (code == 501 <==> !req.secretConfigured)
            && (code == 400 <==> req.secretConfigured && (MissingHeader(req.headers) || (req.bodyIsJson && req.verified.None?)))
            && (code == 500 <==> req.secretConfigured && !MissingHeader(req.headers)
                                 && (!req.bodyIsJson
                                     || (req.verified.Some?
                                         && Dispatch(req.verified.value.eventType) == SubscriptionUpdated
                                         && UpdatedWrite(rows, req.verified.value.subscription, userByClerkId, now, newId).Err?)))
  {
  }

  /** An unknown event type is acknowledged with 200 and changes nothing. */
  lemma UnknownEventAcknowledged(req: WebhookRequest, rows: seq<Subscription>, userByClerkId: string -> Option<User>,
                                 now: TimeValue, newId: string)
    requires req.secretConfigured && !MissingHeader(req.headers) && req.bodyIsJson && req.verified.Some?
    requires Dispatch(req.verified.value.eventType) == Unhandled
    ensures Outcome(req, rows, userByClerkId, now, newId) == WebhookOutcome(Received, rows, None)
  {
  }

  /** `handleSubscriptionCreated`. */
  method HandleSubscriptionCreated(table: SubscriptionTable, data: SubscriptionData, userByClerkId: string -> Option<User>,
                                   now: TimeValue, newId: string)
    modifies table
    ensures table.rows == CreatedWrite(old(table.rows), data, userByClerkId, now, newId)
  {
    var fields := CreatedFields(data, userByClerkId, now);
    if fields.None? {
      return;
    }
    var _ := table.CreateUserSubscription(fields.value, newId);
  }

  /** `handleSubscriptionUpdated`: the resolved plan is upserted into the user's active row. */
  method HandleSubscriptionUpdated(table: SubscriptionTable, data: SubscriptionData, userByClerkId: string -> Option<User>,
                                   now: TimeValue, newId: string) returns (r: Result<(), HandlerError>)
    modifies table
    ensures var w := UpdatedWrite(old(table.rows), data, userByClerkId, now, newId);
            (w.Ok? ==> r.Ok? && table.rows == w.value) && (w.Err? ==> r == Err(w.error) && table.rows == old(table.rows))
  {
    if !Truthy(data.payerUserId) {
      return Err(MissingUserId);
    }
    var planId := ExtractPlanId(data.items);
    if planId.None? {
      return Err(MissingPlanId);
    }
    var dbUser := userByClerkId(data.payerUserId.value);
    if dbUser.None? {
      return Err(UserNotInDatabase(data.payerUserId.value));
    }
    var plan := FindByClerkPlanId(planId.value);
    if plan.None? {
      plan := GetSubscriptionPlan(planId.value);
    }
    if plan.None? {
      plan := FallbackPlan(planId.value);
    }
    assert plan == ResolvePlan(planId.value);
    var existing := table.GetUserSubscription(dbUser.value.id);
    if existing.Some? {
      var updated := table.UpdateUserSubscription(existing.value.id, UpdatedPatch(plan.value, data, now));
      if updated.Err? {
        return Err(StoreFailure(updated.error));
      }
    } else {
      var created := table.CreateUserSubscription(UpdatedNewFields(dbUser.value.id, plan.value, data), newId);
      if created.Err? {
        return Err(StoreFailure(created.error));
      }
    }
    r := Ok(());
  }

  /** `handleSubscriptionCancelled`. */
  method HandleSubscriptionCancelled(table: SubscriptionTable, data: SubscriptionData, userByClerkId: string -> Option<User>)
    modifies table
    ensures table.rows == CancelledWrite(old(table.rows), data, userByClerkId)
  {
    if data.userId.None? {
      return;
    }
    var dbUser := userByClerkId(data.userId.value);
    if dbUser.None? {
      return;
    }
    var _ := table.CancelUserSubscription(dbUser.value.id);
  }

  /** `POST`: returns the response and the user row a `user.updated` event writes. */
  method Post(table: SubscriptionTable, req: WebhookRequest, userByClerkId: string -> Option<User>,
              now: TimeValue, newId: string) returns (response: WebhookResponse, userWrite: Option<User>)
    modifies table
    ensures var o := Outcome(req, old(table.rows), userByClerkId, now, newId);
            response == o.response && table.rows == o.rows && userWrite == o.userWrite
  {
    userWrite := None;
    if !req.secretConfigured {
      return NotConfigured, None;
    }
    if MissingHeader(req.headers) {
      return MissingSvixHeaders, None;
    }
    if !req.bodyIsJson {
      return BodyNotJson, None;
    }
    if req.verified.None? {
      return VerificationFailed, None;
    }
    var evt := req.verified.value;
    response := Received;
    match Dispatch(evt.eventType)
    case UserCreated =>
    case UserUpdated =>
      userWrite := UserUpdatedRow(evt.user, userByClerkId);
    case SubscriptionCreated =>
      HandleSubscriptionCreated(table, evt.subscription, userByClerkId, now, newId);
    case SubscriptionUpdated =>
      var r := HandleSubscriptionUpdated(table, evt.subscription, userByClerkId, now, newId);
      if r.Err? {
        response := ProcessingFailed(r.error);
      }
    case SubscriptionCancelled =>
      HandleSubscriptionCancelled(table, evt.subscription, userByClerkId);
    case Unhandled =>
  }
}
