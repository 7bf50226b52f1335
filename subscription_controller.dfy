/** Subscription server actions (controllers/SubscriptionController.ts). */
module SubscriptionController {
  import opened Wrappers
  import opened Time
  import opened SubscriptionPlans
  import opened SubscriptionModel
  import opened Accounts
  import ClerkBilling
  import Calendar
  import Text

  /** The tier a Clerk plan id stands for in `getUserTier`'s switch. */
  function ClerkPlanTier(planId: Option<string>): (t: Tier)
    ensures planId == Some("basic") || planId == Some("core_learner") ==> t == Basic
    ensures planId == Some("pro") ==> t == Pro
    ensures planId !in {Some("basic"), Some("core_learner"), Some("pro")} ==> t == Free
  {
    match planId
    case Some("basic") => Basic
    case Some("core_learner") => Basic
    case Some("pro") => Pro
    case _ => Free
  }

  /** Metadata `getUserTier` trusts: an object whose status is "active". */
  predicate ActiveMetadata(v: ClerkBilling.MetadataValue)
  {
    v.Record? && v.meta.status == Some("active")
  }

  /**
   * `getUserTier`: active Clerk metadata decides by its plan id; otherwise the stored tier
   * of the local user, or FREE when there is no local user.
   */
  function GetUserTier(current: Option<ClerkUser>, userByClerkId: string -> Option<User>,
                       rows: seq<Subscription>, now: TimeValue, tierFault: bool): (r: ApiResponse<Tier>)
    ensures current.None? <==> r == Failure("User not authenticated")
    ensures current.Some? && ActiveMetadata(current.value.subscription) ==>
              r == Success(ClerkPlanTier(current.value.subscription.meta.planId))
    ensures current.Some? && !ActiveMetadata(current.value.subscription) ==>
              r == Success(match userByClerkId(current.value.id)
                           case None => Free
                           case Some(u) => SubscriptionModel.GetUserTier(rows, u.id, now, tierFault))
  {
    if current.None? then Failure("User not authenticated")
    else if ActiveMetadata(current.value.subscription) then
      Success(ClerkPlanTier(current.value.subscription.meta.planId))
    else
      match userByClerkId(current.value.id)
      case None => Success(Free)
      case Some(u) => Success(SubscriptionModel.GetUserTier(rows, u.id, now, tierFault))
  }

  /** `tierResult.data || SubscriptionTier.FREE`. */
  function TierOrFree(r: ApiResponse<Tier>): (t: Tier)
    ensures r.Failure? ==> t == Free
    ensures r.Success? && TierName(r.data) != "" ==> t == r.data
  {
    if r.Success? && TierName(r.data) != "" then r.data else Free
  }

  /** `getCompanionLimitForTier`: FREE 3, BASIC 25, PRO and ENTERPRISE -1, anything else 3. */
  function CompanionLimitForTier(t: Tier): (n: int)
    ensures n == -1 <==> t == Pro || t == Enterprise
  {
    match t
    case Free => 3
    case Basic => 25
    case Pro => -1
    case Enterprise => -1
    case Unlisted(_) => 3
  }

  /** `getSessionLimitForTier`: FREE 10, BASIC 250, PRO and ENTERPRISE -1, anything else 10. */
  function SessionLimitForTier(t: Tier): (n: int)
    ensures n == -1 <==> t == Pro || t == Enterprise
  {
    match t
    case Free => 10
    case Basic => 250
    case Pro => -1
    case Enterprise => -1
    case Unlisted(_) => 10
  }

  /** The controller's table and the model's table differ at BASIC alone (25/250 against 15/100). */
  lemma LimitTablesDifferOnlyAtBasic(t: Tier)
    ensures t != Basic ==> CompanionLimitForTier(t) == CompanionLimit(t) && SessionLimitForTier(t) == SessionLimit(t)
    ensures t == Basic ==> CompanionLimitForTier(t) == 25 && CompanionLimit(t) == 15
                           && SessionLimitForTier(t) == 250 && SessionLimit(t) == 100
  {
  }

  /** The controller's BASIC limits are those of the "core-learner" plan, not the "basic" plan. */
  lemma BasicLimitsAreCoreLearners()
    ensures CompanionLimitForTier(Basic) == CoreLearnerPlan.companionLimit
    ensures SessionLimitForTier(Basic) == CoreLearnerPlan.sessionLimit
    ensures CompanionLimitForTier(Basic) != BasicPlan.companionLimit
  {
  }

  /** At a limited tier's own limit nothing more is allowed; only unlimited tiers pass. */
  lemma AtLimitOnlyUnlimitedPasses(t: Tier)
    ensures WithinLimit(CompanionLimitForTier(t), CompanionLimitForTier(t)) <==> CompanionLimitForTier(t) == -1
    ensures WithinLimit(SessionLimitForTier(t), SessionLimitForTier(t)) <==> SessionLimitForTier(t) == -1
  {
  }

  /** `getUsageStatsForUser`: the usage snapshot under the controller's limit table. */
  function GetUsageStatsForUser(tier: Tier, companions: CountReply, sessions: CountReply): (u: UsageStats)
    ensures companions.Counted? && sessions.Counted? ==>
              u.companionLimit == CompanionLimitForTier(tier) && u.sessionLimit == SessionLimitForTier(tier)
              && u.companionsUsed == CountValue(companions.count) && u.sessionsUsed == CountValue(sessions.count)
    ensures companions.CountFailed? || sessions.CountFailed? ==> u == SafeDefaults
    ensures u.canCreateCompanion <==> WithinLimit(u.companionsUsed, u.companionLimit)
    ensures u.canStartSession <==> WithinLimit(u.sessionsUsed, u.sessionLimit)
  {
    Usage(companions, sessions, CompanionLimitForTier(tier), SessionLimitForTier(tier))
  }

  /** `getUserUsageStats`: authentication, the caller's tier, then the snapshot for the local user. */
  function GetUserUsageStats(current: Option<ClerkUser>, userByClerkId: string -> Option<User>,
                             rows: seq<Subscription>, now: TimeValue, tierFault: bool,
                             companions: CountReply, sessions: CountReply): (r: ApiResponse<UsageStats>)
    ensures r.Failure? <==> Authenticate(current, userByClerkId).Failure?
    ensures r.Failure? ==> r.error == Authenticate(current, userByClerkId).error
    ensures r.Success? ==> r.data == GetUsageStatsForUser(TierOrFree(GetUserTier(current, userByClerkId, rows, now, tierFault)),
                                                         companions, sessions)
  {
    if current.None? then Failure("User not authenticated")
    else
      var tier := TierOrFree(GetUserTier(current, userByClerkId, rows, now, tierFault));
      match userByClerkId(current.value.id)
      case None => Failure("User not found")
      case Some(_) => Success(GetUsageStatsForUser(tier, companions, sessions))
  }

  /** The tier an upgrade prompt points to: FREE to BASIC, anything else to PRO. */
  function RequiredTier(current: Tier): (t: Tier)
    ensures current == Free ==> t == Basic
    ensures current != Free ==> t == Pro
  {
    if current == Free then Basic
    else if current == Basic then Pro
    else Pro
  }

  /** `UpgradePromptData`. */
  datatype UpgradePrompt = UpgradePrompt(currentTier: Tier, requiredTier: Tier, feature: string, message: string)

  /** The `{ canCreate | canStart, upgradePrompt? }` payload of a limit check. */
  datatype LimitCheck = LimitCheck(allowed: bool, upgradePrompt: Option<UpgradePrompt>)

  function CompanionLimitMessage(limit: int, required: Tier): string
  {
    "You've reached your companion limit of " + Text.IntToString(limit) + ". Upgrade to "
    + TierName(required) + " to create more AI tutors."
  }

  function SessionLimitMessage(limit: int, required: Tier): string
  {
    "You've reached your monthly session limit of " + Text.IntToString(limit) + ". Upgrade to "
    + TierName(required) + " for more learning sessions."
  }

  /** `checkCompanionLimit`: allowed, or refused with a prompt naming the tier to upgrade to. */
  function CheckCompanionLimit(current: Option<ClerkUser>, userByClerkId: string -> Option<User>,
                               rows: seq<Subscription>, now: TimeValue, tierFault: bool,
                               companions: CountReply, sessions: CountReply): (r: ApiResponse<LimitCheck>)
    ensures var usage := GetUserUsageStats(current, userByClerkId, rows, now, tierFault, companions, sessions);
            (usage.Failure? <==> r == Failure("Failed to check companion limit"))
            && (usage.Success? ==> r.Success? && (r.data.allowed <==> usage.data.canCreateCompanion))
    ensures r.Success? ==> (r.data.allowed <==> r.data.upgradePrompt.None?)
    ensures r.Success? && !r.data.allowed ==>
              var currentTier := TierOrFree(GetUserTier(current, userByClerkId, rows, now, tierFault));
              var usage := GetUserUsageStats(current, userByClerkId, rows, now, tierFault, companions, sessions);
              r.data.upgradePrompt == Some(UpgradePrompt(currentTier, RequiredTier(currentTier), "Create More Companions",
                                                         CompanionLimitMessage(usage.data.companionLimit, RequiredTier(currentTier))))
  {
    var usage := GetUserUsageStats(current, userByClerkId, rows, now, tierFault, companions, sessions);
    if usage.Failure? then Failure("Failed to check companion limit")
    else if usage.data.canCreateCompanion then Success(LimitCheck(true, None))
    else
      var currentTier := TierOrFree(GetUserTier(current, userByClerkId, rows, now, tierFault));
      var requiredTier := RequiredTier(currentTier);
      Success(LimitCheck(false, Some(UpgradePrompt(currentTier, requiredTier, "Create More Companions",
                                                   CompanionLimitMessage(usage.data.companionLimit, requiredTier)))))
  }

  /** `checkSessionLimit`: allowed, or refused with a prompt naming the tier to upgrade to. */
  function CheckSessionLimit(current: Option<ClerkUser>, userByClerkId: string -> Option<User>,
                             rows: seq<Subscription>, now: TimeValue, tierFault: bool,
                             companions: CountReply, sessions: CountReply): (r: ApiResponse<LimitCheck>)
    ensures var usage := GetUserUsageStats(current, userByClerkId, rows, now, tierFault, companions, sessions);
            (usage.Failure? <==> r == Failure("Failed to check session limit"))
            && (usage.Success? ==> r.Success? && (r.data.allowed <==> usage.data.canStartSession))
    ensures r.Success? ==> (r.data.allowed <==> r.data.upgradePrompt.None?)
    ensures r.Success? && !r.data.allowed ==>
              var currentTier := TierOrFree(GetUserTier(current, userByClerkId, rows, now, tierFault));
              var usage := GetUserUsageStats(current, userByClerkId, rows, now, tierFault, companions, sessions);
              r.data.upgradePrompt == Some(UpgradePrompt(currentTier, RequiredTier(currentTier), "Start More Sessions",
                                                         SessionLimitMessage(usage.data.sessionLimit, RequiredTier(currentTier))))
  {
    var usage := GetUserUsageStats(current, userByClerkId, rows, now, tierFault, companions, sessions);
    if usage.Failure? then Failure("Failed to check session limit")
    else if usage.data.canStartSession then Success(LimitCheck(true, None))
    else
      var currentTier := TierOrFree(GetUserTier(current, userByClerkId, rows, now, tierFault));
      var requiredTier := RequiredTier(currentTier);
      Success(LimitCheck(false, Some(UpgradePrompt(currentTier, requiredTier, "Start More Sessions",
                                                   SessionLimitMessage(usage.data.sessionLimit, requiredTier)))))
  }

  /** A caller on an unlimited tier is never refused once the counts come back. */
  lemma UnlimitedTierNeverRefused(current: Option<ClerkUser>, userByClerkId: string -> Option<User>,
                                  rows: seq<Subscription>, now: TimeValue, tierFault: bool,
                                  companions: CountReply, sessions: CountReply)
    requires GetUserTier(current, userByClerkId, rows, now, tierFault) in {Success(Pro), Success(Enterprise)}
    requires Authenticate(current, userByClerkId).Success?
    ensures CheckCompanionLimit(current, userByClerkId, rows, now, tierFault, companions, sessions) == Success(LimitCheck(true, None))
    ensures CheckSessionLimit(current, userByClerkId, rows, now, tierFault, companions, sessions) == Success(LimitCheck(true, None))
  {
  }

  /** The companion prompt text for a limit of 3 and the BASIC tier. */
  lemma CompanionMessageAtThree()
    ensures CompanionLimitMessage(3, Basic)
            == "You've reached your companion limit of " + "3" + ". Upgrade to " + "basic" + " to create more AI tutors."
  {
    assert Text.Digit(3) == '3';
    assert Text.NatToString(3) == "3";
    assert Text.IntToString(3) == "3";
    assert TierName(Basic) == "basic";
  }

  /**
   * A FREE user without active Clerk metadata or stored subscription who already has
   * 3 companions is refused a fourth, with a prompt from FREE to BASIC.
   */
  lemma FreeUserAtThreeCompanions(u: ClerkUser, dbUser: User, now: TimeValue, sessions: nat)
    requires !ActiveMetadata(u.subscription)
    ensures var userByClerkId := (id: string) => if id == u.id then Some(dbUser) else None;
            CheckCompanionLimit(Some(u), userByClerkId, [], now, false, Counted(Some(3)), Counted(Some(sessions)))
            == Success(LimitCheck(false, Some(UpgradePrompt(Free, Basic, "Create More Companions",
                 "You've reached your companion limit of " + "3" + ". Upgrade to " + "basic" + " to create more AI tutors."))))
  {
    var userByClerkId := (id: string) => if id == u.id then Some(dbUser) else None;
    assert SubscriptionModel.GetUserTier([], dbUser.id, now, false) == Free;
    assert GetUserTier(Some(u), userByClerkId, [], now, false) == Success(Free);
    var usage := GetUserUsageStats(Some(u), userByClerkId, [], now, false, Counted(Some(3)), Counted(Some(sessions)));
    assert usage.Success? && usage.data.companionLimit == 3 && !usage.data.canCreateCompanion;
    CompanionMessageAtThree();
  }

  /** The period end `createSubscription` computes: one calendar month on, or one calendar year for other intervals. */
  function PeriodEnd(plan: Plan, start: TimeValue): (d: Instant)
    ensures d.At? && plan.interval == "month" ==>
              d.ms - start == Calendar.DaysInMonth(Calendar.YearOf(start), Calendar.MonthOf(start)) * Calendar.MsPerDay
    ensures plan.interval == "month" ==>
              (d.At? <==> start + Calendar.DaysInMonth(Calendar.YearOf(start), Calendar.MonthOf(start)) * Calendar.MsPerDay <= MaxTime)
    ensures d.At? && plan.interval != "month" ==> d.ms - start == Calendar.YearLength(start) * Calendar.MsPerDay
    ensures d.At? && plan.interval != "month" ==>
              365 * Calendar.MsPerDay <= d.ms - start <= 366 * Calendar.MsPerDay
    ensures plan.interval != "month" ==> (d.At? <==> start + Calendar.YearLength(start) * Calendar.MsPerDay <= MaxTime)
  {
    if plan.interval == "month" then Calendar.AddOneMonth(start) else Calendar.AddOneYear(start)
  }

  /** The row `createSubscription` asks the model to store. */
  function NewSubscriptionFor(userId: string, plan: Plan, now: TimeValue): (f: NewSubscription)
    ensures f.userId == userId && f.planId == plan.id && f.tier == plan.tier
    ensures f.status == Some("active") && !f.cancelAtPeriodEnd
    ensures f.currentPeriodStart == At(now) && f.currentPeriodEnd == PeriodEnd(plan, now)
  {
    NewSubscription(userId, plan.id, plan.tier, Some("active"), At(now), PeriodEnd(plan, now), false, None, None)
  }

  /**
   * `createSubscription`: checks authentication, the local user, the plan id and any active
   * subscription in that order, then stores a new active row.
   */
  method CreateSubscription(table: SubscriptionTable, current: Option<ClerkUser>, userByClerkId: string -> Option<User>,
                            planId: string, now: TimeValue, newId: string) returns (r: ApiResponse<Subscription>)
    modifies table
    ensures var auth := Authenticate(current, userByClerkId);
            auth.Failure? ==> r == Failure(auth.error) && table.rows == old(table.rows)
    ensures var auth := Authenticate(current, userByClerkId);
            auth.Success? && GetSubscriptionPlan(planId).None? ==>
              r == Failure("Invalid subscription plan") && table.rows == old(table.rows)
    ensures var auth := Authenticate(current, userByClerkId);
            auth.Success? && GetSubscriptionPlan(planId).Some? && ActiveSubscription(old(table.rows), auth.data.id).Some? ==>
              r == Failure("User already has an active subscription") && table.rows == old(table.rows)
    ensures var auth := Authenticate(current, userByClerkId);
            auth.Success? && GetSubscriptionPlan(planId).Some? && ActiveSubscription(old(table.rows), auth.data.id).None? ==>
              var ins := InsertRow(old(table.rows), NewSubscriptionFor(auth.data.id, GetSubscriptionPlan(planId).value, now), newId);
              (ins.Ok? ==> r == Success(ins.value) && table.rows == old(table.rows) + [ins.value])
              && (ins.Err? ==> r == Failure("Failed to create subscription") && table.rows == old(table.rows))
  {
    var auth := Authenticate(current, userByClerkId);
    if auth.Failure? {
      return Failure(auth.error);
    }
    var dbUser := auth.data;
    var plan := GetSubscriptionPlan(planId);
    if plan.None? {
      return Failure("Invalid subscription plan");
    }
    var existing := table.GetUserSubscription(dbUser.id);
    if existing.Some? && existing.value.status == Some("active") {
      return Failure("User already has an active subscription");
    }
    var created := table.CreateUserSubscription(NewSubscriptionFor(dbUser.id, plan.value, now), newId);
    if created.Err? {
      return Failure("Failed to create subscription");
    }
    r := Success(created.value);
  }

  /** A created subscription is active on the chosen plan's tier and does not cancel at period end. */
  lemma CreatedRowIsActive(rows: seq<Subscription>, userId: string, plan: Plan, now: TimeValue, newId: string)
    requires InsertRow(rows, NewSubscriptionFor(userId, plan, now), newId).Ok?
    ensures var row := InsertRow(rows, NewSubscriptionFor(userId, plan, now), newId).value;
            IsActiveFor(row, userId) && row.tier == plan.tier && row.planId == plan.id
            && !row.cancelAtPeriodEnd && row.currentPeriodStart == now && now < row.currentPeriodEnd
  {
    var end := PeriodEnd(plan, now);
    assert end.At?;
  }

  /** The patch `syncSubscriptionFromClerk` writes over an existing row. */
  function SyncPatch(plan: Plan, clerk: ClerkBilling.ClerkSubscriptionStatus): (p: SubscriptionPatch)
    ensures p.planId == Some(plan.id) && p.tier == Some(plan.tier) && p.status == clerk.status
    ensures p.currentPeriodStart == Some(clerk.currentPeriodStart) && p.currentPeriodEnd == Some(clerk.currentPeriodEnd)
    ensures p.cancelAtPeriodEnd == Some(clerk.cancelAtPeriodEnd)
    ensures p.stripeCustomerId.None? && p.stripeSubscriptionId.None?
  {
    SubscriptionPatch(Some(plan.id), Some(plan.tier), clerk.status, Some(clerk.currentPeriodStart),
                      Some(clerk.currentPeriodEnd), Some(clerk.cancelAtPeriodEnd), None, None)
  }

  /** The row `syncSubscriptionFromClerk` stores when the user has none. */
  function SyncFields(userId: string, plan: Plan, clerk: ClerkBilling.ClerkSubscriptionStatus): (f: NewSubscription)
    ensures f.userId == userId && f.planId == plan.id && f.tier == plan.tier && f.status == clerk.status
    ensures f.currentPeriodStart == clerk.currentPeriodStart && f.currentPeriodEnd == clerk.currentPeriodEnd
    ensures f.cancelAtPeriodEnd == clerk.cancelAtPeriodEnd
  {
    NewSubscription(userId, plan.id, plan.tier, clerk.status, clerk.currentPeriodStart, clerk.currentPeriodEnd,
                    clerk.cancelAtPeriodEnd, None, None)
  }

  /** The catalog plan `SUBSCRIPTION_PLANS.find(p => p.clerkPlanId === planId)` picks. */
  function CatalogPlanFor(clerkPlanId: Option<string>): (p: Option<Plan>)
    ensures p.Some? ==> p.value in Catalog && p.value.clerkPlanId == clerkPlanId
    ensures clerkPlanId.None? ==> p.None?
  {
    if clerkPlanId.Some? then FindByClerkPlanId(clerkPlanId.value) else None
  }

  /**
   * `syncSubscriptionFromClerk`: mirrors the caller's Clerk metadata into the table, updating
   * the active row or creating one; a Clerk plan id with no catalog plan writes nothing.
   */
  method SyncSubscriptionFromClerk(table: SubscriptionTable, current: Option<ClerkUser>,
                                   userByClerkId: string -> Option<User>, newId: string)
    returns (r: ApiResponse<Option<Subscription>>)
    modifies table
    ensures var auth := Authenticate(current, userByClerkId);
            auth.Failure? ==> r == Failure(auth.error) && table.rows == old(table.rows)
    ensures var auth := Authenticate(current, userByClerkId);
            auth.Success? ==>
              var clerk := ClerkBilling.SyncSubscriptionStatus(Some(current.value.subscription));
              (clerk.None? ==> r == Success(None) && table.rows == old(table.rows))
              && (clerk.Some? && CatalogPlanFor(clerk.value.planId).None? ==>
                    r == Failure("Plan configuration mismatch") && table.rows == old(table.rows))
    ensures var auth := Authenticate(current, userByClerkId);
            auth.Success? ==>
              var clerk := ClerkBilling.SyncSubscriptionStatus(Some(current.value.subscription));
              clerk.Some? && CatalogPlanFor(clerk.value.planId).Some? ==>
                var plan := CatalogPlanFor(clerk.value.planId).value;
                var existing := ActiveSubscription(old(table.rows), auth.data.id);
                (existing.Some? ==>
                   var u := UpdateRows(old(table.rows), existing.value.id, SyncPatch(plan, clerk.value));
                   (u.Ok? ==> r == Success(Some(u.value.1)) && table.rows == u.value.0)
                   && (u.Err? ==> r == Failure("Failed to sync subscription") && table.rows == old(table.rows)))
                && (existing.None? ==>
                   var ins := InsertRow(old(table.rows), SyncFields(auth.data.id, plan, clerk.value), newId);
                   (ins.Ok? ==> r == Success(Some(ins.value)) && table.rows == old(table.rows) + [ins.value])
                   && (ins.Err? ==> r == Failure("Failed to sync subscription") && table.rows == old(table.rows)))
  {
    var auth := Authenticate(current, userByClerkId);
    if auth.Failure? {
      return Failure(auth.error);
    }
    var dbUser := auth.data;
    var clerk := ClerkBilling.SyncSubscriptionStatus(Some(current.value.subscription));
    if clerk.None? {
      return Success(None);
    }
    var plan := CatalogPlanFor(clerk.value.planId);
    if plan.None? {
      return Failure("Plan configuration mismatch");
    }
    var subscription := table.GetUserSubscription(dbUser.id);
    if subscription.Some? {
      var updated := table.UpdateUserSubscription(subscription.value.id, SyncPatch(plan.value, clerk.value));
      if updated.Err? {
        return Failure("Failed to sync subscription");
      }
      r := Success(Some(updated.value));
    } else {
      var created := table.CreateUserSubscription(SyncFields(dbUser.id, plan.value, clerk.value), newId);
      if created.Err? {
        return Failure("Failed to sync subscription");
      }
      r := Success(Some(created.value));
    }
  }
}
