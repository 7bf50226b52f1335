# LMS-Platform subscription, session and companion logic in Dafny

This project models, in Dafny, the decision logic of LMS-Platform, a Next.js learning site
where users talk to AI "companions" (voice tutors) and pay for tiers through Clerk billing.
The parts modelled are:

- **The subscription catalog.** The four plans, their lookups, and the tier limit tables
  (`lib/subscription-plans.ts`).
- **The subscription store and the controller over it.** Active-row lookup, tier with
  expiry, the usage flags `limit == -1 || used < limit`, create, partial update and cancel,
  upgrade prompts, and the sync from Clerk (`models/Subscription.ts`,
  `controllers/SubscriptionController.ts`).
- **The Clerk billing metadata record.** Its transforms and the feature-access table
  (`lib/clerk-billing.ts`).
- **The Clerk webhook.** The response-status decision, event dispatch, plan-id extraction,
  the ordered plan resolver, the `parseDate` guard and the create/update writes
  (`app/api/webhooks/clerk/route.ts`).
- **Learning sessions and the session history.** Their tables and the statistics
  aggregation (`models/LearningSession.ts`, `models/SessionHistory.ts`).
- **The guard chains of the controllers.** Companion, learning-session, session-history
  and user actions: signed in, known locally, the record exists, the caller owns it.
- **The small pure helpers.** Two `formatDuration`s, `formatTime`, `formatDate`'s guard,
  the subject colours, the instruction text, the voice lookups and the companion form
  validator.

## How external things are represented

- Each table whose rows the code changes is a class with a `rows: seq<…>` field. The tables
  are `user_subscriptions`, `learning_sessions`, `session_history`, `companions` and
  `users`/`user_profiles`.
- Every method on such a class is specified by a pure function of the old rows. The
  properties are proved about those functions.
- PostgREST's `.single()` is modelled as "exactly one row matches, else the error PGRST116".
  For a read this gives null; for an update, an error with nothing written.
- The signed-in Clerk user is an `Option<ClerkUser>`. The `users` lookup by Clerk id is a
  function parameter.
- "Now" is a millisecond time value passed in. Row ids are passed in too.
- The Svix signature check is given as its result: the verified event, or none when `verify`
  throws. Whether `req.json()` can parse the body is a boolean. The result of a count query is a `CountReply`.
- Vapi assistant and call creation are given as their outcomes.
- JavaScript `Date` arithmetic is modelled by an ECMA-262 calendar (module `Calendar`).
  `Math.floor`, `%` and `Math.round` are modelled by `JsMath` and explicit formulas.

Helper modules need no table rows: `Wrappers`, `Seqs`, `Text`, `JsMath`, and the internal
lemmas of `Calendar`.

## Model

| member | source | states |
|---|---|---|
| SubscriptionPlans.GetSubscriptionPlan | lib/subscription-plans.ts:86-88 | a found plan is in the catalog with that id; none is found exactly when no catalog plan has the id |
| SubscriptionPlans.GetSubscriptionPlanExact | lib/subscription-plans.ts:86-88 | `getSubscriptionPlan(id)` is `p` if and only if `p` is the catalog plan with id `id` |
| SubscriptionPlans.IdLookups | lib/subscription-plans.ts:3-88 | "free", "basic", "core-learner" and "pro" each find their own plan |
| SubscriptionPlans.UnknownIdLookups | lib/subscription-plans.ts:3-88 | an id that is none of the five shipped ids finds no plan, by internal id or by Clerk plan id |
| SubscriptionPlans.FindByClerkPlanId | controllers/SubscriptionController.ts:452 | the plan found by Clerk plan id carries that Clerk plan id; none exactly when no plan does |
| SubscriptionPlans.FindByClerkPlanIdRoundTrip | lib/subscription-plans.ts:3-84 | every plan with a Clerk plan id is found again from that id |
| SubscriptionPlans.ClerkIdLookups | lib/subscription-plans.ts:21-84 | "basic", "core_learner" and "pro" find the Basic, Core Learner and Pro plans |
| SubscriptionPlans.InternalIdsAreNoClerkIds | lib/subscription-plans.ts:3-84 | "free" and "core-learner" are no plan's Clerk plan id |
| SubscriptionPlans.CatalogIdsUnique | lib/subscription-plans.ts:3-84 | the internal plan ids are pairwise distinct |
| SubscriptionPlans.ClerkPlanIdsUnique | lib/subscription-plans.ts:3-84 | the Clerk plan ids that are set are pairwise distinct, and only the FREE plan has none |
| SubscriptionPlans.GetSubscriptionPlansByTier | lib/subscription-plans.ts:90-92 | a plan is in the result if and only if it is a catalog plan of that tier |
| SubscriptionPlans.PlansByTierInOrder | lib/subscription-plans.ts:90-92 | the result is the catalog's plans of that tier in catalog order |
| SubscriptionPlans.PlansByTierValues | lib/subscription-plans.ts:3-92 | FREE has [free], BASIC has [basic, core-learner], PRO has [pro]; other tiers have none |
| SubscriptionPlans.GetDefaultPlanForTier | lib/subscription-plans.ts:94-97 | the default is a catalog plan of the tier; there is none exactly when the tier has no plan |
| SubscriptionPlans.DefaultPlanValues | lib/subscription-plans.ts:3-97 | every plan is monthly, so a tier's default is its first plan: BASIC gives "basic", not "core-learner" |
| SubscriptionPlans.CompanionLimits | lib/subscription-plans.ts:99-104 | `COMPANION_LIMITS` has an entry for exactly the four listed tiers |
| SubscriptionPlans.SessionLimits | lib/subscription-plans.ts:106-110 | `SESSION_LIMITS` has an entry for exactly the four listed tiers |
| SubscriptionPlans.PlanLimitsMatchTierTable | lib/subscription-plans.ts:3-110 | each plan's limits are its tier's table entries, except "core-learner", which is BASIC (15/100 in the table) yet carries 25/250 |
| SubscriptionPlans.TierName | lib/subscription-plans.ts:7 | an unlisted tier's name is the string it was read from |
| SubscriptionPlans.ParseTier | models/Subscription.ts:137 | a stored tier string read as a tier is normalised and has that string as its name |
| SubscriptionPlans.ParseTierName | models/Subscription.ts:198-225 | a normalised tier read back from its name is itself, so the limit switches see "pro" only as PRO |
| SubscriptionModel.ActiveSubscription | models/Subscription.ts:5-20 | a row is found exactly when one row of the user has status "active"; the row found is that row |
| SubscriptionModel.DuplicateActiveRowsMeanFree | models/Subscription.ts:5-130 | two active rows for one user hide both: the lookup finds none and the tier is FREE |
| SubscriptionModel.TierOf | models/Subscription.ts:124-141 | FREE on a fault, with no subscription, with a status other than "active", or after `currentPeriodEnd`; otherwise the stored tier of the active row |
| SubscriptionModel.GetUserTier | models/Subscription.ts:124-141 | a tier other than FREE comes from an active, unexpired row of the user; without exactly one active row the tier is FREE; without a fault, the user's single active row, if not yet expired, gives its stored tier |
| SubscriptionModel.CompanionLimit | models/Subscription.ts:198-210 | -1 exactly for PRO and ENTERPRISE; every other limit is positive |
| SubscriptionModel.SessionLimit | models/Subscription.ts:212-224 | -1 exactly for PRO and ENTERPRISE; every other limit is positive |
| SubscriptionModel.LimitsMatchCatalogTables | models/Subscription.ts:198-224 | on the four listed tiers the model's table agrees with `COMPANION_LIMITS` and `SESSION_LIMITS` |
| SubscriptionModel.CountValue | models/Subscription.ts:173-174 | a null count is 0 |
| SubscriptionModel.Usage | models/Subscription.ts:144-195 | counts as reported and limits as given, flags `limit == -1 or used < limit`; the fixed 0/3/0/10 all-true defaults when a count fails |
| SubscriptionModel.GetUserUsageStats | models/Subscription.ts:144-195 | the snapshot carries the limits of the user's tier, or the defaults when a count fails |
| SubscriptionModel.NewRow | models/Subscription.ts:35-47 | the stored row holds exactly the supplied fields under the new id; an invalid period date fails |
| SubscriptionModel.InsertRow | models/Subscription.ts:35-47 | insertion succeeds exactly with a free id and valid dates, and then stores `NewRow`; a taken id gives a duplicate-id error |
| SubscriptionModel.ApplyPatch | models/Subscription.ts:62-79 | id and user stay; each supplied field replaces the stored one, and each omitted field is kept |
| SubscriptionModel.EmptyPatchIsIdentity | models/Subscription.ts:64 | a patch that supplies nothing leaves the row as it was |
| SubscriptionModel.ApplyPatchIdempotent | models/Subscription.ts:62-79 | writing the same patch twice equals writing it once |
| SubscriptionModel.UpdateRows | models/Subscription.ts:62-81 | an invalid date or an id held by other than exactly one row fails; otherwise only the row with that id is patched |
| SubscriptionModel.UpdateRowsAt | models/Subscription.ts:74-79 | with a unique id at position k, the update rewrites position k alone |
| SubscriptionModel.UpdateActiveRowIdempotent | models/Subscription.ts:5-81 | after patching a user's active row with a status-preserving patch, the row is still the active one and patching it again changes nothing |
| SubscriptionModel.ReplaceActiveRow | models/Subscription.ts:5-20 | replacing the single active row by another active row of the user keeps it the one found |
| SubscriptionModel.CancelRow | models/Subscription.ts:100-103 | status becomes "cancelled" and `cancelAtPeriodEnd` true; no other field changes |
| SubscriptionModel.CancelRows | models/Subscription.ts:96-109 | fails exactly when the user has no single active row; otherwise that row alone is cancelled |
| SubscriptionModel.CancelOnlyTouchesActiveRow | models/Subscription.ts:96-109 | every other row stays, and the cancelled row keeps plan, tier and period |
| SubscriptionModel.CancelledUserIsFree | models/Subscription.ts:96-130 | after a cancel the user has no active row and the tier is FREE |
| SubscriptionModel.SubscriptionTable.GetUserSubscription | models/Subscription.ts:5-20 | the user's single active row is found, and a row is found only when the user has exactly one active row |
| SubscriptionModel.SubscriptionTable.GetTier | models/Subscription.ts:124-141 | a tier other than FREE is the tier of the row `getUserSubscription` finds; without exactly one active row it is FREE; an unexpired single active row gives its tier unless the lookup faults |
| SubscriptionModel.SubscriptionTable.CreateUserSubscription | models/Subscription.ts:35-60 | the result is `InsertRow`; on success the row is appended, otherwise the table is unchanged |
| SubscriptionModel.SubscriptionTable.UpdateUserSubscription | models/Subscription.ts:62-94 | the rows become `UpdateRows`, or stay unchanged on an error |
| SubscriptionModel.SubscriptionTable.CancelUserSubscription | models/Subscription.ts:96-122 | the rows become `CancelRows`, or stay unchanged on an error |
| SubscriptionController.ClerkPlanTier | controllers/SubscriptionController.ts:56-65 | "basic" and "core_learner" give BASIC, "pro" gives PRO, anything else FREE |
| SubscriptionController.GetUserTier | controllers/SubscriptionController.ts:43-80 | not signed in fails; active metadata decides by plan id; otherwise the stored tier of the local user, or FREE without one |
| SubscriptionController.TierOrFree | controllers/SubscriptionController.ts:93 | a failed or empty tier reads as FREE |
| SubscriptionController.CompanionLimitForTier | controllers/SubscriptionController.ts:163-176 | -1 exactly for PRO and ENTERPRISE |
| SubscriptionController.SessionLimitForTier | controllers/SubscriptionController.ts:178-191 | -1 exactly for PRO and ENTERPRISE |
| SubscriptionController.LimitTablesDifferOnlyAtBasic | controllers/SubscriptionController.ts:163-191 | the controller's table equals the model's on every tier but BASIC, where it is 25/250 against 15/100 |
| SubscriptionController.BasicLimitsAreCoreLearners | controllers/SubscriptionController.ts:163-191 | the controller's BASIC limits are the "core-learner" plan's, not the "basic" plan's |
| SubscriptionController.AtLimitOnlyUnlimitedPasses | controllers/SubscriptionController.ts:146-147 | at a tier's own limit the flag holds only for an unlimited tier |
| SubscriptionController.GetUsageStatsForUser | controllers/SubscriptionController.ts:111-160 | counts (null as 0) with the controller's limits and the flags `limit == -1 or used < limit`; the 0/3/0/10 defaults on a count error |
| SubscriptionController.GetUserUsageStats | controllers/SubscriptionController.ts:83-109 | fails exactly when not signed in or unknown locally; otherwise the snapshot for the caller's tier |
| SubscriptionController.RequiredTier | controllers/SubscriptionController.ts:210-217 | FREE asks for BASIC, and every other tier for PRO |
| SubscriptionController.CheckCompanionLimit | controllers/SubscriptionController.ts:193-237 | fails exactly when the usage fails; allowed exactly when `canCreateCompanion`; a refusal carries the prompt from the current to the required tier |
| SubscriptionController.CheckSessionLimit | controllers/SubscriptionController.ts:239-283 | the same for sessions, with `canStartSession` and the session prompt |
| SubscriptionController.UnlimitedTierNeverRefused | controllers/SubscriptionController.ts:193-251 | a signed-in PRO or ENTERPRISE caller is always allowed, whatever the counts |
| SubscriptionController.CompanionMessageAtThree | controllers/SubscriptionController.ts:223 | the prompt text for limit 3 and BASIC, written out |
| SubscriptionController.FreeUserAtThreeCompanions | controllers/SubscriptionController.ts:193-232 | a FREE user with three companions is refused with the prompt from FREE to BASIC |
| SubscriptionController.PeriodEnd | controllers/SubscriptionController.ts:322-329 | a monthly period ends the length of the start's month later, any other period one calendar year (365 or 366 days) later; either is a valid date exactly when that end is within the `Date` range |
| SubscriptionController.NewSubscriptionFor | controllers/SubscriptionController.ts:331-339 | the new row is active on the plan's id and tier from now to the period end, not cancelling |
| SubscriptionController.CreateSubscription | controllers/SubscriptionController.ts:294-346 | the guards in order (signed in, known user, known plan, no active subscription), each leaving the table unchanged; then the insert |
| SubscriptionController.CreatedRowIsActive | controllers/SubscriptionController.ts:322-339 | a created row is the user's active row on the plan's tier, and its period end lies after its start |
| SubscriptionController.SyncPatch | controllers/SubscriptionController.ts:464-471 | the update writes plan, tier, status, period and flag from Clerk and leaves the Stripe ids alone |
| SubscriptionController.SyncFields | controllers/SubscriptionController.ts:474-482 | the new row carries the plan and the Clerk status, period and flag |
| SubscriptionController.CatalogPlanFor | controllers/SubscriptionController.ts:452 | a found plan carries the Clerk plan id; a missing plan id finds nothing |
| SubscriptionController.SyncSubscriptionFromClerk | controllers/SubscriptionController.ts:429-490 | no metadata gives null; a plan id with no catalog plan gives "Plan configuration mismatch" with nothing written; otherwise the active row is updated or a row is created |
| ClerkBilling.Spread | lib/clerk-billing.ts:68-69 | spreading an object gives its fields; spreading anything else gives no fields |
| ClerkBilling.CreatedRecord | lib/clerk-billing.ts:12-36 | the record is active on the plan from now to 30·24·3600·1000 ms later, not cancelling; it throws exactly when that end is out of the time range |
| ClerkBilling.UpdatedRecord | lib/clerk-billing.ts:61-72 | a new plan id and `updatedAt`; every other field of the current record is kept |
| ClerkBilling.CancelledRecord | lib/clerk-billing.ts:90-102 | status "cancelled", `cancelAtPeriodEnd` true and `cancelledAt`; every other field is kept |
| ClerkBilling.Merge | lib/clerk-billing.ts:175-187 | the stored value after a metadata write is always an object |
| ClerkBilling.MergeOfSpreadIsReplacement | lib/clerk-billing.ts:61-115 | writing a record built by spreading the stored one stores exactly that record |
| ClerkBilling.CreateAfterCancelKeepsCancelledAt | lib/clerk-billing.ts:12-29 | a new subscription written over a cancelled one keeps the old `cancelledAt`, because the write only merges fields |
| ClerkBilling.AsSubscription | lib/clerk-billing.ts:41-56 | null exactly for an absent metadata value, otherwise the value itself |
| ClerkBilling.DateOf | lib/clerk-billing.ts:159-160 | `new Date` of a missing date is an invalid date; of a stored one, that time |
| ClerkBilling.SyncSubscriptionStatus | lib/clerk-billing.ts:146-170 | null exactly when the metadata is no object (or the read threw); otherwise plan, status and dates are mapped, with `cancelAtPeriodEnd` false unless it is true |
| ClerkBilling.SyncOfCreated | lib/clerk-billing.ts:12-36 | a freshly created record syncs as active, not cancelling, with a 30-day period |
| ClerkBilling.PlanFeatures | lib/clerk-billing.ts:201-207 | a missing plan id has no features |
| ClerkBilling.FeatureAccess | lib/clerk-billing.ts:192-213 | false without a subscription; access exactly when the feature is in the plan's table entry, so only the three table plans grant anything |
| ClerkBilling.FeatureSetsNested | lib/clerk-billing.ts:201-205 | basic's features are within core_learner's, and core_learner's within pro's, each strictly |
| ClerkBilling.FeatureAccessIgnoresStatus | lib/clerk-billing.ts:192-208 | access does not depend on the record's status |
| ClerkBilling.CancelledKeepsFeatures | lib/clerk-billing.ts:90-208 | a cancelled record still grants what it granted before the cancel |
| ClerkBilling.BillingStore.constructor | lib/clerk-billing.ts:4 | the store starts with the given metadata |
| ClerkBilling.BillingStore.GetUserSubscription | lib/clerk-billing.ts:41-56 | an unknown user (the lookup throws) gives null; otherwise the truthy metadata value |
| ClerkBilling.BillingStore.SyncStatus | lib/clerk-billing.ts:146-170 | a mapped record is only returned for a known user whose metadata is an object |
| ClerkBilling.BillingStore.HasFeatureAccess | lib/clerk-billing.ts:192-213 | access is only granted for a known user whose metadata is an object |
| ClerkBilling.BillingStore.CreateSubscription | lib/clerk-billing.ts:12-36 | an unknown user throws and changes nothing; otherwise the created record is merged into that user's metadata alone |
| ClerkBilling.BillingStore.UpdateSubscription | lib/clerk-billing.ts:61-85 | an unknown user throws; otherwise that user's metadata becomes the updated record and nothing else changes |
| ClerkBilling.BillingStore.CancelSubscription | lib/clerk-billing.ts:90-115 | an unknown user throws; otherwise that user's metadata becomes the cancelled record and nothing else changes |
| ClerkWebhook.StatusCode | app/api/webhooks/clerk/route.ts:18-103 | every response has status 501, 400, 200 or 500 |
| ClerkWebhook.Dispatch | app/api/webhooks/clerk/route.ts:73-91 | an event is unhandled exactly when its type is none of the five known types; only "subscription.updated" goes to the updated handler |
| ClerkWebhook.ItemPlanId | app/api/webhooks/clerk/route.ts:154 | `plan_id` when truthy, else `plan?.id` |
| ClerkWebhook.ExtractPlanId | app/api/webhooks/clerk/route.ts:147-165 | the `plan_id` of the first "active" or "upcoming" item when truthy; otherwise (no live item, or one without a `plan_id`) the first item's `plan_id` or `plan.id`; no items or no truthy id gives none |
| ClerkWebhook.LiveItemTakesPrecedence | app/api/webhooks/clerk/route.ts:148-149 | the first live item with a plan id decides, wherever it stands |
| ClerkWebhook.FirstItemFallback | app/api/webhooks/clerk/route.ts:152-155 | with no live item the first item's plan id is used, if truthy |
| ClerkWebhook.LiveItemWithoutPlanIdFallsBack | app/api/webhooks/clerk/route.ts:148-155 | a live item without a `plan_id` sends the lookup to the first item, never to a later item's plan |
| ClerkWebhook.FallbackPlan | app/api/webhooks/clerk/route.ts:288-298 | "basic", "core", "cplan" or "learner" in the id gives core-learner, else "pro" gives pro, else basic; always a catalog plan |
| ClerkWebhook.ResolvePlan | app/api/webhooks/clerk/route.ts:262-305 | exact Clerk plan id first, then internal id, then the substring fallback; a plan is always found, so the final throw cannot happen |
| ClerkWebhook.ResolveClerkPlanId | app/api/webhooks/clerk/route.ts:263 | every catalog Clerk plan id resolves to its own plan |
| ClerkWebhook.ResolveInternalId | app/api/webhooks/clerk/route.ts:263-272 | every catalog internal id resolves to its own plan |
| ClerkWebhook.CatalogIdsLackCplan | app/api/webhooks/clerk/route.ts:263-272 | an id containing "cplan" is none of the catalog's ids |
| ClerkWebhook.KnownIdsLackCplan | app/api/webhooks/clerk/route.ts:263-272 | an id containing "cplan" matches no plan by Clerk plan id or internal id |
| ClerkWebhook.CplanMeansCoreLearner | app/api/webhooks/clerk/route.ts:262-298 | any id containing "cplan" resolves to core-learner, even when it contains "pro" |
| ClerkWebhook.CoreLearnerProTrial | app/api/webhooks/clerk/route.ts:288-291 | "core_learner_pro_trial" resolves to core-learner, because the core test comes before the pro test |
| ClerkWebhook.ProAnnualV2Tests | app/api/webhooks/clerk/route.ts:288-291 | "pro_annual_v2" fails the core-learner test and passes the pro test |
| ClerkWebhook.ProAnnualV2 | app/api/webhooks/clerk/route.ts:291-292 | "pro_annual_v2" resolves to the unlimited pro plan |
| ClerkWebhook.UpperCaseTests | app/api/webhooks/clerk/route.ts:288-291 | the tests are case-sensitive: "PRO_plan" passes neither |
| ClerkWebhook.UpperCaseFallsToBasic | app/api/webhooks/clerk/route.ts:294-296 | "PRO_plan" resolves to basic |
| ClerkWebhook.ParseDate | app/api/webhooks/clerk/route.ts:183-196 | a positive timestamp in the time range is used as milliseconds; a missing, zero, negative or out-of-range one gives now |
| ClerkWebhook.ScaledDate | app/api/webhooks/clerk/route.ts:350-351 | the create branch of the updated handler multiplies by 1000 with no guard; a missing timestamp gives an invalid date |
| ClerkWebhook.ScaledDateDisagreesWithParseDate | app/api/webhooks/clerk/route.ts:317-351 | for the same positive timestamp the update branch and the create branch store different dates |
| ClerkWebhook.ScaledDateOverflows | app/api/webhooks/clerk/route.ts:350-351 | a millisecond timestamp above the range divided by 1000 is accepted by `parseDate` and becomes an invalid date when scaled |
| ClerkWebhook.CreatedFields | app/api/webhooks/clerk/route.ts:136-208 | a row is written exactly when there is a payer, a plan id, a local user and a catalog plan with that Clerk plan id; the row then holds those and the parsed dates |
| ClerkWebhook.CreatedWrite | app/api/webhooks/clerk/route.ts:136-217 | the created handler either leaves the table or appends one row; with nothing to write it leaves the table |
| ClerkWebhook.CreatedAlwaysInserts | app/api/webhooks/clerk/route.ts:198-208 | with a free id the created handler always appends, even when the user already has an active row |
| ClerkWebhook.DuplicateCreatedEventMeansFree | app/api/webhooks/clerk/route.ts:198-208 | a created event delivered twice leaves two active rows, so the user's tier reads as FREE |
| ClerkWebhook.UpdatedPatch | app/api/webhooks/clerk/route.ts:332-341 | the update writes the plan, the status or "active", the parsed dates, the flag or false, and the Stripe ids |
| ClerkWebhook.UpdatedNewFields | app/api/webhooks/clerk/route.ts:345-355 | the create branch writes the seconds-scaled dates and otherwise the same fields |
| ClerkWebhook.UpdatedWrite | app/api/webhooks/clerk/route.ts:220-368 | no payer, no plan id and no local user fail in that order; otherwise the single active row is patched (always succeeding when its id is unique), or, with no active row, `NewRow` of the scaled fields is appended (always succeeding with valid dates and a free id) |
| ClerkWebhook.UpdatedInsertNeedsTimestamps | app/api/webhooks/clerk/route.ts:345-355 | with no active row and a missing period timestamp the insert fails, so the event gets a 500 |
| ClerkWebhook.UpdatedReplayIsIdempotent | app/api/webhooks/clerk/route.ts:309-341 | an updated event replayed over its own result changes nothing more |
| ClerkWebhook.CancelledWrite | app/api/webhooks/clerk/route.ts:370-390 | no user id or no local user writes nothing; otherwise the active row is cancelled, and a failed cancel is swallowed |
| ClerkWebhook.CancelledEventMeansFree | app/api/webhooks/clerk/route.ts:370-390 | after a cancelled event the user's tier is FREE |
| ClerkWebhook.UserUpdatedRow | app/api/webhooks/clerk/route.ts:117-134 | a local user gets the first email, the trimmed name and the image when truthy, each falling back to the stored one; an unknown user is not written |
| ClerkWebhook.BlankUserUpdateKeepsProfile | app/api/webhooks/clerk/route.ts:126-128 | an update with no names and no image keeps the stored name and image |
| ClerkWebhook.Outcome | app/api/webhooks/clerk/route.ts:18-103 | no secret gives 501; a missing svix header gives 400; a body that is not JSON then fails the request (500, thrown outside every `try`); a failed verification gives 400; each with nothing written; of the handlers only the updated one can fail the request; the table changes only on a 200 |
| ClerkWebhook.StatusDecision | app/api/webhooks/clerk/route.ts:18-103 | 501 exactly without a secret, 400 exactly for missing headers or a failed verification of a JSON body, 500 exactly for a body that is not JSON or when the updated handler fails |
| ClerkWebhook.UnknownEventAcknowledged | app/api/webhooks/clerk/route.ts:89-93 | an unknown event type is answered `{received: true}` and writes nothing |
| ClerkWebhook.HandleSubscriptionCreated | app/api/webhooks/clerk/route.ts:136-218 | the table becomes `CreatedWrite` of the old rows |
| ClerkWebhook.HandleSubscriptionUpdated | app/api/webhooks/clerk/route.ts:220-368 | the table becomes `UpdatedWrite`, or the error is rethrown with the table unchanged |
| ClerkWebhook.HandleSubscriptionCancelled | app/api/webhooks/clerk/route.ts:370-390 | the table becomes `CancelledWrite` of the old rows |
| ClerkWebhook.Post | app/api/webhooks/clerk/route.ts:18-103 | the response, the table and the user write are those of `Outcome` |
| Time.MakeDate | app/api/webhooks/clerk/route.ts:189-190 | `new Date(ms)` is valid exactly for a time value within ±8.64e15 ms, and then holds that value |
| Calendar.TimeWithinDay | controllers/SubscriptionController.ts:325-329 | the time of day lies in [0, 86400000) and splits the time value with the day number |
| Calendar.ToCivil | controllers/SubscriptionController.ts:325-329 | `getFullYear`/`getMonth`/`getDate` give a calendar date of the year containing the day, whose day number is that day |
| Calendar.CivilRoundTrip | controllers/SubscriptionController.ts:325-329 | a calendar date read back from its day number is unchanged |
| Calendar.MonthOf | controllers/SubscriptionController.ts:326 | `getMonth()` lies in 0..11 |
| Calendar.AddOneMonth | controllers/SubscriptionController.ts:325-326 | a monthly period ends the length of the start's month later, and is a valid date exactly when that end is in the time range |
| Calendar.MonthLater | controllers/SubscriptionController.ts:326 | `setMonth(getMonth() + 1)` computes a time value `DaysInMonth` days later |
| Calendar.NextMonthStart | controllers/SubscriptionController.ts:326 | the first of the next month, December rolling over to January of the next year, lies `DaysInMonth` after the first of this month |
| Calendar.NextMonthDay | controllers/SubscriptionController.ts:326 | a date up to the 28th exists in the next month, and month number 12 means January of the next year |
| Calendar.AddOneMonthKeepsDate | controllers/SubscriptionController.ts:325-326 | for a date up to the 28th the monthly period ends on the same date and time of day in the next month |
| Calendar.AddOneYear | controllers/SubscriptionController.ts:327-328 | a yearly period ends the length of the current year later for a January or February start, of the next year from March on; it is a valid date exactly when that end lies within the `Date` range |
| Calendar.YearLater | controllers/SubscriptionController.ts:328 | the same date a year later lies this year's length on for January and February and the next year's from March on, 365 or 366 days |
| Calendar.AddOneYearKeepsDate | controllers/SubscriptionController.ts:328 | apart from 29 February, one year later is the same month, date and time of day in the next year |
| Calendar.AddOneYearFromLeapDay | controllers/SubscriptionController.ts:328 | 29 February moves to 1 March of the next year, at the same time of day |
| Calendar.NotBothLeap | controllers/SubscriptionController.ts:328 | two consecutive years are never both leap years |
| LearningSessionModel.NewSession | models/LearningSession.ts:7-17 | the inserted row carries the given user and companion, status pending, started now, and no other field set |
| LearningSessionModel.InsertSession | models/LearningSession.ts:7-24 | the insert succeeds exactly when the new id is free, and then yields the new pending row |
| LearningSessionModel.ApplyPatch | models/LearningSession.ts:72-75 | every field the update carries is replaced, every other one kept, identity and start untouched, and `updatedAt` set to now |
| LearningSessionModel.UpdateRows | models/LearningSession.ts:68-86 | the update succeeds exactly when one row has the id; then that row and only that row is patched, and it is the one returned |
| LearningSessionModel.CompletionPatch | models/LearningSession.ts:97-102 | the completion writes the supplied fields, status completed and `endedAt` now |
| LearningSessionModel.CompleteRows | models/LearningSession.ts:88-113 | a completed session has status completed, ended and updated now, and every supplied field |
| LearningSessionModel.GetSessionStats | models/LearningSession.ts:115-153 | a failed query gives zeros; rated ≤ completed ≤ total ≤ number of rows |
| LearningSessionModel.RowwiseStats | models/LearningSession.ts:129-143 | the row-by-row reference sum respects rated ≤ completed ≤ total ≤ number of rows |
| LearningSessionModel.StatsCons | models/LearningSession.ts:129-143 | the filter/reduce pipeline over one more row adds exactly that row's contribution |
| LearningSessionModel.StatsConsOther | models/LearningSession.ts:125 | another user's row adds nothing |
| LearningSessionModel.StatsConsUnfinished | models/LearningSession.ts:130 | an unfinished row of the user adds one to the total only |
| LearningSessionModel.StatsConsCompleted | models/LearningSession.ts:130-135 | a completed row adds its duration, and its rating when truthy |
| LearningSessionModel.RowwiseSingle | models/LearningSession.ts:129-143 | the reference sum of one row is that row's contribution |
| LearningSessionModel.StatsAppend | models/LearningSession.ts:129-143 | statistics over two batches of rows add up |
| LearningSessionModel.StatsAppendRow | models/LearningSession.ts:129-143 | appending a row adds its contribution |
| LearningSessionModel.PlusAssociative | models/LearningSession.ts:132-135 | adding statistics is associative |
| LearningSessionModel.PlusNothing | models/LearningSession.ts:132-135 | zero statistics are neutral |
| LearningSessionModel.ZeroRatingIsIgnored | models/LearningSession.ts:133 | a completed session rated 0 counts as completed but not in the rating average |
| LearningSessionModel.UnfinishedSessionCountsOnlyInTotal | models/LearningSession.ts:130-142 | a session that is not completed changes only `totalSessions` |
| LearningSessionModel.OtherUsersRowsIgnored | models/LearningSession.ts:125 | another user's rows do not affect the statistics |
| LearningSessionModel.CompletingCountsOnce | models/LearningSession.ts:88-143 | completing one unfinished session raises `completedSessions` by one and leaves `totalSessions` |
| LearningSessionModel.CreatedSessionIsPending | models/LearningSession.ts:7-41 | a created session is pending, started now, and found afterwards under its id |
| LearningSessionModel.LearningSessionTable.constructor | models/LearningSession.ts:4-5 | the table starts with the given rows |
| LearningSessionModel.LearningSessionTable.GetSessionById | models/LearningSession.ts:27-41 | a returned row has the id and is in the table; null exactly when zero or several rows have it |
| LearningSessionModel.LearningSessionTable.GetSessionStatsFor | models/LearningSession.ts:115-153 | the statistics equal the row-by-row sum, or zeros after a failed query |
| LearningSessionModel.LearningSessionTable.CreateSession | models/LearningSession.ts:7-25 | a created row is appended and returned; otherwise null and the table is unchanged |
| LearningSessionModel.LearningSessionTable.UpdateSession | models/LearningSession.ts:68-86 | the table becomes `UpdateRows` and the patched row is returned, or null with the table unchanged |
| LearningSessionModel.LearningSessionTable.CompleteSession | models/LearningSession.ts:88-113 | the table becomes `CompleteRows` and the completed row is returned, or null with the table unchanged |
| SessionHistoryModel.NewSession | models/SessionHistory.ts:7-16 | the inserted row carries the caller's fields with `completedAt` now |
| SessionHistoryModel.InsertSession | models/SessionHistory.ts:7-23 | the insert succeeds exactly when the new id is free, and then yields the stamped row |
| SessionHistoryModel.ApplyPatch | models/SessionHistory.ts:88 | every field the update carries is replaced, every other one kept, and nothing is stamped |
| SessionHistoryModel.UpdateRows | models/SessionHistory.ts:84-99 | the update succeeds exactly when one row has the id; then that row and only that row is patched, and it is the one returned |
| SessionHistoryModel.GetUserSessionStats | models/SessionHistory.ts:101-135 | a failed query gives zeros; rated ≤ total ≤ number of rows |
| SessionHistoryModel.RowwiseStats | models/SessionHistory.ts:114-126 | the row-by-row reference sum respects rated ≤ total ≤ number of rows |
| SessionHistoryModel.StatsCons | models/SessionHistory.ts:114-126 | the filter/reduce pipeline over one more row adds exactly that row's contribution |
| SessionHistoryModel.StatsConsOwn | models/SessionHistory.ts:114-119 | one more row of the user adds one session, its duration or 0, and its rating unless null |
| SessionHistoryModel.RowwiseSingle | models/SessionHistory.ts:114-126 | the reference sum of one row is that row's contribution |
| SessionHistoryModel.StatsAppendRow | models/SessionHistory.ts:114-126 | appending a row adds its contribution |
| SessionHistoryModel.PlusAssociative | models/SessionHistory.ts:116-119 | adding statistics is associative |
| SessionHistoryModel.PlusNothing | models/SessionHistory.ts:116-119 | zero statistics are neutral |
| SessionHistoryModel.RecordedSessionCounts | models/SessionHistory.ts:114-119 | every row of the user counts, with its duration or 0, and its rating unless null, a rating of 0 included |
| SessionHistoryModel.OtherUsersRowsIgnored | models/SessionHistory.ts:110 | another user's rows do not affect the statistics |
| SessionHistoryModel.CreateAddsDuration | models/SessionHistory.ts:7-16 | recording a session adds its duration to the user's total |
| SessionHistoryModel.SessionHistoryTable.constructor | models/SessionHistory.ts:4-5 | the table starts with the given rows |
| SessionHistoryModel.SessionHistoryTable.GetSessionById | models/SessionHistory.ts:65-82 | a returned row has the id and is in the table; null exactly when zero or several rows have it (the joined companion is not modelled) |
| SessionHistoryModel.SessionHistoryTable.GetUserSessionStatsFor | models/SessionHistory.ts:101-135 | the statistics equal the row-by-row sum, or zeros after a failed query |
| SessionHistoryModel.SessionHistoryTable.CreateSession | models/SessionHistory.ts:7-24 | a created row is appended and returned; otherwise null and the table is unchanged |
| SessionHistoryModel.SessionHistoryTable.UpdateSession | models/SessionHistory.ts:84-99 | the table becomes `UpdateRows` and the patched row is returned, or null with the table unchanged |
| Accounts.Authenticate | controllers/UserController.ts:9-23 | no signed-in user gives "User not authenticated", no local user for the Clerk id gives "User not found", and success returns exactly that local user |
| Accounts.DisplayName | controllers/UserController.ts:46 | the stored name is at most as long as first name, a space and last name, and neither starts nor ends with whitespace |
| Accounts.DisplayNameJoins | controllers/UserController.ts:46 | two name parts without outer whitespace are joined by exactly one space |
| Accounts.DisplayNameFirstOnly | controllers/UserController.ts:46 | without a last name the stored name is the trimmed first name |
| Accounts.DisplayNameLastOnly | controllers/UserController.ts:46 | without a first name the stored name is the trimmed last name |
| Accounts.DisplayNameEmpty | controllers/UserController.ts:46 | the stored name is empty exactly when both parts are absent or whitespace, so the webhook keeps the stored name |
| Accounts.DisplayNameOfNothing | controllers/UserController.ts:46 | with neither name part the stored name is empty |
| LearningSessionController.RoundedMinutes | controllers/LearningSessionController.ts:183 | the minutes lie within half a minute of the duration in milliseconds, a half rounding up |
| LearningSessionController.RoundedMinutesUnique | controllers/LearningSessionController.ts:183 | no other number of minutes lies within half a minute |
| LearningSessionController.RoundedMinutesMonotone | controllers/LearningSessionController.ts:195 | a longer call never gets fewer minutes |
| LearningSessionController.GetLearningSession | controllers/LearningSessionController.ts:82-112 | the authentication error, then "Learning session not found", then "Unauthorized to access this session"; success returns the caller's own session with that id |
| LearningSessionController.CallMinutes | controllers/LearningSessionController.ts:172-184 | a call duration exists exactly when the session has a call id and the call details carry both timestamps, and it is their rounded difference |
| LearningSessionController.CompletionFor | controllers/LearningSessionController.ts:169-202 | the caller's feedback and rating, the call's transcript, and the call's duration unless missing or 0, else the minutes since the session started; a duration is always supplied |
| LearningSessionController.ZeroDurationMeansShortSession | controllers/LearningSessionController.ts:192-196 | a stored duration of 0 means the session lasted under half a minute |
| LearningSessionController.NoCallIdIgnoresCall | controllers/LearningSessionController.ts:172 | without a call id the call details are not consulted |
| LearningSessionController.ActivationPatch | controllers/LearningSessionController.ts:64-67 | the activation writes the call id and status active and nothing else |
| LearningSessionController.UpdateFreshRow | controllers/LearningSessionController.ts:41-67 | updating the row just inserted under a fresh id rewrites that row alone |
| LearningSessionController.StartLearningSession | controllers/LearningSessionController.ts:14-80 | each guard failure leaves the table unchanged; success appends the new session, activated when the companion has an assistant and the call was created, and returns the pending row as created |
| LearningSessionController.CompleteLearningSession | controllers/LearningSessionController.ts:137-213 | a guard failure changes nothing; otherwise the owner's session is completed with `CompletionFor` and returned |
| LearningSessionController.CompletedSessionIsOwnersAndCompleted | controllers/LearningSessionController.ts:137-213 | the completed row belongs to the caller, is completed at now and has a duration |
| LearningSessionController.GetLearningStats | controllers/LearningSessionController.ts:215-241 | the authentication error, or the caller's statistics |
| SessionController.CreateSession | controllers/SessionController.ts:11-40 | the authentication error or "Failed to create session" leave the table unchanged; success appends and returns the caller's row with the companion, the duration and `completedAt` now |
| SessionController.GetSessionById | controllers/SessionController.ts:76-89 | "Session not found" exactly when no single row has the id; otherwise a row with that id from the table |
| SessionController.FeedbackGuard | controllers/SessionController.ts:91-114 | the authentication error, then "Session not found", then "Unauthorized to update this session"; success is the caller's own session |
| SessionController.FeedbackPatch | controllers/SessionController.ts:116-119 | the update writes the feedback, the rating when given, and not the duration |
| SessionController.UpdateSessionFeedback | controllers/SessionController.ts:91-130 | a guard failure changes nothing; otherwise the session is patched and returned |
| SessionController.FeedbackChangesOnlyFeedback | controllers/SessionController.ts:116-119 | for the owner only the session's feedback and rating change, and every other row stays |
| SessionController.GetUserSessionStatsFor | controllers/SessionController.ts:132-157 | the authentication error, or the caller's history statistics |
| CompanionController.ApplyPatch | models/Companion.ts:99-106 | the update never changes the row's id |
| CompanionController.ApplyPatchIdentityAndIdempotent | models/Companion.ts:99-106 | an update that supplies nothing keeps the row, and the same update written twice changes nothing more |
| CompanionController.ApplyPatchFields | models/Companion.ts:103 | name, subject, topic, voice and style take the supplied value, and keep theirs when left out |
| CompanionController.ApplyPatchOtherFields | models/Companion.ts:103 | duration, author, visibility, assistant id and instructions take the supplied value, and keep theirs when left out |
| CompanionController.CompanionTable.constructor | models/Companion.ts:4-5 | the table starts with the given rows |
| CompanionController.CompanionTable.GetCompanionById | models/Companion.ts:30-44 | a returned row has the id and is in the table; null exactly when zero or several rows have it |
| CompanionController.CompanionTable.CreateCompanion | models/Companion.ts:7-28 | a row under a free id is appended and returned; a taken id gives null and no change |
| CompanionController.CompanionTable.UpdateCompanion | models/Companion.ts:99-114 | the one row with the id is patched and returned, or null with the table unchanged |
| CompanionController.CompanionTable.DeleteCompanion | models/Companion.ts:116-129 | every row with the id is removed, the others kept in order, and true is returned |
| CompanionController.InstructionsFor | controllers/CompanionController.ts:52-58 | the caller's instructions when truthy, otherwise the generated text for the companion |
| CompanionController.NewCompanion | controllers/CompanionController.ts:80-85 | the stored row carries the caller's fields, the instructions, the assistant id if any, and the caller as author; an absent `isPublic` is false |
| CompanionController.LimitRefusal | controllers/CompanionController.ts:37-49 | creation goes ahead exactly when the check succeeded and allows it; a failed check gives its error, a refusal gives the upgrade message or the fixed text |
| CompanionController.CreationFollowsCompanionLimit | controllers/CompanionController.ts:37-49 | with the reply of `checkCompanionLimit`, creation goes ahead exactly when the usage statistics allow another companion, and a failed usage lookup gives "Failed to check companion limit" |
| CompanionController.CreateCompanion | controllers/CompanionController.ts:14-103 | the authentication error and a limit refusal change nothing; otherwise the new companion is appended and returned, or "Failed to create companion" when its id is taken |
| CompanionController.OwnedCompanion | controllers/CompanionController.ts:154-177 | the authentication error, then "Companion not found", then "Unauthorized to update this companion" or "… delete …"; success is the caller's own companion |
| CompanionController.UpdateCompanion | controllers/CompanionController.ts:154-190 | only the author's update reaches the table; a guard failure changes nothing |
| CompanionController.DeleteCompanion | controllers/CompanionController.ts:192-228 | only the author's companion is removed; a guard failure changes nothing |
| CompanionController.DeleteRemovesOne | models/Companion.ts:116-129 | deleting an existing companion removes exactly one row and keeps every other |
| CompanionController.NewestFirst | models/Companion.ts:70 | `createdAt` descending is the table in reverse order of insertion |
| CompanionController.PageStartNext | models/Companion.ts:69 | the next page starts one page size further on |
| CompanionController.AllCompanionsMatch | models/Companion.ts:46-80 | every listed companion is in the table and passes the subject, topic and author filters, and a page holds at most `limit` rows |
| CompanionController.PageWindow | models/Companion.ts:67-70 | page `page` is the run of matching companions from `(page - 1) * limit`, at most `limit` long |
| CompanionController.ConsecutivePages | models/Companion.ts:67-70 | two consecutive pages together are the run twice as long |
| CompanionController.UnfilteredFirstPage | models/Companion.ts:46-70 | without filters the first page is the `limit` newest companions |
| CompanionController.UserCompanions | models/Companion.ts:82-97 | only the author's companions, as many as the author has up to `limit`; a negative limit gives none |
| CompanionController.GetAllCompanions | controllers/CompanionController.ts:105-114 | always succeeds with the model's listing |
| CompanionController.GetCompanionById | controllers/CompanionController.ts:116-129 | "Companion not found" exactly when no single row has the id; otherwise a row with that id |
| CompanionController.GetUserCompanions | controllers/CompanionController.ts:131-152 | the authentication error, or at most `limit` (default 10) of the caller's own companions |
| CompanionController.GetCompanionStats | controllers/CompanionController.ts:230-260 | the numbers of companions and of the caller's companions, each capped at 1000, the caller's never above the total |
| CompanionForm.LengthIssues | views/forms/CompanionForm.tsx:17 | no message exactly when the length lies within the bounds |
| CompanionForm.RequiredIssues | views/forms/CompanionForm.tsx:18 | no message exactly when the text is non-empty |
| CompanionForm.DurationIssues | views/forms/CompanionForm.tsx:22 | no message exactly when the duration lies in 5..120 minutes |
| CompanionForm.Validate | views/forms/CompanionForm.tsx:16-25 | the form passes exactly when every bound holds, and then yields its values with `isPublic` defaulted to false; otherwise every failed check's message, in schema order |
| CompanionForm.DefaultsSatisfySchema | views/forms/CompanionForm.tsx:41-44 | the defaults (30 minutes, private) pass the schema once the text fields are filled in |
| CompanionForm.EmptyNameReportedFirst | views/forms/CompanionForm.tsx:17 | an empty name is the first message reported |
| UserController.MergePreferences | controllers/UserController.ts:156-159 | every supplied preference key overrides, every other one is kept |
| UserController.MergeIdentityAndIdempotent | controllers/UserController.ts:156-159 | merging nothing keeps the preferences, and merging the same keys twice is merging them once |
| UserController.MergeComposes | controllers/UserController.ts:156-159 | two successive merges are one merge of the combined keys, the later ones winning |
| UserController.FullPatchReplaces | controllers/UserController.ts:156-159 | supplying every key replaces all preferences |
| UserController.NewUser | controllers/UserController.ts:43-48 | a new user gets the Clerk id, the first email address or "", the trimmed display name and the image |
| UserController.DefaultProfile | controllers/UserController.ts:57-68 | a new user's profile has the default preferences (light, "en", notifications on, female, casual) and no bio or goals |
| UserController.UserDirectory.constructor | models/User.ts:7-13 | the tables start with the given rows |
| UserController.UserDirectory.GetUserProfile | models/User.ts:88-102 | a returned profile belongs to the user and is in the table; null exactly when the user has zero or several profiles |
| UserController.UserDirectory.CreateUser | models/User.ts:7-21 | a user under a free id is appended and returned; a taken id gives null; profiles untouched |
| UserController.UserDirectory.CreateUserProfile | models/User.ts:72-86 | a profile under a free id is appended and returned; a taken id gives null; users untouched |
| UserController.UserDirectory.UpdatePreferences | models/User.ts:104-118 | the user's one profile gets the new preferences and is returned, or null with nothing changed |
| UserController.CreateOrUpdateUser | controllers/UserController.ts:30-76 | no signed-in user writes nothing; a known user is returned as stored; otherwise the new user is appended and returned with a default profile, whose failure is ignored, or "Failed to create user" with nothing written |
| UserController.GetUserProfile | controllers/UserController.ts:78-107 | a given user id is looked up without sign-in; otherwise the authentication error, or success exactly when the caller has a single profile, which is returned; zero or several profiles give "Profile not found" |
| UserController.UpdateUserPreferences | controllers/UserController.ts:136-174 | the authentication error or "Profile not found" write nothing; otherwise the caller's profile gets the merged preferences and is returned; users never change |
| UserController.PreferenceUpdateTouchesOnlyOwnProfile | controllers/UserController.ts:150-163 | only the caller's profile changes, and only in its preferences |
| Utils.SubjectsMatchColors | lib/utils.ts:8-24 | the subject list and the colour table name the same six subjects, each once |
| Utils.GetSubjectColor | lib/utils.ts:31-33 | a subject in the table gets its colour, any other the grey "#f3f4f6"; the colour is never empty |
| Utils.ListedSubjectsAreColored | lib/utils.ts:8-33 | every listed subject has a colour of its own |
| Utils.FormatDuration | lib/utils.ts:35-48 | under an hour "m min"; whole hours "Hh"; otherwise "Hh Mm" with hours the floor and minutes the remainder |
| Utils.FormatDurationInjective | lib/utils.ts:35-48 | different durations are never displayed alike |
| Utils.DurationLastChar | lib/utils.ts:37-47 | the last character tells which of the three forms the text has |
| Utils.FormatDate | lib/utils.ts:50-75 | "Unknown date" exactly for a falsy argument; "Invalid date" exactly for a date whose time value is NaN |
| Utils.EpochIsUnknown | lib/utils.ts:51-53 | the number 0 is a falsy argument, so the epoch passed as a number reads as an unknown date, unlike the same instant as a `Date` |
| SessionsPage.FormatDuration | app/sessions/page.tsx:39-46 | with at least one whole hour (floor) "Hh Mm", the minutes being the truncating remainder, otherwise "Mm" |
| SessionsPage.WholeHoursKeepMinutes | app/sessions/page.tsx:42-45 | 120 minutes reads "2h 0m", 5 reads "5m", 65 reads "1h 5m" |
| SessionsPage.FormatDurationInjective | app/sessions/page.tsx:39-46 | different non-negative durations are never displayed alike |
| SessionsPage.HourForm | app/sessions/page.tsx:43 | the hour form is the hour digits, 'h', and the minutes part |
| SessionsPage.MinutesOnlyHasNoHour | app/sessions/page.tsx:45 | the minutes-only form contains no 'h' |
| SessionsPage.NegativeDurationsCollide | app/sessions/page.tsx:40-45 | -5 and -65 minutes both read "-5m" |
| LearningSessionInterface.FormatTime | views/components/LearningSessionInterface.tsx:164-168 | the floor of the minutes and the remainder of the seconds, each padded to at least two characters with "0", around a colon |
| LearningSessionInterface.FormatTimeRoundTrip | views/components/LearningSessionInterface.tsx:164-168 | under 100 minutes the display is five characters "MM:SS" whose two fields read back as minutes and seconds below 60 making up the input |
| LearningSessionInterface.FieldsOf | views/components/LearningSessionInterface.tsx:165-167 | for 0 to 5999 seconds the fields are the padded quotient and remainder by 60 |
| LearningSessionInterface.ClockJoin | views/components/LearningSessionInterface.tsx:167 | two two-digit fields around a colon make five characters and read back as those fields |
| LearningSessionInterface.LongSessionsKeepAllDigits | views/components/LearningSessionInterface.tsx:167 | 6000 seconds reads "100:00": `padStart` never cuts the minutes |
| Vapi.StyleBlock | lib/vapi.ts:99-117 | the appended style block is never empty |
| Vapi.StyleBlockIffCasual | lib/vapi.ts:99-117 | the casual block exactly for the style "casual", the formal block for every other style |
| Vapi.GenerateInstructions | lib/vapi.ts:61-118 | the instructions are strictly longer than the base instructions |
| Vapi.InstructionsBeginWithBase | lib/vapi.ts:99-117 | the instructions begin with the base instructions |
| Vapi.InstructionsStartWithName | lib/vapi.ts:68 | the instructions begin with "You are " and the companion's name |
| Vapi.FromBase | lib/vapi.ts:68-117 | whatever the base instructions contain, the instructions contain |
| Vapi.FromAfterName | lib/vapi.ts:68-97 | whatever the template after the name contains, the instructions contain |
| Vapi.FromAfterSubject | lib/vapi.ts:68-97 | whatever the template after the subject contains, the instructions contain |
| Vapi.FromAfterStyle | lib/vapi.ts:71-97 | whatever the template after the style contains, the instructions contain |
| Vapi.FromAfterTopic | lib/vapi.ts:72-97 | whatever the template after the topic contains, the instructions contain |
| Vapi.InstructionsMentionCompanion | lib/vapi.ts:68-73 | the instructions mention the companion's name, subject, style, topic and duration |
| Vapi.GetVoiceConfig | lib/vapi.ts:120-133 | "male" gets the male voice and every other voice type the female one, always from 11labs |
| Vapi.UnknownVoiceIsFemale | lib/vapi.ts:132 | any voice type but "male" is configured exactly like "female" |
| VapiUtils.VoiceIdsNonEmpty | lib/vapi-utils.ts:4-7 | every voice id in the table is non-empty |
| VapiUtils.SelectVoiceId | lib/vapi-utils.ts:13-21 | the table entry for a known voice and style, otherwise "sarah" |
| VapiUtils.ConfigureAssistant | lib/vapi-utils.ts:9-58 | the configuration carries the selected voice id, 11labs, deepgram nova-2 in en-US, openai gpt-4o-mini with the tutor system message, 150 tokens, the name "AI Tutor" and its greeting, spoken first by the assistant |

## Behaviour of the code as written

The model follows the code, including where it behaves in ways a reader might not expect.
Each point below is stated by a member in the table above.

- The repository has two BASIC limit tables: 25/250 in `controllers/SubscriptionController.ts`
  and 15/100 in `models/Subscription.ts`. The model keeps both, each where the code uses it,
  and proves that they differ only at BASIC.
- The created-event handler always inserts. A created event delivered twice leaves two
  active rows, and the user's tier then reads as FREE (`ClerkWebhook.DuplicateCreatedEventMeansFree`).
- The create branch of the updated-event handler multiplies the period timestamps by 1000,
  while the update branch uses them as milliseconds (`ClerkWebhook.ScaledDateDisagreesWithParseDate`).
- The webhook resolver always finds a plan with the shipped catalog, so its final "no
  fallback" error is unreachable (`ClerkWebhook.ResolvePlan`).
- Learning-session statistics leave out a rating of 0, because they test the rating for
  truthiness. The session history counts it, because it tests for null.
- `startLearningSession` returns the row as it was created, still pending, even when it goes
  on to activate the session with a Vapi call id.
- `hasFeatureAccess` ignores the subscription status, so cancelled metadata still grants its
  plan's features.

## Left out

- I/O, React rendering, logging, and the Supabase, Clerk, Svix and Vapi clients. Their
  outcomes are parameters of the model.
- Floating point. `averageRating` is kept as a rating sum and a rating count, so the division
  is not modelled. The voice tuning constants and the "% used" displays are left out too.
- LearningSessionController.RoundedMinutes: models `Math.round` on the exact quotient. It
  does not model binary floating-point rounding of `ms / 1000 / 60`.
- Locale and time-zone formatting (`toLocaleDateString`, `Intl.DateTimeFormat`).
  `Utils.FormatDate` returns the time value it would format, and `formatDateTime` is not
  modelled. Date strings are not parsed; they are passed on as text.
- The server-local start of the month in the usage statistics. The counts of companions and
  sessions since then are inputs.
- `Calendar` works in UTC. Local time-zone offsets in `setMonth`/`setFullYear` are not
  modelled.
- Listing queries are not modelled: `getUserSessions` and `getRecentSessions` in both session
  models, `getUserLearningSessions`, and `getUserSessions`/`getRecentSessions` in
  `controllers/SessionController.ts`. They only rely on the database for order and limit.
- `getAllCompanions` and `getUserCompanions` assume that `createdAt` order is insertion order.
  The `ilike` topic filter is modelled as a case-sensitive substring test, without `%` or `_`
  wildcards in the search text. A topic containing `,`, `(` or `)` breaks the `.or(...)` filter
  string built in `models/Companion.ts`; the query then fails and the source returns `[]`, which
  the model does not capture.
- A page range or limit the database refuses reads as an empty list, as the caught error
  does in `models/Companion.ts`.
- `updateUserProfile`, `getUserById`, `updateUser`, `getCompanionCount`, `cn` and the `voices`
  table of `lib/utils.ts` are not modelled: no core operation depends on them.
- Database faults other than "no single matching row" are not modelled, and neither is any
  thrown exception outside the webhook. Because of this, an owner's companion update, delete
  or learning-session completion always succeeds in the model.
- SubscriptionController.CatalogPlanFor: a metadata `planId` of JSON `null` is read as absent. The
  source would match it to the FREE plan, whose Clerk plan id is `null`; the model answers "Plan
  configuration mismatch".
- SessionHistoryModel.SessionHistoryTable.GetSessionById: the `companion:companions(*)` join is not
  modelled; the row is returned without its companion.
- CompanionController.ApplyPatch: a `Partial<Companion>` may carry a new `id`, but the model's
  patch has no id field.
- Lookups of JavaScript prototype keys (for example `voices["constructor"]`) are not modelled.
  A map lookup misses wherever the key is not an own key of the table.
- Zod validates `duration` as any number. The model takes integers, and it counts string
  lengths in `char`s rather than UTF-16 code units.
- Clerk's `updateUserMetadata` is modelled as a merge where the fields present in the new
  record override the stored ones.
- The `SubscriptionTier` enum values are not defined in the modelled files. They are taken to
  be "free", "basic", "pro" and "enterprise".
- Tier.Unlisted: the datatype itself admits `Unlisted("pro")`, which the source could not tell
  from PRO. Stored tier strings are taken to reach the model through `ParseTier`, which maps the
  four listed names to their own constructors; a hand-built unlisted tier with a listed name is
  outside what `Normalised` allows, and the limit lemmas say nothing about it.
- `isPublic` left out of a new companion takes the column default, taken to be false.
- The `COMPANION_LIMITS` table of `lib/constants.ts` is not modelled: no modelled code reads it.
- app/api/subscription/refresh/route.ts is not part of this model: the function it imports
  does not exist in the controller.
