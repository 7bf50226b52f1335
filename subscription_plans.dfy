/** The subscription catalog and its lookups (lib/subscription-plans.ts). */
module SubscriptionPlans {
  import opened Wrappers
  import Seqs

  /** `SubscriptionTier`; `Unlisted` stands for any other string a record may carry. */
  datatype Tier = Free | Basic | Pro | Enterprise | Unlisted(name: string)

  /** The string value of a tier. */
  function TierName(t: Tier): (s: string)
    ensures t.Unlisted? ==> s == t.name
  {
    match t
    case Free => "free"
    case Basic => "basic"
    case Pro => "pro"
    case Enterprise => "enterprise"
    case Unlisted(name) => name
  }

  /** An unlisted tier never carries one of the four listed names. */
  predicate Normalised(t: Tier)
  {
    t.Unlisted? ==> t.name !in ["free", "basic", "pro", "enterprise"]
  }

  /** Reading a stored tier string: the four listed names become their own constructors. */
  function ParseTier(s: string): (t: Tier)
    ensures Normalised(t)
    ensures TierName(t) == s
  {
    if s == "free" then Free
    else if s == "basic" then Basic
    else if s == "pro" then Pro
    else if s == "enterprise" then Enterprise
    else Unlisted(s)
  }

  /** Reading back a normalised tier's name gives the tier, so tiers and strings correspond one to one. */
  lemma ParseTierName(t: Tier)
    requires Normalised(t)
    ensures ParseTier(TierName(t)) == t
  {
    if t.Unlisted? {
      assert t.name != "free" && t.name != "basic" && t.name != "pro" && t.name != "enterprise";
    }
  }

  /** A `SubscriptionPlan`; prices are in cents. */
  datatype Plan = Plan(
    id: string,
    name: string,
    tier: Tier,
    priceCents: nat,
    interval: string,
    companionLimit: int,
    sessionLimit: int,
    clerkPlanId: Option<string>,
    isPopular: bool,
    features: seq<string>)

  const FreePlan := Plan("free", "Free", Free, 0, "month", 3, 10, None, false,
    ["3 AI Companions", "10 Learning Sessions per month", "Basic voice interactions",
     "Session history", "Community companions access"])

  const BasicPlan := Plan("basic", "Basic", Basic, 999, "month", 15, 100, Some("basic"), false,
    ["15 AI Companions", "100 Learning Sessions per month", "Advanced voice interactions",
     "Priority support", "Session analytics", "Custom companion sharing", "Export session transcripts"])

  const CoreLearnerPlan := Plan("core-learner", "Core Learner", Basic, 1999, "month", 25, 250,
    Some("core_learner"), true,
    ["25 AI Companions", "250 Learning Sessions per month", "Advanced voice interactions",
     "Priority support", "Advanced session analytics", "Custom companion sharing",
     "Export session transcripts", "Learning progress tracking", "Personalized recommendations"])

  const ProPlan := Plan("pro", "Pro", Pro, 3999, "month", -1, -1, Some("pro"), false,
    ["Unlimited AI Companions", "Unlimited Learning Sessions", "Premium voice models",
     "Advanced analytics & insights", "Custom branding", "API access", "Priority support",
     "Early access to new features", "Team collaboration tools", "White-label options"])

  /** `SUBSCRIPTION_PLANS`, in catalog order. */
  const Catalog: seq<Plan> := [FreePlan, BasicPlan, CoreLearnerPlan, ProPlan]

  function HasId(planId: string): Plan -> bool
  {
    (p: Plan) => p.id == planId
  }

  function HasTier(t: Tier): Plan -> bool
  {
    (p: Plan) => p.tier == t
  }

  function HasClerkPlanId(clerkPlanId: string): Plan -> bool
  {
    (p: Plan) => p.clerkPlanId == Some(clerkPlanId)
  }

  function IsMonthly(): Plan -> bool
  {
    (p: Plan) => p.interval == "month"
  }

  /** `getSubscriptionPlan`. */
  function GetSubscriptionPlan(planId: string): (r: Option<Plan>)
    ensures r.Some? ==> r.value in Catalog && r.value.id == planId
    ensures r.None? <==> forall p :: p in Catalog ==> p.id != planId
  {
    Seqs.Find(Catalog, HasId(planId))
  }

  /** The catalog plan whose Clerk plan id is `clerkPlanId` (`plans.find(p => p.clerkPlanId === id)`). */
  function FindByClerkPlanId(clerkPlanId: string): (r: Option<Plan>)
    ensures r.Some? ==> r.value in Catalog && r.value.clerkPlanId == Some(clerkPlanId)
    ensures r.None? <==> forall p :: p in Catalog ==> p.clerkPlanId != Some(clerkPlanId)
  {
    Seqs.Find(Catalog, HasClerkPlanId(clerkPlanId))
  }

  /** `getSubscriptionPlansByTier`. */
  function GetSubscriptionPlansByTier(t: Tier): (r: seq<Plan>)
    ensures forall p :: p in r <==> p in Catalog && p.tier == t
  {
    Seqs.FilterMembers(Catalog, HasTier(t));
    Seqs.Filter(Catalog, HasTier(t))
  }

  /** `getDefaultPlanForTier`: the first monthly plan of the tier, else its first plan. */
  function GetDefaultPlanForTier(t: Tier): (r: Option<Plan>)
    ensures r.Some? ==> r.value in Catalog && r.value.tier == t
    ensures r.None? <==> forall p :: p in Catalog ==> p.tier != t
  {
    var plans := GetSubscriptionPlansByTier(t);
    var monthly := Seqs.Find(plans, IsMonthly());
    if monthly.Some? then monthly
    else if |plans| > 0 then (assert plans[0] in plans; Some(plans[0]))
    else None
  }

  /** `COMPANION_LIMITS`; `None` for a key the object lacks. */
  function CompanionLimits(t: Tier): (r: Option<int>)
    ensures r.None? <==> t.Unlisted?
  {
    match t
    case Free => Some(3)
    case Basic => Some(15)
    case Pro => Some(-1)
    case Enterprise => Some(-1)
    case Unlisted(_) => None
  }

  /** `SESSION_LIMITS`; `None` for a key the object lacks. */
  function SessionLimits(t: Tier): (r: Option<int>)
    ensures r.None? <==> t.Unlisted?
  {
    match t
    case Free => Some(10)
    case Basic => Some(100)
    case Pro => Some(-1)
    case Enterprise => Some(-1)
    case Unlisted(_) => None
  }

  /** The internal plan ids are pairwise distinct. */
  lemma CatalogIdsUnique()
    ensures forall i, j :: 0 <= i < j < |Catalog| ==> Catalog[i].id != Catalog[j].id
  {
  }

  /** The Clerk plan ids that are set are pairwise distinct, and only the FREE plan has none. */
  lemma ClerkPlanIdsUnique()
    ensures forall i, j :: 0 <= i < j < |Catalog| && Catalog[i].clerkPlanId.Some? ==>
              Catalog[i].clerkPlanId != Catalog[j].clerkPlanId
    ensures forall p :: p in Catalog ==> (p.clerkPlanId.None? <==> p.tier == Free)
  {
  }

  /** Each shipped internal id finds its plan. */
  lemma IdLookups()
    ensures GetSubscriptionPlan("free") == Some(FreePlan) && GetSubscriptionPlan("basic") == Some(BasicPlan)
    ensures GetSubscriptionPlan("core-learner") == Some(CoreLearnerPlan) && GetSubscriptionPlan("pro") == Some(ProPlan)
  {
    GetSubscriptionPlanExact("free", FreePlan);
    GetSubscriptionPlanExact("basic", BasicPlan);
    GetSubscriptionPlanExact("core-learner", CoreLearnerPlan);
    GetSubscriptionPlanExact("pro", ProPlan);
  }

  /** Each shipped Clerk plan id finds its plan. */
  lemma ClerkIdLookups()
    ensures FindByClerkPlanId("basic") == Some(BasicPlan) && FindByClerkPlanId("core_learner") == Some(CoreLearnerPlan)
    ensures FindByClerkPlanId("pro") == Some(ProPlan)
  {
    FindByClerkPlanIdRoundTrip(BasicPlan);
    FindByClerkPlanIdRoundTrip(CoreLearnerPlan);
    FindByClerkPlanIdRoundTrip(ProPlan);
  }

  /** "free" and "core-learner" are internal ids only: no plan carries them as its Clerk plan id. */
  lemma InternalIdsAreNoClerkIds()
    ensures FindByClerkPlanId("free").None? && FindByClerkPlanId("core-learner").None?
  {
  }

  /** An id that is none of the shipped internal and Clerk plan ids finds no plan either way. */
  lemma UnknownIdLookups(planId: string)
    requires planId !in {"free", "basic", "core-learner", "pro", "core_learner"}
    ensures FindByClerkPlanId(planId).None? && GetSubscriptionPlan(planId).None?
  {
    assert forall j :: 0 <= j < |Catalog| ==> !HasId(planId)(Catalog[j]) && !HasClerkPlanId(planId)(Catalog[j]);
  }

  /** `getSubscriptionPlan` finds exactly the plan with the given id. */
  lemma GetSubscriptionPlanExact(planId: string, p: Plan)
    ensures GetSubscriptionPlan(planId) == Some(p) <==> p in Catalog && p.id == planId
  {
    CatalogIdsUnique();
  }

  /** Looking up a plan by its own Clerk plan id gives that plan back. */
  lemma FindByClerkPlanIdRoundTrip(p: Plan)
    requires p in Catalog && p.clerkPlanId.Some?
    ensures FindByClerkPlanId(p.clerkPlanId.value) == Some(p)
  {
    ClerkPlanIdsUnique();
  }

  /** `getSubscriptionPlansByTier` keeps the catalog order. */
  lemma {:induction false} PlansByTierInOrder(t: Tier)
    ensures GetSubscriptionPlansByTier(t) ==
              (if FreePlan.tier == t then [FreePlan] else []) + (if BasicPlan.tier == t then [BasicPlan] else [])
              + (if CoreLearnerPlan.tier == t then [CoreLearnerPlan] else []) + (if ProPlan.tier == t then [ProPlan] else [])
  {
    var p := HasTier(t);
    var c3 := [ProPlan];
    var c2 := [CoreLearnerPlan, ProPlan];
    var c1 := [BasicPlan, CoreLearnerPlan, ProPlan];
    assert c3[1..] == [];
    assert Seqs.Filter(c3, p) == (if p(ProPlan) then [ProPlan] else []);
    assert c2[1..] == c3;
    assert Seqs.Filter(c2, p) == (if p(CoreLearnerPlan) then [CoreLearnerPlan] else []) + Seqs.Filter(c3, p);
    assert c1[1..] == c2;
    assert Seqs.Filter(c1, p) == (if p(BasicPlan) then [BasicPlan] else []) + Seqs.Filter(c2, p);
    assert Catalog[1..] == c1;
    assert Seqs.Filter(Catalog, p) == (if p(FreePlan) then [FreePlan] else []) + Seqs.Filter(c1, p);
  }

  /** The plans the catalog lists for each tier, in catalog order. */
  function ShippedTierPlans(t: Tier): seq<Plan>
  {
    match t
    case Free => [FreePlan]
    case Basic => [BasicPlan, CoreLearnerPlan]
    case Pro => [ProPlan]
    case _ => []
  }

  /** The plans of each tier: BASIC has two, ENTERPRISE and unlisted tiers none. */
  lemma PlansByTierValues(t: Tier)
    ensures GetSubscriptionPlansByTier(t) == ShippedTierPlans(t)
  {
    PlansByTierInOrder(t);
  }

  /** Every plan is monthly, so each tier's default is its first plan: BASIC gives "basic", not "core-learner". */
  lemma DefaultPlanValues(t: Tier)
    ensures GetDefaultPlanForTier(t) == if t == Enterprise || t.Unlisted? then None else Some(ShippedTierPlans(t)[0])
  {
    PlansByTierValues(t);
  }

  /** Each plan carries its tier's table limits, except "core-learner" (BASIC, yet 25/250). */
  lemma PlanLimitsMatchTierTable(p: Plan)
    requires p in Catalog
    ensures p.id != "core-learner" ==>
              CompanionLimits(p.tier) == Some(p.companionLimit) && SessionLimits(p.tier) == Some(p.sessionLimit)
    ensures p.id == "core-learner" ==>
              p.tier == Basic && p.companionLimit == 25 && p.sessionLimit == 250
              && CompanionLimits(p.tier) == Some(15) && SessionLimits(p.tier) == Some(100)
  {
  }
}
