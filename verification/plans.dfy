/** The subscription types and the `PLANS` table of `src/types/subscription.ts`. */
module Plans {
  import opened Wrappers

  datatype PlanTier = Free | Basic | Pro

  /** The tier's identifier text. */
  function TierName(t: PlanTier): string {
    match t
    case Free => "free"
    case Basic => "basic"
    case Pro => "pro"
  }

  datatype Interval = Month | Year

  /** `receiptsPerMonth` is -1 for unlimited. */
  datatype PlanFeatures = PlanFeatures(
    receiptsPerMonth: int,
    exportFormats: seq<string>,
    prioritySupport: bool,
    advancedAnalytics: bool,
    apiAccess: bool)

  /** A plan; `price` is in cents per billing interval. */
  datatype Plan = Plan(
    id: string,
    name: string,
    tier: PlanTier,
    price: int,
    interval: Interval,
    features: PlanFeatures,
    stripePriceId: Option<string>,
    description: string,
    popular: Option<bool>)

  /** The marker for an unlimited receipt allowance. */
  const Unlimited: int := -1

  const FreePlan: Plan := Plan("free", "Free", Free, 0, Month,
    PlanFeatures(10, ["CSV"], false, false, false),
    None, "Perfect for getting started", None)

  const BasicPlan: Plan := Plan("basic", "Basic", Basic, 900, Month,
    PlanFeatures(100, ["CSV", "PDF", "Excel"], false, true, false),
    None, "Great for individuals", Some(true))

  const ProPlan: Plan := Plan("pro", "Pro", Pro, 2900, Month,
    PlanFeatures(Unlimited, ["CSV", "PDF", "Excel", "JSON"], true, true, true),
    None, "For power users and businesses", None)

  /** `PLANS`, in the order the pricing page shows them. */
  const Plans: seq<Plan> := [FreePlan, BasicPlan, ProPlan]

  predicate IsPopular(p: Plan) {
    p.popular == Some(true)
  }

  /** Three plans with distinct ids, each with the tier its id names; the first is free. */
  lemma PlansAreWellFormed()
    ensures |Plans| == 3
    ensures forall i, j :: 0 <= i < j < |Plans| ==> Plans[i].id != Plans[j].id
    ensures forall i :: 0 <= i < |Plans| ==> Plans[i].id == TierName(Plans[i].tier)
    ensures Plans[0].tier == Free
  {
  }

  /** Prices are 0, 900 and 2900 cents, increasing with the tier. */
  lemma PricesIncrease()
    ensures Plans[0].price == 0 && Plans[1].price == 900 && Plans[2].price == 2900
    ensures forall i, j :: 0 <= i < j < |Plans| ==> Plans[i].price < Plans[j].price
  {
  }

  /** The allowances are 10, 100 and unlimited, and only the pro plan is unlimited. */
  lemma OnlyProIsUnlimited()
    ensures Plans[0].features.receiptsPerMonth == 10
    ensures Plans[1].features.receiptsPerMonth == 100
    ensures forall i :: 0 <= i < |Plans| ==>
      (Plans[i].features.receiptsPerMonth == Unlimited <==> Plans[i].tier == Pro)
  {
  }

  predicate IsPrefix(a: seq<string>, b: seq<string>) {
    |a| <= |b| && b[..|a|] == a
  }

  /** Each plan exports in every format of the plan before it, and more. */
  lemma ExportFormatsGrow()
    ensures forall i :: 0 <= i < |Plans| - 1 ==>
      IsPrefix(Plans[i].features.exportFormats, Plans[i + 1].features.exportFormats)
      && |Plans[i].features.exportFormats| < |Plans[i + 1].features.exportFormats|
  {
    assert BasicPlan.features.exportFormats[..1] == FreePlan.features.exportFormats;
    assert ProPlan.features.exportFormats[..3] == BasicPlan.features.exportFormats;
  }

  /** Exactly one plan, the basic one, is marked popular. */
  lemma OnlyBasicIsPopular()
    ensures forall i :: 0 <= i < |Plans| ==> (IsPopular(Plans[i]) <==> Plans[i].tier == Basic)
  {
  }

  /** `plans.find(p => p.tier === tier)` */
  function FindByTier(plans: seq<Plan>, tier: PlanTier): (r: Option<Plan>)
    ensures r.Some? ==> r.value in plans && r.value.tier == tier
    ensures r.None? ==> forall p :: p in plans ==> p.tier != tier
  {
    if plans == [] then None
    else if plans[0].tier == tier then Some(plans[0])
    else FindByTier(plans[1..], tier)
  }

  /** `PLANS.find(p => p.tier === tier) || PLANS[0]` */
  function PlanForTier(tier: PlanTier): (p: Plan)
    ensures p in Plans
  {
    FindByTier(Plans, tier).GetOr(Plans[0])
  }

  /** Every tier has its plan, so the fallback to the first plan is never taken. */
  lemma PlanForTierMatches(tier: PlanTier)
    ensures PlanForTier(tier).tier == tier
    ensures PlanForTier(tier).id == TierName(tier)
  {
    match tier
    case Free => assert FindByTier(Plans, Free) == Some(FreePlan);
    case Basic => assert FindByTier(Plans, Basic) == Some(BasicPlan);
    case Pro => assert FindByTier(Plans, Pro) == Some(ProPlan);
  }

  /** A local calendar date and time as `Date`'s getters report it: `month` counts from 0. */
  datatype LocalDate = LocalDate(year: int, month: int, day: int, hours: int, minutes: int, seconds: int, millis: int)

  predicate IsStartOfMonth(d: LocalDate) {
    d.day == 1 && d.hours == 0 && d.minutes == 0 && d.seconds == 0 && d.millis == 0
  }

  /** Months since year 0: orders dates by calendar month. */
  function MonthIndex(d: LocalDate): int {
    d.year * 12 + d.month
  }

  /** `UsageStats`: `receiptsLimit` is -1 for unlimited. */
  datatype UsageStats = UsageStats(receiptsProcessedThisMonth: nat, receiptsLimit: int, resetDate: LocalDate)
}
