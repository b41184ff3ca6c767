/** The pure parts of `src/services/subscription.service.ts`: normalising the backend's
    subscription record, telling the two answer shapes apart, the plan-id-to-tier lookup,
    the usage statistics and the usage-limit check. The clock and the HTTP answers are
    parameters. */
module Subscription {
  import opened Wrappers
  import opened Api
  import opened Plans
  import UsageLimit

  /** The subscription record in any of the spellings the backend has used; every field
      may be missing. `status` is the raw text. */
  datatype BackendSubscription = BackendSubscription(
    id: Option<string>,
    subscriptionId: Option<string>,
    userId: Option<string>,
    planId: Option<string>,
    plan: Option<string>,
    status: Option<string>,
    currentPeriodStart: Option<string>,
    currentPeriodEnd: Option<string>,
    currentPeriodStartDate: Option<string>,
    currentPeriodEndDate: Option<string>,
    cancelAtPeriodEnd: Option<bool>,
    cancelAtPeriodEndSnake: Option<bool>,
    stripeSubscriptionId: Option<string>,
    stripeCustomerId: Option<string>,
    stripeSubscriptionIdSnake: Option<string>,
    stripeCustomerIdSnake: Option<string>,
    createdAt: Option<string>,
    updatedAt: Option<string>)

  /** What a `Date` was built from: the backend's date text (parsing it is not modelled) or
      the current instant in milliseconds. */
  datatype DateSource = FromText(text: string) | FromMillis(ms: int)

  datatype Subscription = Subscription(
    id: string,
    userId: string,
    planId: string,
    status: string,
    currentPeriodStart: DateSource,
    currentPeriodEnd: DateSource,
    cancelAtPeriodEnd: bool,
    stripeSubscriptionId: string,
    stripeCustomerId: string,
    createdAt: DateSource,
    updatedAt: DateSource)

  /** `new Date(text || now)` */
  function DateOr(text: Option<string>, now: int): (d: DateSource)
    ensures Truthy(text) ==> d == FromText(text.value)
    ensures !Truthy(text) ==> d == FromMillis(now)
  {
    if Truthy(text) then FromText(text.value) else FromMillis(now)
  }

  /** `a ?? b ?? false`: a present value wins even when it is `false`. */
  function FirstPresent(a: Option<bool>, b: Option<bool>): (r: bool)
    ensures a.Some? ==> r == a.value
    ensures a.None? && b.Some? ==> r == b.value
    ensures a.None? && b.None? ==> !r
  {
    if a.Some? then a.value else b.GetOr(false)
  }

  /** `mapBackendSubscription`; `now` is `Date.now()`. Each field takes the first of its
      spellings that is set and non-empty, then a default. */
  function MapBackendSubscription(sub: BackendSubscription, now: int): (s: Subscription)
    ensures Truthy(sub.id) ==> s.id == sub.id.value
    ensures !Truthy(sub.id) ==> s.id == OrElse(sub.subscriptionId, "")
    ensures s.userId == OrElse(sub.userId, "")
    ensures Truthy(sub.planId) ==> s.planId == sub.planId.value
    ensures !Truthy(sub.planId) && Truthy(sub.plan) ==> s.planId == sub.plan.value
    ensures !Truthy(sub.planId) && !Truthy(sub.plan) ==> s.planId == "free"
    ensures s.status == OrElse(sub.status, "active")
    ensures Truthy(sub.currentPeriodStart) ==> s.currentPeriodStart == FromText(sub.currentPeriodStart.value)
    ensures !Truthy(sub.currentPeriodStart) && Truthy(sub.currentPeriodStartDate) ==>
      s.currentPeriodStart == FromText(sub.currentPeriodStartDate.value)
    ensures !Truthy(sub.currentPeriodStart) && !Truthy(sub.currentPeriodStartDate) ==>
      s.currentPeriodStart == DateOr(sub.currentPeriodEnd, now)
    ensures Truthy(sub.currentPeriodEnd) ==> s.currentPeriodEnd == FromText(sub.currentPeriodEnd.value)
    ensures !Truthy(sub.currentPeriodEnd) ==> s.currentPeriodEnd == DateOr(sub.currentPeriodEndDate, now)
    ensures s.cancelAtPeriodEnd == FirstPresent(sub.cancelAtPeriodEnd, sub.cancelAtPeriodEndSnake)
    ensures s.stripeSubscriptionId == OrElse(sub.stripeSubscriptionId, OrElse(sub.stripeSubscriptionIdSnake, ""))
    ensures s.stripeCustomerId == OrElse(sub.stripeCustomerId, OrElse(sub.stripeCustomerIdSnake, ""))
    ensures s.createdAt == DateOr(sub.createdAt, now) && s.updatedAt == DateOr(sub.updatedAt, now)
  {
    Subscription(
      OrElse(sub.id, OrElse(sub.subscriptionId, "")),
      OrElse(sub.userId, ""),
      OrElse(sub.planId, OrElse(sub.plan, "free")),
      OrElse(sub.status, "active"),
      if Truthy(sub.currentPeriodStart) then FromText(sub.currentPeriodStart.value)
      else if Truthy(sub.currentPeriodStartDate) then FromText(sub.currentPeriodStartDate.value)
      else DateOr(sub.currentPeriodEnd, now),
      if Truthy(sub.currentPeriodEnd) then FromText(sub.currentPeriodEnd.value)
      else DateOr(sub.currentPeriodEndDate, now),
      FirstPresent(sub.cancelAtPeriodEnd, sub.cancelAtPeriodEndSnake),
      OrElse(sub.stripeSubscriptionId, OrElse(sub.stripeSubscriptionIdSnake, "")),
      OrElse(sub.stripeCustomerId, OrElse(sub.stripeCustomerIdSnake, "")),
      DateOr(sub.createdAt, now),
      DateOr(sub.updatedAt, now))
  }

  /** A record with no dates at all gets a period that starts and ends now; one with only
      an end date gets a period that starts where it ends. */
  lemma PeriodStartFallsBackToEnd(sub: BackendSubscription, now: int)
    requires !Truthy(sub.currentPeriodStart) && !Truthy(sub.currentPeriodStartDate)
    ensures Truthy(sub.currentPeriodEnd) ==>
      MapBackendSubscription(sub, now).currentPeriodStart == MapBackendSubscription(sub, now).currentPeriodEnd
    ensures !Truthy(sub.currentPeriodEnd) && !Truthy(sub.currentPeriodEndDate) ==>
      MapBackendSubscription(sub, now).currentPeriodStart == FromMillis(now)
      && MapBackendSubscription(sub, now).currentPeriodEnd == FromMillis(now)
  {
  }

  /** An empty record maps to the defaults: no ids, the free plan, active, not cancelling,
      every date now. */
  lemma EmptyRecordDefaults(now: int)
    ensures var s := MapBackendSubscription(BackendSubscription(None, None, None, None, None, None, None, None,
      None, None, None, None, None, None, None, None, None, None), now);
      s == Subscription("", "", "free", "active", FromMillis(now), FromMillis(now), false, "", "",
                        FromMillis(now), FromMillis(now))
  {
  }

  // ---- getSubscription ----

  /** The answer body. An `ApiResponse` envelope and a bare subscription record share the
      `status` key, so the body is read both ways: `fields` is the body as a subscription
      record (its `status` is the body's `status`), and `data` is the envelope's
      `data.subscription`: `None` when `data` is missing, `Some(None)` when it holds no
      subscription. */
  datatype Payload = Payload(fields: BackendSubscription, data: Option<Option<BackendSubscription>>)

  /** The request's outcome: an answer, or an HTTP failure with its status code when the
      server answered at all. */
  datatype Fetch = Answered(payload: Payload) | Failed(httpStatus: Option<int>, message: string)

  /** The envelope's subscription when the envelope succeeded and holds one. */
  function EnvelopeSubscription(p: Payload, now: int): Option<Subscription> {
    if p.fields.status == Some("success") && p.data.Some? && p.data.value.Some? then
      Some(MapBackendSubscription(p.data.value.value, now))
    else None
  }

  /** `getSubscription` as written: any body with a `status` key is taken for an envelope. */
  function GetSubscriptionAsWritten(fetch: Fetch, now: int): (r: Result<Option<Subscription>>)
    ensures fetch.Answered? && fetch.payload.fields.status.Some? ==>
      r == Ok(EnvelopeSubscription(fetch.payload, now))
  {
    match fetch
    case Failed(httpStatus, message) => if httpStatus == Some(404) then Ok(None) else Err(message)
    case Answered(p) =>
      if p.fields.status.Some? then Ok(EnvelopeSubscription(p, now))
      else Ok(Some(MapBackendSubscription(p.fields, now)))
  }

  /** The statuses a subscription record can carry. */
  predicate IsSubscriptionStatus(s: string) {
    s in {"active", "canceled", "past_due", "incomplete", "trialing"}
  }

  /** The statuses of an `ApiResponse` envelope. */
  predicate IsEnvelopeStatus(s: string) {
    s == "success" || s == "error"
  }

  /** A bare record that reports its own status, as the mapping expects it to, is read as
      a failed envelope and the subscription is dropped. */
  lemma DirectRecordWithStatusIsDropped(fields: BackendSubscription, now: int)
    requires fields.status == Some("active") && fields.planId == Some("pro")
    ensures GetSubscriptionAsWritten(Answered(Payload(fields, None)), now) == Ok(None)
  {
  }

  /** `getSubscription` with the shapes told apart by the envelope's own statuses: a body
      is an envelope when its `status` is 'success' or 'error', a subscription record
      otherwise. A 404 means no subscription; any other failure is passed on. */
  function GetSubscription(fetch: Fetch, now: int): (r: Result<Option<Subscription>>)
    ensures fetch.Failed? ==> (r == Ok(None) <==> fetch.httpStatus == Some(404))
    ensures fetch.Failed? && fetch.httpStatus != Some(404) ==> r == Err(fetch.message)
    ensures fetch.Answered? && fetch.payload.fields.status.Some? && IsEnvelopeStatus(fetch.payload.fields.status.value) ==>
      r == Ok(EnvelopeSubscription(fetch.payload, now))
    ensures fetch.Answered? && !(fetch.payload.fields.status.Some? && IsEnvelopeStatus(fetch.payload.fields.status.value)) ==>
      r == Ok(Some(MapBackendSubscription(fetch.payload.fields, now)))
  {
    match fetch
    case Failed(httpStatus, message) => if httpStatus == Some(404) then Ok(None) else Err(message)
    case Answered(p) =>
      if p.fields.status.Some? && IsEnvelopeStatus(p.fields.status.value) then Ok(EnvelopeSubscription(p, now))
      else Ok(Some(MapBackendSubscription(p.fields, now)))
  }

  /** The corrected reading keeps a bare record whatever subscription status it reports,
      and agrees with the code as written on envelopes and on records without a status. */
  lemma DirectRecordIsKept(fetch: Fetch, now: int)
    requires fetch.Answered? && fetch.payload.fields.status.Some?
    requires IsSubscriptionStatus(fetch.payload.fields.status.value)
    ensures GetSubscription(fetch, now) == Ok(Some(MapBackendSubscription(fetch.payload.fields, now)))
    ensures GetSubscription(fetch, now).value.value.status == fetch.payload.fields.status.value
  {
  }

  lemma CorrectedAgreesOnEnvelopes(fetch: Fetch, now: int)
    requires fetch.Answered? ==> fetch.payload.fields.status.None? || IsEnvelopeStatus(fetch.payload.fields.status.value)
    ensures GetSubscription(fetch, now) == GetSubscriptionAsWritten(fetch, now)
  {
  }

  // ---- getCurrentPlanTier ----

  /** What `planIdToTier[planId]` yields on the plain object literal: a tier for its own
      keys, an inherited `Object.prototype` member for one of those names, or nothing. */
  datatype TierLookup = Tier(tier: PlanTier) | InheritedMember(name: string) | Missing

  function PlanIdLookupAsWritten(planId: string): TierLookup {
    if planId == "free" then Tier(Free)
    else if planId == "basic" then Tier(Basic)
    else if planId == "pro" then Tier(Pro)
    else if planId in ObjectPrototypeMembers then InheritedMember(planId)
    else Missing
  }

  /** `planIdToTier[planId] || 'free'` as written: an inherited member is truthy and gets
      past the fallback. */
  function PlanTierAsWritten(planId: string): (r: TierLookup)
    ensures r.Tier? || r.InheritedMember?
  {
    match PlanIdLookupAsWritten(planId)
    case Missing => Tier(Free)
    case found => found
  }

  /** A plan id of "constructor" yields the inherited constructor function, not a tier. */
  lemma PrototypeKeyEscapesFallback()
    ensures PlanTierAsWritten("constructor") == InheritedMember("constructor")
  {
  }

  /** The intended lookup: the tier named by the plan id, and the free tier for any other
      id. */
  function PlanIdToTier(planId: string): (t: PlanTier)
    ensures planId in {"free", "basic", "pro"} ==> TierName(t) == planId
    ensures planId !in {"basic", "pro"} ==> t == Free
  {
    if planId == "basic" then Basic
    else if planId == "pro" then Pro
    else Free
  }

  /** The intended lookup agrees with the code wherever the code yields a tier, and the
      code yields a tier for every id but the inherited names. */
  lemma PlanIdToTierAgreesWithLookup(planId: string)
    ensures PlanTierAsWritten(planId).Tier? <==> planId !in ObjectPrototypeMembers
    ensures PlanTierAsWritten(planId).Tier? ==> PlanTierAsWritten(planId).tier == PlanIdToTier(planId)
  {
  }

  /** `getCurrentPlanTier`: the free tier when there is no subscription or the lookup
      failed, otherwise the tier of the subscription's plan. */
  function GetCurrentPlanTier(subscription: Result<Option<Subscription>>): (t: PlanTier)
    ensures subscription.Err? || subscription.value.None? ==> t == Free
    ensures subscription.Ok? && subscription.value.Some? ==> t == PlanIdToTier(subscription.value.value.planId)
  {
    if subscription.Err? || subscription.value.None? then Free
    else PlanIdToTier(subscription.value.value.planId)
  }

  /** Whatever the backend sends, the tier is one whose plan exists. */
  lemma CurrentTierHasAPlan(subscription: Result<Option<Subscription>>)
    ensures PlanForTier(GetCurrentPlanTier(subscription)).tier == GetCurrentPlanTier(subscription)
  {
    PlanForTierMatches(GetCurrentPlanTier(subscription));
  }

  // ---- getUsageStats ----

  /** The statistics payload: the number of receipts since the given date. */
  datatype ReceiptStats = ReceiptStats(count: nat, totalAmount: real)

  /** `date.setMonth(m)`: a month outside 0..11 rolls the year over. */
  function SetMonth(d: LocalDate, m: int): (r: LocalDate)
    ensures 0 <= r.month < 12
    ensures MonthIndex(r) == d.year * 12 + m
  {
    d.(year := d.year + m / 12, month := m % 12)
  }

  /** The count the statistics answer reports, or 0 when the answer is missing, not a
      success, or carries no data. */
  function ProcessedCount(response: Option<ApiResponse<ReceiptStats>>): nat {
    if response.Some? && response.value.status == "success" && response.value.data.Some? then
      response.value.data.value.count
    else 0
  }

  /** `getUsageStats`: the receipts counted since the start of the current month, the
      allowance of the current plan, and the start of next month as the reset date. `now`
      is the local date and time; `response` the statistics answer (`None` when the body is
      empty or has no `status`); `subscription` the result of fetching the subscription. */
  method GetUsageStats(now: LocalDate, response: Option<ApiResponse<ReceiptStats>>,
                       subscription: Result<Option<Subscription>>) returns (usage: UsageStats)
    requires 0 <= now.month < 12
    ensures usage.receiptsProcessedThisMonth == ProcessedCount(response)
    ensures !(response.Some? && response.value.status == "success") ==> usage.receiptsProcessedThisMonth == 0
    ensures usage.receiptsLimit == PlanForTier(GetCurrentPlanTier(subscription)).features.receiptsPerMonth
    ensures IsStartOfMonth(usage.resetDate) && 0 <= usage.resetDate.month < 12
    ensures MonthIndex(usage.resetDate) == MonthIndex(now) + 1
  {
    var startOfMonth := now;
    startOfMonth := startOfMonth.(day := 1);
    startOfMonth := startOfMonth.(hours := 0, minutes := 0, seconds := 0, millis := 0);

    var processed := ProcessedCount(response);

    var planTier := GetCurrentPlanTier(subscription);
    var plan := PlanForTier(planTier);
    var receiptsLimit := plan.features.receiptsPerMonth;

    var resetDate := startOfMonth;
    resetDate := SetMonth(resetDate, resetDate.month + 1);

    usage := UsageStats(processed, receiptsLimit, resetDate);
  }

  /** December's reset date is January of the next year; any other month's is the next
      month of the same year. */
  lemma ResetDateRollsOver(now: LocalDate, reset: LocalDate)
    requires 0 <= now.month < 12 && 0 <= reset.month < 12
    requires MonthIndex(reset) == MonthIndex(now) + 1
    ensures now.month == 11 ==> reset.year == now.year + 1 && reset.month == 0
    ensures now.month < 11 ==> reset.year == now.year && reset.month == now.month + 1
  {
  }

  /** The allowance in force is the one of the subscription's plan tier: 10, 100 or
      unlimited. */
  lemma LimitOfEachTier(subscription: Result<Option<Subscription>>)
    ensures var t := GetCurrentPlanTier(subscription);
      var limit := PlanForTier(t).features.receiptsPerMonth;
      && (t == Free ==> limit == 10)
      && (t == Basic ==> limit == 100)
      && (t == Pro ==> limit == Unlimited)
  {
    var t := GetCurrentPlanTier(subscription);
    PlanForTierMatches(t);
  }

  // ---- hasReachedUsageLimit ----

  /** `hasReachedUsageLimit`: `usage` is the outcome of `getUsageStats`; a failure counts
      as not reached. */
  function HasReachedUsageLimit(usage: Result<UsageStats>): (reached: bool)
    ensures usage.Err? ==> !reached
    ensures usage.Ok? && usage.value.receiptsLimit == Unlimited ==> !reached
    ensures usage.Ok? && usage.value.receiptsLimit != Unlimited ==>
      (reached <==> usage.value.receiptsProcessedThisMonth >= usage.value.receiptsLimit)
  {
    if usage.Err? then false
    else if usage.value.receiptsLimit == Unlimited then false
    else usage.value.receiptsProcessedThisMonth >= usage.value.receiptsLimit
  }

  /** The service's check and the hook's agree: a failed lookup behaves like statistics
      that are not loaded. */
  lemma ServiceAndHookAgree(usage: Result<UsageStats>)
    ensures HasReachedUsageLimit(usage)
         == UsageLimit.HasReachedLimit(if usage.Ok? then Some(usage.value) else None)
  {
  }
}
