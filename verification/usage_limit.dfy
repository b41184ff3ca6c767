/** The monthly-allowance rules of `src/hooks/useUsageLimit.ts`. `usage` is `None` while the
    statistics are not loaded (or failed to load). */
module UsageLimit {
  import opened Wrappers
  import opened Plans

  /** `hasReachedLimit` */
  function HasReachedLimit(usage: Option<UsageStats>): (reached: bool)
    ensures usage.None? ==> !reached
    ensures usage.Some? && usage.value.receiptsLimit == Unlimited ==> !reached
    ensures usage.Some? && usage.value.receiptsLimit != Unlimited ==>
      (reached <==> usage.value.receiptsProcessedThisMonth >= usage.value.receiptsLimit)
  {
    if usage.None? then false
    else if usage.value.receiptsLimit == Unlimited then false
    else usage.value.receiptsProcessedThisMonth >= usage.value.receiptsLimit
  }

  /** `getRemainingReceipts`: -1 stands for unlimited. */
  function GetRemainingReceipts(usage: Option<UsageStats>): (remaining: int)
    ensures usage.None? ==> remaining == 0
    ensures usage.Some? && usage.value.receiptsLimit == Unlimited ==> remaining == Unlimited
    ensures usage.Some? && usage.value.receiptsLimit != Unlimited ==>
      remaining >= 0 && remaining >= usage.value.receiptsLimit - usage.value.receiptsProcessedThisMonth
      && (remaining == 0 || remaining == usage.value.receiptsLimit - usage.value.receiptsProcessedThisMonth)
  {
    if usage.None? then 0
    else if usage.value.receiptsLimit == Unlimited then Unlimited
    else Max(0, usage.value.receiptsLimit - usage.value.receiptsProcessedThisMonth)
  }

  function Max(a: int, b: int): int { if a >= b then a else b }

  /** `canProcessReceipt` */
  function CanProcessReceipt(usage: Option<UsageStats>): (can: bool)
    ensures can <==> !HasReachedLimit(usage)
  {
    !HasReachedLimit(usage)
  }

  /** With a finite limit, nothing remains exactly when the limit is reached, and what
      remains is the unused part of the allowance. */
  lemma RemainingIsZeroIffReached(usage: UsageStats)
    requires usage.receiptsLimit != Unlimited
    ensures GetRemainingReceipts(Some(usage)) == 0 <==> HasReachedLimit(Some(usage))
    ensures !HasReachedLimit(Some(usage)) ==>
      GetRemainingReceipts(Some(usage)) + usage.receiptsProcessedThisMonth == usage.receiptsLimit
  {
  }

  /** A JavaScript number as the percentage computation can produce it: a finite value, or
      NaN from 0 / 0. */
  datatype Percentage = Finite(value: real) | NotANumber

  /** `Math.min(x, 100)`, where NaN wins. */
  function MinHundred(p: Percentage): Percentage {
    match p
    case NotANumber => NotANumber
    case Finite(v) => if v <= 100.0 then p else Finite(100.0)
  }

  /** `processed / limit * 100`: a positive count over a zero limit is +Infinity, which
      `Math.min` then caps to 100. */
  function Ratio(processed: nat, limit: int): Percentage {
    if limit != 0 then Finite(processed as real / limit as real * 100.0)
    else if processed > 0 then Finite(100.0)
    else NotANumber
  }

  /** `getUsagePercentage` */
  function GetUsagePercentage(usage: Option<UsageStats>): (p: Percentage)
    ensures usage.None? || usage.value.receiptsLimit == Unlimited ==> p == Finite(0.0)
    ensures p.Finite? && usage.Some? && usage.value.receiptsLimit != Unlimited ==> p.value <= 100.0
  {
    if usage.None? || usage.value.receiptsLimit == Unlimited then Finite(0.0)
    else MinHundred(Ratio(usage.value.receiptsProcessedThisMonth, usage.value.receiptsLimit))
  }

  /** For a positive limit the percentage is a number between 0 and 100, and exactly 100
      once the limit is reached. */
  lemma PercentageBounds(usage: UsageStats)
    requires usage.receiptsLimit > 0
    ensures GetUsagePercentage(Some(usage)).Finite?
    ensures 0.0 <= GetUsagePercentage(Some(usage)).value <= 100.0
    ensures HasReachedLimit(Some(usage)) <==> GetUsagePercentage(Some(usage)).value == 100.0
  {
    var n := usage.receiptsProcessedThisMonth as real;
    var l := usage.receiptsLimit as real;
    var x := n / l * 100.0;
    assert x * l == n * 100.0;
    if n >= l {
      assert x >= 100.0;
    } else {
      assert x < 100.0;
    }
  }

  /** A zero limit: any use shows as full, and no use at all is NaN. */
  lemma ZeroLimitPercentage(usage: UsageStats)
    requires usage.receiptsLimit == 0
    ensures usage.receiptsProcessedThisMonth > 0 ==> GetUsagePercentage(Some(usage)) == Finite(100.0)
    ensures usage.receiptsProcessedThisMonth == 0 ==> GetUsagePercentage(Some(usage)) == NotANumber
  {
  }
}
