/** Subscription plans (`fotoapp.plan`): validation of percentages and limits, the quota payload,
    freemium detection and the billing interval. */
module Plans {
  import opened Wrappers
  import Arith
  import Dates

  const FREEMIUM_CODE: string := "FREEMIUM"

  datatype Interval = Monthly | Quarterly | Yearly

  /** A product variant with the income accounts the invoicing looks at. */
  datatype Product = Product(id: nat, incomeAccount: Option<nat>, categoryIncomeAccount: Option<nat>)

  datatype Plan = Plan(
    id: nat,
    code: string,
    isFreemium: bool,
    billingInterval: Option<Interval>,
    monthlyFee: real,
    photoLimit: int,
    albumLimit: int,
    eventLimit: int,
    storageLimitGb: real,
    storageLimitMb: int,
    featuredEventLimit: int,
    downloadBundleLimit: int,
    commissionPercent: real,
    transactionFeePercent: real,
    subscriptionTemplate: Option<nat>,
    productVariant: Option<Product>,
    templateVariant: Option<Product>,
    journal: Option<nat>,
    incomeAccount: Option<nat>,
    taxIds: seq<nat>)

  datatype PlanError = NegativePercent | PercentOver100 | NegativeLimit | NegativeStorage

  /** `_check_percentages`: both percentages lie in [0, 100]; a negative one is reported first. */
  function CheckPercentages(p: Plan): (r: Option<PlanError>)
    ensures r == None <==> (0.0 <= p.commissionPercent <= 100.0 && 0.0 <= p.transactionFeePercent <= 100.0)
    ensures r == Some(NegativePercent) <==> (p.commissionPercent < 0.0 || p.transactionFeePercent < 0.0)
    ensures r == None || r == Some(NegativePercent) || r == Some(PercentOver100)
  {
    if p.commissionPercent < 0.0 || p.transactionFeePercent < 0.0 then Some(NegativePercent)
    else if p.commissionPercent > 100.0 || p.transactionFeePercent > 100.0 then Some(PercentOver100)
    else None
  }

  /** `_check_positive_limits` as written: photo, album and event limits and the deprecated GB
      limit must not be negative. The MB limit is not checked. */
  function CheckPositiveLimits(p: Plan): (r: Option<PlanError>)
    ensures r == None <==> (p.photoLimit >= 0 && p.albumLimit >= 0 && p.eventLimit >= 0 && p.storageLimitGb >= 0.0)
    ensures r == Some(NegativeLimit) <==> (p.photoLimit < 0 || p.albumLimit < 0 || p.eventLimit < 0)
  {
    if p.photoLimit < 0 || p.albumLimit < 0 || p.eventLimit < 0 then Some(NegativeLimit)
    else if p.storageLimitGb != 0.0 && p.storageLimitGb < 0.0 then Some(NegativeStorage)
    else None
  }

  /** The evidently intended limit check: the MB limit, which replaced the GB one, is also
      required to be non-negative. */
  function CheckPositiveLimitsIntended(p: Plan): (r: Option<PlanError>)
    ensures r == None <==> (CheckPositiveLimits(p) == None && p.storageLimitMb >= 0)
    ensures r == None ==> StorageLimitMb(p) >= 0
  {
    match CheckPositiveLimits(p)
    case Some(e) => Some(e)
    case None => if p.storageLimitMb < 0 then Some(NegativeStorage) else None
  }

  /** `storage_limit_mb or int(storage_limit_gb * 1024)`: the MB limit wins when set, otherwise
      the deprecated GB limit converted to MB and truncated. 0 means unlimited. */
  function StorageLimitMb(p: Plan): (r: int)
    ensures p.storageLimitMb != 0 ==> r == p.storageLimitMb
    ensures p.storageLimitMb == 0 && p.storageLimitGb >= 0.0 ==>
      0 <= r && r as real <= p.storageLimitGb * 1024.0 < r as real + 1.0
  {
    if p.storageLimitMb != 0 then p.storageLimitMb else Arith.Trunc(p.storageLimitGb * 1024.0)
  }

  /** The limit check as written lets a negative MB limit through, which makes the storage limit
      negative and so refuses every upload. */
  lemma NegativeMbAccepted()
    ensures var p := Plan(1, "PRO", false, None, 10.0, 0, 0, 0, 0.0, -1, 0, 0, 22.0, 3.0,
                          None, None, None, None, None, []);
      CheckPercentages(p) == None && CheckPositiveLimits(p) == None
      && CheckPositiveLimitsIntended(p) == Some(NegativeStorage) && StorageLimitMb(p) == -1
  {
  }

  datatype LimitPayload = LimitPayload(photo: int, album: int, event: int, storageMb: int,
                                       featured: int, downloadBundle: int)

  /** `get_limit_payload`: the plan's quotas, with storage reported in MB. */
  function GetLimitPayload(p: Plan): (r: LimitPayload)
    ensures r.photo == p.photoLimit && r.album == p.albumLimit && r.event == p.eventLimit
    ensures r.featured == p.featuredEventLimit && r.downloadBundle == p.downloadBundleLimit
    ensures p.storageLimitMb != 0 ==> r.storageMb == p.storageLimitMb
    ensures p.storageLimitMb == 0 && p.storageLimitGb >= 0.0 ==> r.storageMb == (p.storageLimitGb * 1024.0).Floor
  {
    LimitPayload(p.photoLimit, p.albumLimit, p.eventLimit, StorageLimitMb(p),
                 p.featuredEventLimit, p.downloadBundleLimit)
  }

  /** `is_freemium_plan`. */
  predicate IsFreemiumPlan(p: Plan) {
    p.isFreemium || p.code == FREEMIUM_CODE
  }

  /** `_get_subscription_interval_payload`: the number of months per billing cycle. */
  function IntervalMonths(p: Plan): (n: int)
    ensures n == 1 || n == 3 || n == 12
    ensures n == 3 <==> p.billingInterval == Some(Quarterly)
    ensures n == 12 <==> p.billingInterval == Some(Yearly)
    ensures n == 1 <==> (p.billingInterval == None || p.billingInterval == Some(Monthly))
  {
    match p.billingInterval.GetOr(Monthly)
    case Monthly => 1
    case Quarterly => 3
    case Yearly => 12
  }

  /** `date + _get_billing_relativedelta()`. */
  function AddBillingCycle(p: Plan, d: Dates.Date): (r: Dates.Date)
    ensures r.day <= d.day
  {
    Dates.AddMonths(d, IntervalMonths(p))
  }

  /** One billing cycle after a date is strictly later and keeps dates in order. */
  lemma BillingCycleAdvances(p: Plan, a: Dates.Date, b: Dates.Date)
    ensures Dates.Lt(a, AddBillingCycle(p, a))
    ensures Dates.Le(a, b) ==> Dates.Le(AddBillingCycle(p, a), AddBillingCycle(p, b))
    ensures Dates.MonthIndex(AddBillingCycle(p, a)) == Dates.MonthIndex(a) + IntervalMonths(p)
  {
    Dates.AddMonthsIsLater(a, IntervalMonths(p));
    Dates.MonthIndexShift(a, IntervalMonths(p));
    if Dates.Le(a, b) {
      Dates.AddMonthsMonotone(a, b, IntervalMonths(p));
    }
  }

  /** `_get_subscription_template`: the plan's own template, else the blueprint. */
  function SubscriptionTemplate(p: Plan, blueprint: Option<nat>): (r: Option<nat>)
    ensures p.subscriptionTemplate.Some? ==> r == p.subscriptionTemplate
    ensures p.subscriptionTemplate.None? ==> r == blueprint
  {
    if p.subscriptionTemplate.Some? then p.subscriptionTemplate else blueprint
  }

  datatype LineCreate = LineCreate(product: nat, quantity: real)

  /** `_prepare_subscription_line_commands`. */
  function SubscriptionLineCommands(p: Plan): (r: seq<LineCreate>)
    ensures p.productVariant.None? <==> r == []
    ensures p.productVariant.Some? ==> r == [LineCreate(p.productVariant.value.id, 1.0)]
  {
    match p.productVariant
    case None => []
    case Some(v) => [LineCreate(v.id, 1.0)]
  }

  /** `_get_plan_tax_ids`: the plan's taxes, else the company's default sale tax, else none. */
  function PlanTaxIds(p: Plan, companySaleTax: Option<nat>): (r: seq<nat>)
    ensures p.taxIds != [] ==> r == p.taxIds
    ensures p.taxIds == [] && companySaleTax.Some? ==> r == [companySaleTax.value]
    ensures p.taxIds == [] && companySaleTax.None? ==> r == []
  {
    if p.taxIds != [] then p.taxIds
    else match companySaleTax
      case Some(t) => [t]
      case None => []
  }
}
