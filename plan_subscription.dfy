/** Photographer subscriptions (`sale.subscription` with `fotoapp_is_photographer_plan`): usage
    counters, over-limit flags, storage admission, the state actions and the one-active-plan rule. */
module Subscriptions {
  import opened Wrappers
  import opened Dates
  import opened Plans
  import Arith
  import Orm

  datatype SubState = Draft | Trial | Active | Grace | Suspended | Expired | Canceled

  /** `BILLABLE_STATES`, also the "active" states of the uniqueness rule. */
  predicate Billable(s: SubState) { s == Trial || s == Active || s == Grace }

  datatype Subscription = Subscription(
    partner: nat,
    isPhotographerPlan: bool,
    plan: Option<Plan>,
    state: SubState,
    activationDate: Option<Date>,
    nextBillingDate: Option<Date>,
    endDate: Option<Date>,
    graceUntil: Option<Date>,
    cancellationDate: Option<Date>,
    usagePhotoCount: nat,
    usageAlbumCount: nat,
    usageEventCount: nat,
    usageStorageBytes: int,
    storageLimitBytes: int,
    isOverPhotoLimit: bool,
    isOverAlbumLimit: bool,
    isOverEventLimit: bool,
    isOverStorageLimit: bool)

  /** `_compute_usage_metrics`: counts of the linked records and the sum of the photos' sizes. */
  function WithUsage(s: Subscription, assetSizes: seq<nat>, albums: nat, events: nat): (r: Subscription)
    ensures r.usagePhotoCount == |assetSizes| && r.usageAlbumCount == albums && r.usageEventCount == events
    ensures r.usageStorageBytes == Arith.SumNat(assetSizes)
    ensures r.(usagePhotoCount := s.usagePhotoCount, usageAlbumCount := s.usageAlbumCount,
               usageEventCount := s.usageEventCount, usageStorageBytes := s.usageStorageBytes) == s
  {
    s.(usagePhotoCount := |assetSizes|, usageAlbumCount := albums, usageEventCount := events,
       usageStorageBytes := Arith.SumNat(assetSizes))
  }

  /** Adding one photo of `size` bytes grows the counters by exactly that photo. */
  lemma UsageAfterNewPhoto(s: Subscription, assetSizes: seq<nat>, size: nat, albums: nat, events: nat)
    ensures WithUsage(s, assetSizes + [size], albums, events).usageStorageBytes
            == WithUsage(s, assetSizes, albums, events).usageStorageBytes + size
    ensures WithUsage(s, assetSizes + [size], albums, events).usagePhotoCount
            == WithUsage(s, assetSizes, albums, events).usagePhotoCount + 1
  {
    Arith.SumNatAppend(assetSizes, [size]);
    assert Arith.SumNat([size]) == size by {
      assert [size][..0] == [];
    }
  }

  /** The storage quota in bytes; 0 (no plan, or a zero limit) means unlimited. */
  function StorageLimitBytes(plan: Option<Plan>): (r: int)
    ensures plan.None? ==> r == 0
    ensures plan.Some? ==> r == StorageLimitMb(plan.value) * 1024 * 1024
  {
    match plan
    case None => 0
    case Some(p) => StorageLimitMb(p) * 1024 * 1024
  }

  /** `_compute_limit_flags` on one subscription. */
  function WithLimitFlags(s: Subscription): (r: Subscription)
    ensures r.isOverPhotoLimit <==> (s.plan.Some? && s.plan.value.photoLimit != 0 && s.usagePhotoCount > s.plan.value.photoLimit)
    ensures r.isOverAlbumLimit <==> (s.plan.Some? && s.plan.value.albumLimit != 0 && s.usageAlbumCount > s.plan.value.albumLimit)
    ensures r.isOverEventLimit <==> (s.plan.Some? && s.plan.value.eventLimit != 0 && s.usageEventCount > s.plan.value.eventLimit)
    ensures r.storageLimitBytes == StorageLimitBytes(s.plan)
    ensures r.isOverStorageLimit <==> (r.storageLimitBytes != 0 && s.usageStorageBytes > r.storageLimitBytes)
    ensures r.(isOverPhotoLimit := s.isOverPhotoLimit, isOverAlbumLimit := s.isOverAlbumLimit,
               isOverEventLimit := s.isOverEventLimit, isOverStorageLimit := s.isOverStorageLimit,
               storageLimitBytes := s.storageLimitBytes) == s
  {
    var limitBytes := StorageLimitBytes(s.plan);
    s.(isOverPhotoLimit := s.plan.Some? && s.plan.value.photoLimit != 0 && s.usagePhotoCount > s.plan.value.photoLimit,
       isOverAlbumLimit := s.plan.Some? && s.plan.value.albumLimit != 0 && s.usageAlbumCount > s.plan.value.albumLimit,
       isOverEventLimit := s.plan.Some? && s.plan.value.eventLimit != 0 && s.usageEventCount > s.plan.value.eventLimit,
       storageLimitBytes := limitBytes,
       isOverStorageLimit := limitBytes != 0 && s.usageStorageBytes > limitBytes)
  }

  /** A zero storage limit never marks storage as over. */
  lemma UnlimitedStorageNeverOver(s: Subscription)
    requires s.plan.None? || StorageLimitMb(s.plan.value) == 0
    ensures !WithLimitFlags(s).isOverStorageLimit
  {
  }

  /** The `metric` argument of `check_limits`; any other string is `OtherMetric`. */
  datatype Metric = PhotoMetric | AlbumMetric | EventMetric | StorageMetric | OtherMetric

  /** `check_limits(metric)`. */
  predicate CheckLimits(s: Subscription, metric: Metric) {
    match s.plan
    case None => true
    case Some(p) =>
      if metric == PhotoMetric && p.photoLimit != 0 then s.usagePhotoCount <= p.photoLimit
      else if metric == AlbumMetric && p.albumLimit != 0 then s.usageAlbumCount <= p.albumLimit
      else if metric == EventMetric && p.eventLimit != 0 then s.usageEventCount <= p.eventLimit
      else if metric == StorageMetric then
        var limitMb := StorageLimitMb(p);
        var limitBytes := if limitMb != 0 then limitMb * 1024 * 1024 else 0;
        limitBytes == 0 || s.usageStorageBytes <= limitBytes
      else true
  }

  /** The over flag that corresponds to a metric. */
  function OverFlag(s: Subscription, metric: Metric): bool {
    match metric
    case PhotoMetric => s.isOverPhotoLimit
    case AlbumMetric => s.isOverAlbumLimit
    case EventMetric => s.isOverEventLimit
    case StorageMetric => s.isOverStorageLimit
    case OtherMetric => false
  }

  /** `check_limits(metric)` is exactly the negation of the stored over flag, once the flags are
      computed; an unknown metric always passes. */
  lemma CheckLimitsIsNotOver(s: Subscription, metric: Metric)
    ensures CheckLimits(s, metric) == !OverFlag(WithLimitFlags(s), metric)
  {
  }

  /** `can_store_bytes(n)`. */
  predicate CanStoreBytes(s: Subscription, n: int) {
    match s.plan
    case None => true
    case Some(p) =>
      var limitMb := StorageLimitMb(p);
      limitMb == 0 || s.usageStorageBytes + n <= limitMb * 1024 * 1024
  }

  /** `remaining_storage_bytes()`: `None` stands for the `False` returned when storage is unlimited. */
  function RemainingStorageBytes(s: Subscription): (r: Option<int>)
    ensures r.None? <==> StorageLimitBytes(s.plan) == 0
    ensures r.Some? ==> r.value >= 0
    ensures r.Some? ==> r.value == Arith.Max(StorageLimitBytes(s.plan) - s.usageStorageBytes, 0)
  {
    match s.plan
    case None => None
    case Some(p) =>
      var limitMb := StorageLimitMb(p);
      if limitMb == 0 then None
      else Some(Arith.Max(limitMb * 1024 * 1024 - s.usageStorageBytes, 0))
  }

  /** Admission and the remaining-space report agree: within quota, `n` bytes fit exactly when
      `n` is at most what remains; with no quota everything fits. */
  lemma CanStoreIffWithinRemaining(s: Subscription, n: int)
    requires s.usageStorageBytes <= StorageLimitBytes(s.plan) || StorageLimitBytes(s.plan) == 0
    ensures RemainingStorageBytes(s).None? ==> CanStoreBytes(s, n)
    ensures RemainingStorageBytes(s).Some? ==> (CanStoreBytes(s, n) <==> n <= RemainingStorageBytes(s).value)
  {
  }

  /** Admitting `n` bytes keeps the storage check satisfied once the usage has grown by `n`. */
  lemma AdmissionKeepsStorageLimit(s: Subscription, n: int)
    requires CanStoreBytes(s, n)
    ensures CheckLimits(s.(usageStorageBytes := s.usageStorageBytes + n), StorageMetric)
  {
  }

  /** `_compute_next_cycle_date(billing_date)`: one plan cycle later, or 30 days without a plan. */
  function NextCycleDate(s: Subscription, billing: Option<Date>): (r: Option<Date>)
    ensures r.None? <==> billing.None?
    ensures r.Some? ==> Lt(billing.value, r.value)
    ensures r.Some? && s.plan.Some? ==> r.value == AddBillingCycle(s.plan.value, billing.value)
    ensures r.Some? && s.plan.None? ==> r.value == AddDays(billing.value, 30)
  {
    match billing
    case None => None
    case Some(d) =>
      if s.plan.Some? then
        BillingCycleAdvances(s.plan.value, d, d);
        Some(AddBillingCycle(s.plan.value, d))
      else
        AddDaysIsLater(d, 30);
        Some(AddDays(d, 30))
  }

  /** `_eligible_for_billing` on one subscription. */
  predicate EligibleForBilling(s: Subscription) {
    s.isPhotographerPlan && Billable(s.state) && s.plan.Some? && !IsFreemiumPlan(s.plan.value)
  }

  /** `action_activate` on one subscription; the `write` hook's effect of an activation date
      (fill a missing next billing date) coincides with the action's own. */
  function Activate(s: Subscription, today: Date): (r: Subscription)
    ensures r.state != s.state || r != s ==>
      s.isPhotographerPlan && (s.state == Draft || s.state == Trial || s.state == Grace)
    ensures s.isPhotographerPlan && (s.state == Draft || s.state == Trial || s.state == Grace) ==>
      r.state == Active && r.activationDate == Some(today)
    ensures s.isPhotographerPlan && (s.state == Draft || s.state == Trial || s.state == Grace) && s.nextBillingDate.None? ==>
      r.nextBillingDate == NextCycleDate(s, Some(today))
    ensures s.nextBillingDate.Some? ==> r.nextBillingDate == s.nextBillingDate
    ensures r.nextBillingDate.None? ==> s.nextBillingDate.None? && r == s
    ensures r.(state := s.state, activationDate := s.activationDate, nextBillingDate := s.nextBillingDate) == s
  {
    if s.isPhotographerPlan && (s.state == Draft || s.state == Trial || s.state == Grace) then
      s.(state := Active, activationDate := Some(today),
         nextBillingDate := if s.nextBillingDate.None? then NextCycleDate(s, Some(today)) else s.nextBillingDate)
    else s
  }

  /** Activating twice is the same as activating once. */
  lemma ActivateIdempotent(s: Subscription, today: Date)
    ensures Activate(Activate(s, today), today) == Activate(s, today)
  {
  }

  /** `action_enter_grace` on one subscription: grace lasts 7 days unless a date is already set. */
  function EnterGrace(s: Subscription, today: Date): (r: Subscription)
    ensures !s.isPhotographerPlan ==> r == s
    ensures s.isPhotographerPlan ==> r.state == Grace
    ensures s.isPhotographerPlan && s.graceUntil.None? ==> r.graceUntil == Some(AddDays(today, 7))
    ensures s.graceUntil.Some? ==> r.graceUntil == s.graceUntil
    ensures r.(state := s.state, graceUntil := s.graceUntil) == s
  {
    if s.isPhotographerPlan then
      s.(state := Grace, graceUntil := if s.graceUntil.None? then Some(AddDays(today, 7)) else s.graceUntil)
    else s
  }

  /** `action_suspend` on one subscription. */
  function Suspend(s: Subscription): (r: Subscription)
    ensures !s.isPhotographerPlan ==> r == s
    ensures s.isPhotographerPlan ==> r.state == Suspended
    ensures r.(state := s.state) == s
  {
    if s.isPhotographerPlan then s.(state := Suspended) else s
  }

  /** `action_cancel` on one subscription. */
  function Cancel(s: Subscription, today: Date): (r: Subscription)
    ensures !s.isPhotographerPlan ==> r == s
    ensures s.isPhotographerPlan ==> r.state == Canceled && r.cancellationDate == Some(today)
    ensures r.(state := s.state, cancellationDate := s.cancellationDate) == s
  {
    if s.isPhotographerPlan then s.(state := Canceled, cancellationDate := Some(today)) else s
  }

  /** `action_mark_expired` on one subscription. */
  function MarkExpired(s: Subscription, today: Date): (r: Subscription)
    ensures !s.isPhotographerPlan ==> r == s
    ensures s.isPhotographerPlan ==> r.state == Expired && r.endDate == Some(today)
    ensures r.(state := s.state, endDate := s.endDate) == s
  {
    if s.isPhotographerPlan then s.(state := Expired, endDate := Some(today)) else s
  }

  /** `_handle_successful_payment` on one subscription: active again, grace cleared, activated
      today. The `write` hook then gives a subscription without a next billing date one cycle
      after today. */
  function HandleSuccessfulPayment(s: Subscription, today: Date): (r: Subscription)
    ensures !s.isPhotographerPlan ==> r == s
    ensures s.isPhotographerPlan ==>
      r.state == Active && r.graceUntil.None? && r.activationDate == Some(today) && r.nextBillingDate.Some?
    ensures s.isPhotographerPlan && s.nextBillingDate.None? ==> r.nextBillingDate == NextCycleDate(s, Some(today))
    ensures s.nextBillingDate.Some? ==> r.nextBillingDate == s.nextBillingDate
    ensures r.(state := s.state, graceUntil := s.graceUntil, activationDate := s.activationDate,
               nextBillingDate := s.nextBillingDate) == s
  {
    if s.isPhotographerPlan then
      s.(state := Active, graceUntil := None, activationDate := Some(today),
         nextBillingDate := if s.nextBillingDate.None? then NextCycleDate(s, Some(today)) else s.nextBillingDate)
    else s
  }

  /** `_apply_nonpayment_downgrade` on one subscription: kept active but moved to the FREEMIUM
      plan (when one exists) and taken off the billing calendar. */
  function ApplyNonpaymentDowngrade(s: Subscription, freemium: Option<Plan>): (r: Subscription)
    ensures !s.isPhotographerPlan ==> r == s
    ensures s.isPhotographerPlan ==> r.state == Active && r.nextBillingDate.None?
    ensures s.isPhotographerPlan && freemium.Some? ==> r.plan.Some? && r.plan.value.id == freemium.value.id
    ensures freemium.None? ==> r.plan == s.plan
    ensures r.(state := s.state, nextBillingDate := s.nextBillingDate, plan := s.plan) == s
  {
    if s.isPhotographerPlan then
      var moved := freemium.Some? && (s.plan.None? || s.plan.value.id != freemium.value.id);
      s.(state := Active, nextBillingDate := None, plan := if moved then freemium else s.plan)
    else s
  }

  /** After a downgrade to a FREEMIUM plan the subscription is no longer billed. */
  lemma DowngradeStopsBilling(s: Subscription, freemium: Option<Plan>)
    requires s.isPhotographerPlan && freemium.Some? && freemium.value.code == FREEMIUM_CODE
    requires s.plan.Some? && s.plan.value.id == freemium.value.id ==> IsFreemiumPlan(s.plan.value)
    ensures !EligibleForBilling(ApplyNonpaymentDowngrade(s, freemium))
  {
  }

  /** The photographer subscriptions that `_constrain_unique_active` treats as active. */
  predicate ActivePhotographer(s: Subscription) {
    s.isPhotographerPlan && Billable(s.state)
  }

  /** The rule the constraint protects: no two active photographer subscriptions of one partner. */
  ghost predicate UniqueActive(rows: map<nat, Subscription>) {
    forall a, b :: a in rows && b in rows && a != b && ActivePhotographer(rows[a]) && ActivePhotographer(rows[b])
      ==> rows[a].partner != rows[b].partner
  }

  /** `_constrain_unique_active` on the written records `ids`: false where the source raises. */
  predicate ConstraintHolds(rows: map<nat, Subscription>, ids: set<nat>) {
    forall id :: id in ids && id in rows && ActivePhotographer(rows[id]) ==>
      !exists k :: k in rows && k != id && ActivePhotographer(rows[k]) && rows[k].partner == rows[id].partner
  }

  /** A write that only touched `ids` and passed the constraint keeps the table free of duplicate
      active subscriptions. */
  lemma ConstraintPreservesUniqueness(before: map<nat, Subscription>, after: map<nat, Subscription>, ids: set<nat>)
    requires UniqueActive(before)
    requires forall k :: k in after && k !in ids ==> k in before && after[k] == before[k]
    requires ConstraintHolds(after, ids)
    ensures UniqueActive(after)
  {
    forall a, b | a in after && b in after && a != b && ActivePhotographer(after[a]) && ActivePhotographer(after[b])
      ensures after[a].partner != after[b].partner
    {
      if a in ids {
        assert !(ActivePhotographer(after[b]) && after[b].partner == after[a].partner);
      } else if b in ids {
        assert !(ActivePhotographer(after[a]) && after[a].partner == after[b].partner);
      } else {
        assert after[a] == before[a] && after[b] == before[b];
      }
    }
  }

  /** Checking every record is exactly the uniqueness rule. */
  lemma ConstraintOnAllIsUniqueness(rows: map<nat, Subscription>)
    ensures ConstraintHolds(rows, rows.Keys) <==> UniqueActive(rows)
  {
    if ConstraintHolds(rows, rows.Keys) {
      forall a, b | a in rows && b in rows && a != b && ActivePhotographer(rows[a]) && ActivePhotographer(rows[b])
        ensures rows[a].partner != rows[b].partner
      {
        assert !(ActivePhotographer(rows[b]) && rows[b].partner == rows[a].partner);
      }
    }
    if UniqueActive(rows) {
      forall id | id in rows.Keys && id in rows && ActivePhotographer(rows[id])
        ensures !exists k :: k in rows && k != id && ActivePhotographer(rows[k]) && rows[k].partner == rows[id].partner
      {
      }
    }
  }

  /** The subscriptions `action_activate` writes: photographer ones in draft, trial or grace. */
  function ActivateWrites(rows: map<nat, Subscription>, ids: set<nat>): (r: set<nat>)
    ensures r <= ids
    ensures forall k, today :: k in ids && k in rows && k !in r ==> Activate(rows[k], today) == rows[k]
  {
    set k | k in ids && k in rows && rows[k].isPhotographerPlan
                     && (rows[k].state == Draft || rows[k].state == Trial || rows[k].state == Grace)
  }

  /** The recordset actions: each one applies its per-record transition to every subscription of
      the recordset and leaves the others alone. Activation and grace write `state`, so
      `_constrain_unique_active` runs on the written subscriptions; it raising rolls the action
      back. Both actions only ever add active subscriptions, so checking the final table is the
      same as checking after each record's write. */
  method ActionActivate(t: Orm.Table<Subscription>, ids: seq<nat>, today: Date) returns (ok: bool)
    requires Orm.IsRecordset(ids, t.rows)
    modifies t
    ensures t.nextId == old(t.nextId)
    ensures ok <==> ConstraintHolds(Orm.Updated(old(t.rows), Orm.Members(ids), s => Activate(s, today)),
                                    ActivateWrites(old(t.rows), Orm.Members(ids)))
    ensures ok ==> t.rows == Orm.Updated(old(t.rows), Orm.Members(ids), s => Activate(s, today))
    ensures !ok ==> t.rows == old(t.rows)
    ensures UniqueActive(old(t.rows)) ==> UniqueActive(t.rows)
  {
    var written := ActivateWrites(t.rows, Orm.Members(ids));
    ghost var after := Orm.Updated(t.rows, Orm.Members(ids), s => Activate(s, today));
    ok := ConstraintHolds(Orm.Updated(t.rows, Orm.Members(ids), s => Activate(s, today)), written);
    if !ok {
      return;
    }
    t.ApplyEach(ids, s => Activate(s, today));
    assert t.rows == after;
    if UniqueActive(old(t.rows)) {
      ConstraintPreservesUniqueness(old(t.rows), t.rows, written);
    }
  }

  method ActionEnterGrace(t: Orm.Table<Subscription>, ids: seq<nat>, today: Date) returns (ok: bool)
    requires Orm.IsRecordset(ids, t.rows)
    modifies t
    ensures t.nextId == old(t.nextId)
    ensures ok <==> ConstraintHolds(Orm.Updated(old(t.rows), Orm.Members(ids), s => EnterGrace(s, today)), Orm.Members(ids))
    ensures ok ==> t.rows == Orm.Updated(old(t.rows), Orm.Members(ids), s => EnterGrace(s, today))
    ensures !ok ==> t.rows == old(t.rows)
    ensures UniqueActive(old(t.rows)) ==> UniqueActive(t.rows)
  {
    ghost var after := Orm.Updated(t.rows, Orm.Members(ids), s => EnterGrace(s, today));
    ok := ConstraintHolds(Orm.Updated(t.rows, Orm.Members(ids), s => EnterGrace(s, today)), Orm.Members(ids));
    if !ok {
      return;
    }
    t.ApplyEach(ids, s => EnterGrace(s, today));
    assert t.rows == after;
    if UniqueActive(old(t.rows)) {
      ConstraintPreservesUniqueness(old(t.rows), t.rows, Orm.Members(ids));
    }
  }

  method ActionSuspend(t: Orm.Table<Subscription>, ids: seq<nat>)
    requires Orm.IsRecordset(ids, t.rows)
    modifies t
    ensures t.rows.Keys == old(t.rows.Keys) && t.nextId == old(t.nextId)
    ensures forall k :: k in t.rows ==> t.rows[k] == if k in ids then Suspend(old(t.rows[k])) else old(t.rows[k])
  {
    t.ApplyEach(ids, Suspend);
  }

  method ActionCancel(t: Orm.Table<Subscription>, ids: seq<nat>, today: Date)
    requires Orm.IsRecordset(ids, t.rows)
    modifies t
    ensures t.rows.Keys == old(t.rows.Keys) && t.nextId == old(t.nextId)
    ensures forall k :: k in t.rows ==> t.rows[k] == if k in ids then Cancel(old(t.rows[k]), today) else old(t.rows[k])
  {
    t.ApplyEach(ids, s => Cancel(s, today));
  }

  method ActionMarkExpired(t: Orm.Table<Subscription>, ids: seq<nat>, today: Date)
    requires Orm.IsRecordset(ids, t.rows)
    modifies t
    ensures t.rows.Keys == old(t.rows.Keys) && t.nextId == old(t.nextId)
    ensures forall k :: k in t.rows ==> t.rows[k] == if k in ids then MarkExpired(old(t.rows[k]), today) else old(t.rows[k])
  {
    t.ApplyEach(ids, s => MarkExpired(s, today));
  }

  /** `_compute_limit_flags` over a recordset. */
  method ComputeLimitFlags(t: Orm.Table<Subscription>, ids: seq<nat>)
    requires Orm.IsRecordset(ids, t.rows)
    modifies t
    ensures t.rows.Keys == old(t.rows.Keys) && t.nextId == old(t.nextId)
    ensures forall k :: k in t.rows ==> t.rows[k] == if k in ids then WithLimitFlags(old(t.rows[k])) else old(t.rows[k])
  {
    t.ApplyEach(ids, WithLimitFlags);
  }
}
