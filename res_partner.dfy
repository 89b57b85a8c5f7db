/** Photographers (`res.partner` as extended by the photo store): the watermark payload, the
    active plan subscription, the portfolio metrics, the FREEMIUM plan every photographer gets,
    the create/write hooks and the Mercado Pago token refresh guard. */
module Partners {
  import opened Wrappers
  import opened Dates
  import opened Plans
  import opened Subscriptions
  import Arith
  import Orm
  import Events
  import Albums
  import Assets

  datatype MpStatus = NotConnected | Connected | MpError

  /** The partner fields the store reads or writes. Empty strings are unset `Char` fields;
      `watermarkImage` is the attachment holding the image, if any. */
  datatype Partner = Partner(
    name: string,
    email: string,
    vat: string,
    commercialPartner: nat,
    isPhotographer: bool,
    phone: string,
    mobile: string,
    phoneWhatsapp: string,
    bankAlias: string,
    payoutAccount: string,
    instagramAccount: string,
    cbuCvu: string,
    watermarkImage: Option<nat>,
    watermarkOpacity: int,
    watermarkScale: real,
    activeSubscription: Option<nat>,
    plan: Option<Plan>,
    eventCount: nat,
    albumCount: nat,
    assetCount: nat,
    totalStorageBytes: nat,
    grossSalesTotal: real,
    mpAccessToken: string,
    mpRefreshToken: string,
    mpTokenExpiresAt: Option<int>,
    mpAccountStatus: MpStatus)

  // ---------------------------------------------------------------------------------------
  // get_watermark_payload

  datatype WatermarkPayload = WatermarkPayload(image: Option<nat>, opacity: int, scale: real)

  /** `get_watermark_payload`: opacity clamped into [0, 100], scale into [0.05, 1.0]. */
  function GetWatermarkPayload(p: Partner): (r: WatermarkPayload)
    ensures r.image == p.watermarkImage
    ensures 0 <= r.opacity <= 100 && 0.05 <= r.scale <= 1.0
    ensures 0 <= p.watermarkOpacity <= 100 ==> r.opacity == p.watermarkOpacity
    ensures p.watermarkOpacity < 0 ==> r.opacity == 0
    ensures p.watermarkOpacity > 100 ==> r.opacity == 100
    ensures 0.05 <= p.watermarkScale <= 1.0 ==> r.scale == p.watermarkScale
    ensures p.watermarkScale < 0.05 ==> r.scale == 0.05
    ensures p.watermarkScale > 1.0 ==> r.scale == 1.0
  {
    var opacity := Arith.Min(Arith.Max(p.watermarkOpacity, 0), 100);
    var low := if p.watermarkScale >= 0.05 then p.watermarkScale else 0.05;
    WatermarkPayload(p.watermarkImage, opacity, if low <= 1.0 then low else 1.0)
  }

  /** The payload is a fixed point: clamping clamped values changes nothing. */
  lemma WatermarkPayloadStable(p: Partner)
    ensures var w := GetWatermarkPayload(p);
      GetWatermarkPayload(p.(watermarkOpacity := w.opacity, watermarkScale := w.scale)) == w
  {
  }

  // ---------------------------------------------------------------------------------------
  // _compute_active_subscription

  /** `plan_subscription_ids`: the partner's photographer subscriptions, in the order `order` of
      the subscription table. */
  function SubscriptionsOf(pid: nat, order: seq<nat>, subs: map<nat, Subscription>): (r: seq<nat>)
    requires Orm.IsRecordset(order, subs)
    ensures Orm.IsRecordset(r, subs)
    ensures forall k :: k in r <==> k in order && subs[k].partner == pid && subs[k].isPhotographerPlan
  {
    Orm.Filter(order, subs, (s: Subscription) => s.partner == pid && s.isPhotographerPlan)
  }

  /** The first of them in trial, active or grace. */
  function ActiveSubscriptionOf(pid: nat, order: seq<nat>, subs: map<nat, Subscription>): Option<nat>
    requires Orm.IsRecordset(order, subs)
  {
    Orm.First(SubscriptionsOf(pid, order, subs), subs, (s: Subscription) => Billable(s.state))
  }

  /** One partner after `_compute_active_subscription`: the plan follows the subscription. */
  function WithActiveSubscription(p: Partner, pid: nat, order: seq<nat>, subs: map<nat, Subscription>): (r: Partner)
    requires Orm.IsRecordset(order, subs)
  {
    var active := ActiveSubscriptionOf(pid, order, subs);
    p.(activeSubscription := active, plan := if active.Some? then subs[active.value].plan else None)
  }

  /** The active subscription is an active photographer subscription of the partner, none
      precedes it, and there is none exactly when the partner has no active one; when the
      one-active-plan rule holds it is the partner's only active one. */
  lemma ActiveSubscriptionChoice(p: Partner, pid: nat, order: seq<nat>, subs: map<nat, Subscription>)
    requires Orm.IsRecordset(order, subs)
    ensures var r := WithActiveSubscription(p, pid, order, subs);
      (r.activeSubscription.None? <==>
         forall k :: k in order && subs[k].partner == pid ==> !ActivePhotographer(subs[k]))
      && (r.activeSubscription.Some? ==>
            var k := r.activeSubscription.value;
            k in order && subs[k].partner == pid && ActivePhotographer(subs[k]) && r.plan == subs[k].plan)
      && (r.activeSubscription.None? ==> r.plan.None?)
      && r.(activeSubscription := p.activeSubscription, plan := p.plan) == p
    ensures var r := WithActiveSubscription(p, pid, order, subs);
      UniqueActive(subs) && r.activeSubscription.Some? ==>
        forall k :: k in subs && subs[k].partner == pid && ActivePhotographer(subs[k]) ==> k == r.activeSubscription.value
  {
    var mine := SubscriptionsOf(pid, order, subs);
    var active := ActiveSubscriptionOf(pid, order, subs);
    if active.None? {
      forall k | k in order && subs[k].partner == pid
        ensures !ActivePhotographer(subs[k])
      {
        if subs[k].isPhotographerPlan {
          var i :| 0 <= i < |mine| && mine[i] == k;
          assert !Billable(subs[mine[i]].state);
        }
      }
    } else {
      var i :| 0 <= i < |mine| && mine[i] == active.value && Billable(subs[active.value].state);
      assert mine[i] in mine;
    }
  }

  /** `_compute_active_subscription` over the partners `ids`. */
  method ComputeActiveSubscription(t: Orm.Table<Partner>, ids: seq<nat>, order: seq<nat>, subs: map<nat, Subscription>)
    requires Orm.IsRecordset(ids, t.rows) && Orm.IsRecordset(order, subs)
    modifies t
    ensures t.nextId == old(t.nextId) && t.rows.Keys == old(t.rows).Keys
    ensures forall i :: 0 <= i < |ids| ==> t.rows[ids[i]] == WithActiveSubscription(old(t.rows)[ids[i]], ids[i], order, subs)
    ensures forall k :: k in t.rows && k !in ids ==> t.rows[k] == old(t.rows)[k]
  {
    t.ApplyAt(ids, (pos: nat, id: nat, p: Partner) requires Orm.IsRecordset(order, subs) =>
                     WithActiveSubscription(p, id, order, subs));
  }

  // ---------------------------------------------------------------------------------------
  // _compute_metrics

  /** The events of photographer `pid`. */
  function EventsOf(pid: nat, events: map<nat, Events.Event>): set<nat> {
    set k | k in events && events[k].photographer == Some(pid)
  }

  /** Its albums: an album's photographer is its event's. */
  function AlbumsOf(pid: nat, events: map<nat, Events.Event>, albums: map<nat, Albums.Album>): set<nat> {
    set k | k in albums && albums[k].event in events && events[albums[k].event].photographer == Some(pid)
  }

  function ByPhotographer(pid: nat): Assets.Asset -> bool {
    (a: Assets.Asset) => a.photographer == pid
  }

  /** Its photos, in the order `order` of the photo table. */
  function AssetsOf(pid: nat, order: seq<nat>, assets: map<nat, Assets.Asset>): (r: seq<nat>)
    requires Orm.IsRecordset(order, assets)
    ensures Orm.IsRecordset(r, assets)
    ensures forall k :: k in r <==> k in order && assets[k].photographer == pid
  {
    Orm.Filter(order, assets, ByPhotographer(pid))
  }

  function Sizes(ids: seq<nat>, assets: map<nat, Assets.Asset>): (r: seq<nat>)
    requires forall i :: 0 <= i < |ids| ==> ids[i] in assets
    ensures |r| == |ids| && forall i :: 0 <= i < |ids| ==> r[i] == assets[ids[i]].fileSize
  {
    seq(|ids|, i requires 0 <= i < |ids| => assets[ids[i]].fileSize)
  }

  function Sales(ids: seq<nat>, saleTotal: map<nat, real>): (r: seq<real>)
    ensures |r| == |ids|
    ensures forall i :: 0 <= i < |ids| ==> r[i] == (if ids[i] in saleTotal then saleTotal[ids[i]] else 0.0)
  {
    seq(|ids|, i requires 0 <= i < |ids| => if ids[i] in saleTotal then saleTotal[ids[i]] else 0.0)
  }

  /** `total_storage_bytes`: the sum of the photographer's photo sizes. */
  function StorageOf(pid: nat, order: seq<nat>, assets: map<nat, Assets.Asset>): nat
    requires Orm.IsRecordset(order, assets)
  {
    Arith.SumNat(Sizes(AssetsOf(pid, order, assets), assets))
  }

  /** `gross_sales_total`: the sum of the photographer's photo sales. */
  function GrossSalesOf(pid: nat, order: seq<nat>, assets: map<nat, Assets.Asset>, saleTotal: map<nat, real>): real
    requires Orm.IsRecordset(order, assets)
  {
    Arith.Sum(Sales(AssetsOf(pid, order, assets), saleTotal))
  }

  /** `_compute_metrics` on one partner; `saleTotal` holds each photo's `sale_total_amount`. */
  function WithMetrics(p: Partner, pid: nat, events: map<nat, Events.Event>, albums: map<nat, Albums.Album>,
                       order: seq<nat>, assets: map<nat, Assets.Asset>, saleTotal: map<nat, real>): (r: Partner)
    requires Orm.IsRecordset(order, assets)
  {
    p.(eventCount := |EventsOf(pid, events)|, albumCount := |AlbumsOf(pid, events, albums)|,
       assetCount := |AssetsOf(pid, order, assets)|, totalStorageBytes := StorageOf(pid, order, assets),
       grossSalesTotal := GrossSalesOf(pid, order, assets, saleTotal))
  }

  /** A new photo of the photographer, last in the table order, adds one to the photo count and
      its size to the storage; the other metrics and the other photographers' stay as they were. */
  lemma MetricsAfterNewPhoto(p: Partner, pid: nat, events: map<nat, Events.Event>, albums: map<nat, Albums.Album>,
                             order: seq<nat>, assets: map<nat, Assets.Asset>, saleTotal: map<nat, real>,
                             k: nat, a: Assets.Asset)
    requires Orm.IsRecordset(order, assets) && k !in assets
    ensures Orm.IsRecordset(order + [k], assets[k := a])
    ensures var before := WithMetrics(p, pid, events, albums, order, assets, saleTotal);
      var after := WithMetrics(p, pid, events, albums, order + [k], assets[k := a], saleTotal[k := 0.0]);
      after.eventCount == before.eventCount && after.albumCount == before.albumCount
      && after.grossSalesTotal == before.grossSalesTotal
      && (a.photographer == pid ==>
            after.assetCount == before.assetCount + 1 && after.totalStorageBytes == before.totalStorageBytes + a.fileSize)
      && (a.photographer != pid ==>
            after.assetCount == before.assetCount && after.totalStorageBytes == before.totalStorageBytes)
  {
    AssetsOfFresh(pid, order, assets, k, a);
    StorageAfterNewPhoto(pid, order, assets, k, a);
    SalesAfterNewPhoto(pid, order, assets, saleTotal, k, a);
  }

  lemma StorageAfterNewPhoto(pid: nat, order: seq<nat>, assets: map<nat, Assets.Asset>, k: nat, a: Assets.Asset)
    requires Orm.IsRecordset(order, assets) && k !in assets
    ensures Orm.IsRecordset(order + [k], assets[k := a])
    ensures StorageOf(pid, order + [k], assets[k := a]) ==
              StorageOf(pid, order, assets) + (if a.photographer == pid then a.fileSize else 0)
  {
    var mine := AssetsOf(pid, order, assets);
    var mine' := AssetsOf(pid, order + [k], assets[k := a]);
    assert mine' == mine + (if a.photographer == pid then [k] else []) by {
      AssetsOfFresh(pid, order, assets, k, a);
    }
    var sizes := Sizes(mine, assets);
    var sizes' := Sizes(mine', assets[k := a]);
    assert sizes' == sizes + (if a.photographer == pid then [a.fileSize] else []) by {
      assert k !in mine;
      assert forall i :: 0 <= i < |mine| ==> sizes'[i] == sizes[i];
    }
    Arith.SumNatAppend(sizes, if a.photographer == pid then [a.fileSize] else []);
    assert Arith.SumNat([a.fileSize]) == a.fileSize by { assert [a.fileSize][..0] == []; }
  }

  lemma SalesAfterNewPhoto(pid: nat, order: seq<nat>, assets: map<nat, Assets.Asset>, saleTotal: map<nat, real>,
                           k: nat, a: Assets.Asset)
    requires Orm.IsRecordset(order, assets) && k !in assets
    ensures Orm.IsRecordset(order + [k], assets[k := a])
    ensures GrossSalesOf(pid, order + [k], assets[k := a], saleTotal[k := 0.0]) == GrossSalesOf(pid, order, assets, saleTotal)
  {
    var mine := AssetsOf(pid, order, assets);
    var mine' := AssetsOf(pid, order + [k], assets[k := a]);
    assert mine' == mine + (if a.photographer == pid then [k] else []) by {
      AssetsOfFresh(pid, order, assets, k, a);
    }
    var sales := Sales(mine, saleTotal);
    var sales' := Sales(mine', saleTotal[k := 0.0]);
    assert sales' == sales + (if a.photographer == pid then [0.0] else []) by {
      assert k !in mine;
      assert forall i :: 0 <= i < |mine| ==> sales'[i] == sales[i];
    }
    Arith.SumAppend(sales, if a.photographer == pid then [0.0] else []);
    assert Arith.Sum([0.0]) == 0.0 by { assert [0.0][..0] == []; }
  }

  /** A photo added under a fresh id, last in the table order, is the photographer's last photo
      when it is theirs and changes nothing otherwise. */
  lemma AssetsOfFresh(pid: nat, order: seq<nat>, assets: map<nat, Assets.Asset>, k: nat, a: Assets.Asset)
    requires Orm.IsRecordset(order, assets) && k !in assets
    ensures Orm.IsRecordset(order + [k], assets[k := a])
    ensures AssetsOf(pid, order + [k], assets[k := a]) ==
              AssetsOf(pid, order, assets) + (if a.photographer == pid then [k] else [])
  {
    var order' := order + [k];
    assert order'[..|order'| - 1] == order;
    FilterFresh(order, assets, k, a, ByPhotographer(pid));
  }

  /** Filtering the old ids of a table does not see a record added under a fresh id. */
  lemma {:induction false} FilterFresh(ids: seq<nat>, rows: map<nat, Assets.Asset>, k: nat, a: Assets.Asset,
                                       f: Assets.Asset -> bool)
    requires forall i :: 0 <= i < |ids| ==> ids[i] in rows
    requires k !in rows
    ensures Orm.Filter(ids, rows[k := a], f) == Orm.Filter(ids, rows, f)
    decreases |ids|
  {
    if ids != [] {
      FilterFresh(ids[..|ids| - 1], rows, k, a, f);
    }
  }

  // ---------------------------------------------------------------------------------------
  // _ensure_default_photo_plan

  /** `_get_fotoapp_plan(code)`: the first plan with that code. */
  function FindPlan(plans: seq<Plan>, code: string): (r: Option<Plan>)
    ensures r.None? <==> forall i :: 0 <= i < |plans| ==> plans[i].code != code
    ensures r.Some? ==> r.value in plans && r.value.code == code
  {
    if plans == [] then None
    else if plans[0].code == code then Some(plans[0])
    else
      var rest := FindPlan(plans[1..], code);
      assert forall i :: 1 <= i < |plans| ==> plans[i] == plans[1..][i - 1];
      rest
  }

  /** Whether the partner holds an active (trial, active or grace) photographer subscription. */
  predicate HasActive(rows: map<nat, Subscription>, pid: nat) {
    exists k :: k in rows && rows[k].partner == pid && ActivePhotographer(rows[k])
  }

  /** The subscription `fotoapp_create_subscription` stores for a plan, activated at once. */
  function NewPlanSubscription(pid: nat, plan: Plan, today: Date): (r: Subscription)
    ensures ActivePhotographer(r) && r.state == Active && r.partner == pid && r.plan == Some(plan)
    ensures r.activationDate == Some(today) && r.nextBillingDate == Some(AddBillingCycle(plan, today))
  {
    var draft := Subscription(pid, true, Some(plan), Draft, Some(today), None, None, None, None,
                              0, 0, 0, 0, StorageLimitBytes(Some(plan)), false, false, false, false);
    Activate(draft, today)
  }

  /** One more active subscription for a partner that had none keeps the one-active-plan rule. */
  lemma NewActiveKeepsUnique(rows: map<nat, Subscription>, id: nat, s: Subscription)
    requires UniqueActive(rows) && id !in rows && !HasActive(rows, s.partner)
    ensures UniqueActive(rows[id := s])
  {
    var rows' := rows[id := s];
    forall a, b | a in rows' && b in rows' && a != b && ActivePhotographer(rows'[a]) && ActivePhotographer(rows'[b])
      ensures rows'[a].partner != rows'[b].partner
    {
      if a == id {
        assert rows[b].partner != s.partner;
      } else if b == id {
        assert rows[a].partner != s.partner;
      }
    }
  }

  /** `_activate_photo_plan` for one partner: a subscription needs a template, else the call
      raises and nothing is stored. The new subscription is created as a draft and then activated;
      the activation trips `_constrain_unique_active` when the partner already holds an active
      photographer subscription, and the call is rolled back (the drawn id stays drawn). */
  method ActivatePhotoPlan(subs: Orm.Table<Subscription>, pid: nat, plan: Plan, blueprint: Option<nat>, today: Date)
    returns (id: Option<nat>)
    requires subs.Valid()
    modifies subs
    ensures subs.Valid()
    ensures id.None? <==> SubscriptionTemplate(plan, blueprint).None? || HasActive(old(subs.rows), pid)
    ensures id.None? ==> subs.rows == old(subs.rows)
    ensures id.Some? ==> id.value !in old(subs.rows) && subs.rows == old(subs.rows)[id.value := NewPlanSubscription(pid, plan, today)]
    ensures id.Some? ==> id.value == old(subs.nextId)
    ensures SubscriptionTemplate(plan, blueprint).None? ==> subs.nextId == old(subs.nextId)
    ensures SubscriptionTemplate(plan, blueprint).Some? ==> subs.nextId == old(subs.nextId) + 1
    ensures UniqueActive(old(subs.rows)) ==> UniqueActive(subs.rows)
  {
    if SubscriptionTemplate(plan, blueprint).None? {
      return None;
    }
    var rows0 := subs.rows;
    var k := subs.Create(NewPlanSubscription(pid, plan, today));
    if exists j :: j in rows0 && rows0[j].partner == pid && ActivePhotographer(rows0[j]) {
      subs.rows := rows0;
      return None;
    }
    id := Some(k);
    if UniqueActive(rows0) {
      NewActiveKeepsUnique(rows0, k, NewPlanSubscription(pid, plan, today));
    }
  }

  /** A subscription table that keeps every record keeps every partner's active subscription. */
  lemma ExtendsKeepsActive(a: map<nat, Subscription>, b: map<nat, Subscription>, pid: nat)
    requires Orm.Extends(a, b) && HasActive(a, pid)
    ensures HasActive(b, pid)
  {
    var k :| k in a && a[k].partner == pid && ActivePhotographer(a[k]);
    assert b[k] == a[k];
  }

  /** The partners of `pids` without an active photographer subscription. */
  predicate SomeoneLacks(rows: map<nat, Subscription>, pids: seq<nat>) {
    exists i :: 0 <= i < |pids| && !HasActive(rows, pids[i])
  }

  /** One iteration of `_ensure_default_photo_plan`: the partner gets a subscription on the plan
      unless it already has an active one. */
  method EnsureOne(subs: Orm.Table<Subscription>, pid: nat, plan: Plan, blueprint: Option<nat>, today: Date)
    requires subs.Valid() && (SubscriptionTemplate(plan, blueprint).Some? || HasActive(subs.rows, pid))
    modifies subs
    ensures subs.Valid() && Orm.Extends(old(subs.rows), subs.rows) && HasActive(subs.rows, pid)
    ensures forall k :: k in subs.rows && k !in old(subs.rows) ==>
              !HasActive(old(subs.rows), pid) && subs.rows[k] == NewPlanSubscription(pid, plan, today)
    ensures UniqueActive(old(subs.rows)) ==> UniqueActive(subs.rows)
  {
    if !exists k :: k in subs.rows && subs.rows[k].partner == pid && ActivePhotographer(subs.rows[k]) {
      var id := ActivatePhotoPlan(subs, pid, plan, blueprint, today);
      assert subs.rows[id.value].partner == pid;
    }
  }

  /** `_ensure_default_photo_plan` over the partners `pids`: with a FREEMIUM plan, each partner
      still without an active photographer subscription gets one on that plan. A missing template
      makes the first such partner raise, and the whole call is rolled back. */
  method EnsureDefaultPhotoPlan(subs: Orm.Table<Subscription>, pids: seq<nat>, freemium: Option<Plan>,
                                blueprint: Option<nat>, today: Date) returns (ok: bool)
    requires subs.Valid()
    modifies subs
    ensures subs.Valid()
    ensures ok <==> freemium.None? || SubscriptionTemplate(freemium.value, blueprint).Some? || !SomeoneLacks(old(subs.rows), pids)
    ensures !ok || freemium.None? ==> subs.rows == old(subs.rows)
    ensures Orm.Extends(old(subs.rows), subs.rows)
    ensures ok && freemium.Some? ==> forall i :: 0 <= i < |pids| ==> HasActive(subs.rows, pids[i])
    ensures forall k :: k in subs.rows && k !in old(subs.rows) ==>
              exists i :: 0 <= i < |pids| && !HasActive(old(subs.rows), pids[i])
                          && subs.rows[k] == NewPlanSubscription(pids[i], freemium.value, today)
    ensures UniqueActive(old(subs.rows)) ==> UniqueActive(subs.rows)
  {
    if freemium.None? {
      return true;
    }
    var plan := freemium.value;
    if SubscriptionTemplate(plan, blueprint).None? && exists i :: 0 <= i < |pids| && !HasActive(subs.rows, pids[i]) {
      return false;
    }
    ok := true;
    var i := 0;
    while i < |pids|
      invariant i <= |pids| && subs.Valid()
      invariant Orm.Extends(old(subs.rows), subs.rows)
      invariant forall j :: 0 <= j < i ==> HasActive(subs.rows, pids[j])
      invariant forall k :: k in subs.rows && k !in old(subs.rows) ==>
                  exists j :: 0 <= j < i && !HasActive(old(subs.rows), pids[j])
                              && subs.rows[k] == NewPlanSubscription(pids[j], plan, today)
      invariant UniqueActive(old(subs.rows)) ==> UniqueActive(subs.rows)
    {
      if SubscriptionTemplate(plan, blueprint).None? {
        ExtendsKeepsActive(old(subs.rows), subs.rows, pids[i]);
      }
      ghost var before := subs.rows;
      EnsureOne(subs, pids[i], plan, blueprint, today);
      forall j | 0 <= j < i
        ensures HasActive(subs.rows, pids[j])
      {
        ExtendsKeepsActive(before, subs.rows, pids[j]);
      }
      Orm.ExtendsTrans(old(subs.rows), before, subs.rows);
      i := i + 1;
    }
  }

  // ---------------------------------------------------------------------------------------
  // create / write hooks

  /** The fields whose change regenerates the photographer's watermarked photos. */
  const WATERMARK_FIELDS: set<string> := {"watermark_image", "watermark_opacity", "watermark_scale"}

  /** What `write(vals)` triggers after storing `vals` (given by its keys and its
      `is_photographer` value): whether the watermark is regenerated and whether the default plan
      is ensured. */
  function WriteHooks(keys: set<string>, isPhotographer: Option<bool>): (r: (bool, bool))
    ensures r.0 <==> exists f :: f in keys && f in WATERMARK_FIELDS
    ensures r.1 <==> isPhotographer == Some(true)
  {
    var touched := keys * WATERMARK_FIELDS != {};
    assert touched <==> exists f :: f in keys && f in WATERMARK_FIELDS by {
      if touched {
        var f :| f in keys * WATERMARK_FIELDS;
        assert f in keys && f in WATERMARK_FIELDS;
      }
      if exists f :: f in keys && f in WATERMARK_FIELDS {
        var f :| f in keys && f in WATERMARK_FIELDS;
        assert f in keys * WATERMARK_FIELDS;
      }
    }
    (touched, isPhotographer == Some(true))
  }

  /** The photos whose watermark is regenerated: the photographer's published ones. */
  function RegenerationTargets(pid: nat, assets: map<nat, Assets.Asset>): (r: set<nat>)
    ensures forall k :: k in r <==> k in assets && assets[k].photographer == pid && assets[k].state == Assets.Published
  {
    set k | k in assets && assets[k].photographer == pid && assets[k].state == Assets.Published
  }

  /** `vals.setdefault('is_photographer', True)` on creation. */
  function NewIsPhotographer(given: Option<bool>): (r: bool)
    ensures given.None? ==> r
    ensures given.Some? ==> r == given.value
  {
    given.GetOr(true)
  }

  // ---------------------------------------------------------------------------------------
  // _mp_refresh_token_if_needed

  /** Whether the refresh is skipped for a partner: no refresh token or no client credentials, or
      a token still valid at `now` when the refresh is not forced. */
  predicate RefreshSkipped(p: Partner, clientId: string, clientSecret: string, now: int, force: bool) {
    p.mpRefreshToken == [] || clientId == [] || clientSecret == []
    || (!force && p.mpTokenExpiresAt.Some? && p.mpTokenExpiresAt.value > now)
  }

  /** A forced refresh with credentials and a refresh token always goes ahead; an unforced one
      waits until the token has expired. */
  lemma RefreshSkippedCases(p: Partner, clientId: string, clientSecret: string, now: int)
    requires p.mpRefreshToken != [] && clientId != [] && clientSecret != []
    ensures !RefreshSkipped(p, clientId, clientSecret, now, true)
    ensures RefreshSkipped(p, clientId, clientSecret, now, false) <==>
              p.mpTokenExpiresAt.Some? && p.mpTokenExpiresAt.value > now
  {
  }
}
