/** Payment transactions (`payment.transaction` as the photo shop extends it): copying the
    photographer, plan and commission of the paid orders onto the transaction, the seller token
    a Mercado Pago charge needs, and the preference payload with the platform fee. */
module Payments {
  import opened Wrappers
  import opened Plans
  import Subscriptions
  import SaleOrders
  import Partners
  import Arith
  import Orm

  /** The transaction fields the photo shop reads or writes. */
  datatype Transaction = Transaction(
    providerCode: string,
    orders: seq<nat>,
    photographer: Option<nat>,
    plan: Option<Plan>,
    commissionPercent: real,
    platformAmount: real,
    photographerAmount: real)

  /** The values `_fotoapp_sync_metadata_from_orders` writes, alike on the transaction and on
      each of its orders. */
  datatype Metadata = Metadata(
    photographer: nat,
    plan: Option<Plan>,
    commissionPercent: real,
    platformAmount: real,
    photographerAmount: real)

  // ---------------------------------------------------------------------------------------
  // _fotoapp_sync_metadata_from_orders

  /** `orders.mapped('order_line')`: the lines of the orders, order after order. */
  function AllLines(orders: seq<SaleOrders.Order>): (r: seq<SaleOrders.OrderLine>)
    ensures forall l :: l in r <==> exists i :: 0 <= i < |orders| && l in orders[i].lines
  {
    if orders == [] then []
    else
      var front := orders[..|orders| - 1];
      assert forall i :: 0 <= i < |front| ==> front[i] == orders[i];
      AllLines(front) + orders[|orders| - 1].lines
  }

  /** `orders.mapped('amount_total')`. */
  function OrderTotals(orders: seq<SaleOrders.Order>): (r: seq<real>)
    ensures |r| == |orders| && forall i :: 0 <= i < |orders| ==> r[i] == SaleOrders.AmountTotal(orders[i])
  {
    seq(|orders|, i requires 0 <= i < |orders| => SaleOrders.AmountTotal(orders[i]))
  }

  /** The commission percent: the first order's when non-zero, else the plan's when non-zero,
      else 0. */
  function SyncPercent(first: real, plan: Option<Plan>): (r: real)
    ensures r == first || (plan.Some? && r == plan.value.commissionPercent) || r == 0.0
    ensures r == 0.0 <==> first == 0.0 && (plan.None? || plan.value.commissionPercent == 0.0)
    ensures first != 0.0 ==> r == first
  {
    if first != 0.0 then first
    else if plan.Some? && plan.value.commissionPercent != 0.0 then plan.value.commissionPercent
    else 0.0
  }

  /** The plan of a photographer: that of its active subscription, else its own plan. */
  function PhotographerPlan(p: nat, dir: SaleOrders.Directory): Option<Plan> {
    match SaleOrders.ActiveSubOf(dir, p)
    case Some(s) => s.plan
    case None => if p in dir.partnerPlan then Some(dir.partnerPlan[p]) else None
  }

  /** The platform's part of `amount` at `percent` per cent. */
  function Share(amount: real, percent: real): real {
    amount * percent / 100.0
  }

  /** What the sync writes for a transaction paying `orders`, or None when it skips it: the
      transaction already names a photographer, pays no order, or its orders' photo lines have
      no photographer or more than one. */
  function SyncValues(tx: Transaction, orders: seq<SaleOrders.Order>, dir: SaleOrders.Directory): (r: Option<Metadata>)
    ensures r.None? <==>
      tx.photographer.Some? || orders == [] || |SaleOrders.Photographers(AllLines(orders))| != 1
    ensures r.Some? ==> forall l :: l in AllLines(orders) && l.photographer.Some? ==> l.photographer.value == r.value.photographer
    ensures r.Some? ==> r.value.commissionPercent == SyncPercent(orders[0].commissionPercent, r.value.plan)
    ensures r.Some? ==> r.value.plan == PhotographerPlan(r.value.photographer, dir)
    ensures r.Some? ==> r.value.platformAmount + r.value.photographerAmount == Arith.Sum(OrderTotals(orders))
    ensures r.Some? ==> r.value.platformAmount == Share(Arith.Sum(OrderTotals(orders)), r.value.commissionPercent)
  {
    if tx.photographer.Some? || orders == [] then None
    else
      var ps := SaleOrders.Photographers(AllLines(orders));
      if |ps| != 1 then None
      else
        var p := ps[0];
        SaleOrders.SolePhotographer(AllLines(orders), p);
        var plan := PhotographerPlan(p, dir);
        var percent := SyncPercent(orders[0].commissionPercent, plan);
        var total := Arith.Sum(OrderTotals(orders));
        var platform := Share(total, percent);
        Some(Metadata(p, plan, percent, platform, total - platform))
  }

  function TxWithMetadata(tx: Transaction, m: Metadata): (r: Transaction)
    ensures r.photographer == Some(m.photographer) && r.orders == tx.orders && r.providerCode == tx.providerCode
  {
    tx.(photographer := Some(m.photographer), plan := m.plan, commissionPercent := m.commissionPercent,
        platformAmount := m.platformAmount, photographerAmount := m.photographerAmount)
  }

  function OrderWithMetadata(o: SaleOrders.Order, m: Metadata): (r: SaleOrders.Order)
    ensures r.lines == o.lines && r.photographer == Some(m.photographer)
  {
    o.(photographer := Some(m.photographer), plan := m.plan, commissionPercent := m.commissionPercent,
       platformAmount := m.platformAmount, photographerAmount := m.photographerAmount)
  }

  /** The transaction and the orders as two tables' records. */
  datatype Ledger = Ledger(txs: map<nat, Transaction>, orders: map<nat, SaleOrders.Order>)

  /** Every transaction names orders that exist. */
  predicate Linked(l: Ledger) {
    forall k :: k in l.txs ==> Orm.IsRecordset(l.txs[k].orders, l.orders)
  }

  function OrdersOf(l: Ledger, ids: seq<nat>): (r: seq<SaleOrders.Order>)
    requires forall i :: 0 <= i < |ids| ==> ids[i] in l.orders
    ensures |r| == |ids| && forall i :: 0 <= i < |ids| ==> r[i] == l.orders[ids[i]]
  {
    seq(|ids|, i requires 0 <= i < |ids| => l.orders[ids[i]])
  }

  /** One iteration of the sync loop, on transaction `id`. */
  function SyncOne(l: Ledger, id: nat, dir: SaleOrders.Directory): (r: Ledger)
    requires Linked(l) && id in l.txs
    ensures Linked(r) && r.txs.Keys == l.txs.Keys && r.orders.Keys == l.orders.Keys
  {
    var tx := l.txs[id];
    match SyncValues(tx, OrdersOf(l, tx.orders), dir)
    case None => l
    case Some(m) =>
      Ledger(l.txs[id := TxWithMetadata(tx, m)],
             map k | k in l.orders :: if k in tx.orders then OrderWithMetadata(l.orders[k], m) else l.orders[k])
  }

  /** A synced transaction and each of its orders carry the same photographer, plan, percent
      and amounts, and the two amounts split the orders' total. */
  lemma SyncWritesBoth(l: Ledger, id: nat, dir: SaleOrders.Directory)
    requires Linked(l) && id in l.txs
    requires SyncValues(l.txs[id], OrdersOf(l, l.txs[id].orders), dir).Some?
    ensures var r := SyncOne(l, id, dir); var t := r.txs[id];
      && t.photographer.Some?
      && t.platformAmount + t.photographerAmount == Arith.Sum(OrderTotals(OrdersOf(l, l.txs[id].orders)))
      && forall k :: k in t.orders ==>
           r.orders[k].photographer == t.photographer && r.orders[k].plan == t.plan
           && r.orders[k].commissionPercent == t.commissionPercent
           && r.orders[k].platformAmount == t.platformAmount && r.orders[k].photographerAmount == t.photographerAmount
  {
  }

  /** Syncing a transaction twice is syncing it once: after a sync it names a photographer, and
      a skipped transaction is skipped again. */
  lemma SyncIdempotent(l: Ledger, id: nat, dir: SaleOrders.Directory)
    requires Linked(l) && id in l.txs
    ensures SyncOne(SyncOne(l, id, dir), id, dir) == SyncOne(l, id, dir)
  {
    var r := SyncOne(l, id, dir);
    if SyncValues(l.txs[id], OrdersOf(l, l.txs[id].orders), dir).Some? {
      assert r.txs[id].photographer.Some?;
    }
  }

  /** The sync over the first transactions of the recordset, in loop order. */
  function SyncAll(l: Ledger, ids: seq<nat>, dir: SaleOrders.Directory): (r: Ledger)
    requires Linked(l) && forall i :: 0 <= i < |ids| ==> ids[i] in l.txs
    ensures Linked(r) && r.txs.Keys == l.txs.Keys && r.orders.Keys == l.orders.Keys
    decreases |ids|
  {
    if ids == [] then l
    else
      var front := SyncAll(l, ids[..|ids| - 1], dir);
      SyncOne(front, ids[|ids| - 1], dir)
  }

  /** `_fotoapp_sync_metadata_from_orders` over a recordset of transactions. */
  method SyncMetadataFromOrders(txs: Orm.Table<Transaction>, orders: Orm.Table<SaleOrders.Order>, ids: seq<nat>,
                                dir: SaleOrders.Directory)
    requires Orm.IsRecordset(ids, txs.rows) && Linked(Ledger(txs.rows, orders.rows))
    modifies txs, orders
    ensures txs.nextId == old(txs.nextId) && orders.nextId == old(orders.nextId)
    ensures Ledger(txs.rows, orders.rows) == SyncAll(Ledger(old(txs.rows), old(orders.rows)), ids, dir)
  {
    ghost var l0 := Ledger(txs.rows, orders.rows);
    var i := 0;
    while i < |ids|
      invariant i <= |ids| && txs.nextId == old(txs.nextId) && orders.nextId == old(orders.nextId)
      invariant Ledger(txs.rows, orders.rows) == SyncAll(l0, ids[..i], dir)
    {
      SyncTransaction(txs, orders, ids[i], dir);
      SyncAllStep(l0, ids, i, dir);
      i := i + 1;
    }
    assert ids[..i] == ids;
  }

  /** The body of the sync loop for the transaction `id`: skip it, or write the same values to
      it and to each of its orders. */
  method SyncTransaction(txs: Orm.Table<Transaction>, orders: Orm.Table<SaleOrders.Order>, id: nat,
                         dir: SaleOrders.Directory)
    requires id in txs.rows && Linked(Ledger(txs.rows, orders.rows))
    modifies txs, orders
    ensures txs.nextId == old(txs.nextId) && orders.nextId == old(orders.nextId)
    ensures Ledger(txs.rows, orders.rows) == SyncOne(Ledger(old(txs.rows), old(orders.rows)), id, dir)
  {
    var tx := txs.rows[id];
    var found := SyncValues(tx, OrdersOf(Ledger(txs.rows, orders.rows), tx.orders), dir);
    if found.Some? {
      var m := found.value;
      txs.rows := txs.rows[id := TxWithMetadata(tx, m)];
      orders.rows := map k | k in orders.rows :: if k in tx.orders then OrderWithMetadata(orders.rows[k], m) else orders.rows[k];
    }
  }

  lemma SyncAllStep(l: Ledger, ids: seq<nat>, i: nat, dir: SaleOrders.Directory)
    requires Linked(l) && i < |ids| && forall j :: 0 <= j < |ids| ==> ids[j] in l.txs
    ensures SyncAll(l, ids[..i + 1], dir) == SyncOne(SyncAll(l, ids[..i], dir), ids[i], dir)
  {
    assert ids[..i + 1][..i] == ids[..i];
  }

  // ---------------------------------------------------------------------------------------
  // _fotoapp_get_seller_token

  datatype TokenError = NoPhotographer | NoAccessToken | AccountNotReady(status: Partners.MpStatus)

  /** `_fotoapp_get_seller_token`: the photographer's Mercado Pago access token, after the
      token refresh; an error when there is no photographer, no token, or the account is not
      connected, checked in that order. */
  function SellerToken(photographer: Option<Partners.Partner>): (r: Result<string, TokenError>)
    ensures r.Ok? <==> photographer.Some? && photographer.value.mpAccessToken != ""
                       && photographer.value.mpAccountStatus == Partners.Connected
    ensures r.Ok? ==> r.value == photographer.value.mpAccessToken && r.value != ""
    ensures photographer.None? ==> r == Err(NoPhotographer)
    ensures photographer.Some? && photographer.value.mpAccessToken == "" ==> r == Err(NoAccessToken)
    ensures r.Err? && r.error.AccountNotReady? ==> r.error.status == photographer.value.mpAccountStatus != Partners.Connected
  {
    if photographer.None? then Err(NoPhotographer)
    else if photographer.value.mpAccessToken == "" then Err(NoAccessToken)
    else if photographer.value.mpAccountStatus != Partners.Connected then Err(AccountNotReady(photographer.value.mpAccountStatus))
    else Ok(photographer.value.mpAccessToken)
  }

  // ---------------------------------------------------------------------------------------
  // _mercado_pago_prepare_preference_request_payload

  /** `x * 10**d`, one factor of ten at a time. */
  function Scaled(x: real, d: nat): real {
    if d == 0 then x else 10.0 * Scaled(x, d - 1)
  }

  /** `x / 10**d`. */
  function Unscaled(x: real, d: nat): real {
    if d == 0 then x else Unscaled(x, d - 1) / 10.0
  }

  lemma {:induction false} ScaledUnscaled(x: real, d: nat)
    ensures Scaled(Unscaled(x, d), d) == x
    decreases d
  {
    if d > 0 {
      ScaledUnscaled(x / 10.0, d - 1);
      UnscaledShift(x, d);
    }
  }

  lemma {:induction false} UnscaledShift(x: real, d: nat)
    requires d > 0
    ensures Unscaled(x, d) == Unscaled(x / 10.0, d - 1)
    decreases d
  {
    if d > 1 {
      UnscaledShift(x, d - 1);
    }
  }

  /** Scaling distributes over a difference and keeps the sign. */
  lemma {:induction false} ScaledDifference(a: real, b: real, d: nat)
    ensures Scaled(a - b, d) == Scaled(a, d) - Scaled(b, d)
    ensures Scaled(a, d) <= Scaled(b, d) <==> a <= b
    decreases d
  {
    if d > 0 {
      ScaledDifference(a, b, d - 1);
    }
  }

  /** `float_round(amount, precision_digits=d, rounding_method='DOWN')`. */
  function RoundDown(amount: real, d: nat): real {
    Unscaled(Arith.Trunc(Scaled(amount, d)) as real, d)
  }

  /** Rounding down to `d` decimals leaves a whole number of `10**-d` units; a non-negative
      amount loses less than one unit and stays non-negative. */
  lemma RoundDownBounds(amount: real, d: nat)
    ensures var r := RoundDown(amount, d);
      && Scaled(r, d).Floor as real == Scaled(r, d)
      && (0.0 <= amount ==> 0.0 <= r <= amount && Scaled(amount - r, d) < 1.0)
  {
    var units := Arith.Trunc(Scaled(amount, d));
    var r := RoundDown(amount, d);
    ScaledUnscaled(units as real, d);
    assert Scaled(r, d) == units as real;
    if 0.0 <= amount {
      ScaledDifference(0.0, 0.0, d);
      ScaledDifference(0.0, amount, d);
      ScaledDifference(r, amount, d);
      ScaledDifference(0.0, r, d);
      ScaledDifference(amount, r, d);
    }
  }

  /** `_fotoapp_convert_amount`: the amount rounded toward zero to the currency's number of
      decimals, when the gateway knows the currency; unchanged otherwise. */
  function ConvertAmount(amount: real, decimals: Option<nat>): (r: real)
    ensures decimals.None? ==> r == amount
    ensures decimals.Some? ==> Scaled(r, decimals.value).Floor as real == Scaled(r, decimals.value)
    ensures decimals.Some? && 0.0 <= amount ==>
      0.0 <= r <= amount && Scaled(amount - r, decimals.value) < 1.0
  {
    if decimals.None? then amount
    else
      RoundDownBounds(amount, decimals.value);
      RoundDown(amount, decimals.value)
  }

  /** The keys the photo shop adds to the Mercado Pago preference. */
  datatype Preference = Preference(
    autoReturn: string,
    marketplaceFee: Option<real>,
    photographer: Option<nat>,
    commissionPercent: real,
    saleOrders: string)

  /** `','.join(names)`. */
  function JoinComma(names: seq<string>): (r: string)
    ensures |names| == 1 ==> r == names[0]
    ensures names == [] ==> r == ""
  {
    if names == [] then ""
    else if |names| == 1 then names[0]
    else names[0] + "," + JoinComma(names[1..])
  }

  /** The preference payload for a synced transaction: automatic return on approval always, the
      platform commission as marketplace fee only when it is non-zero. */
  function PreferencePayload(tx: Transaction, orderNames: seq<string>, decimals: Option<nat>): (r: Preference)
    ensures r.autoReturn == "approved"
    ensures r.marketplaceFee.Some? <==> tx.platformAmount != 0.0
    ensures r.marketplaceFee.Some? ==> r.marketplaceFee.value == ConvertAmount(tx.platformAmount, decimals)
    ensures r.photographer == tx.photographer && r.commissionPercent == tx.commissionPercent
    ensures r.saleOrders == JoinComma(orderNames)
  {
    Preference("approved",
               if tx.platformAmount != 0.0 then Some(ConvertAmount(tx.platformAmount, decimals)) else None,
               tx.photographer, tx.commissionPercent, JoinComma(orderNames))
  }
}
