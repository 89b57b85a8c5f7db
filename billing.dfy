/** Subscription billing (`_generate_subscription_debt` and the `next_billing_date` write hook of
    `sale.subscription`): one debt per billed cycle, and the billing calendar moved one cycle ahead. */
module Billing {
  import opened Wrappers
  import opened Dates
  import opened Plans
  import opened Subscriptions
  import opened Debts
  import Orm

  /** The date a pass bills: the explicit `billing_date`, else the stored next billing date, else today. */
  function CurrentBilling(s: Subscription, billingDate: Option<Date>, today: Date): (r: Date)
    ensures billingDate.Some? ==> r == billingDate.value
    ensures billingDate.None? && s.nextBillingDate.Some? ==> r == s.nextBillingDate.value
    ensures billingDate.None? && s.nextBillingDate.None? ==> r == today
  {
    if billingDate.Some? then billingDate.value
    else if s.nextBillingDate.Some? then s.nextBillingDate.value
    else today
  }

  /** The subscription debt of the cycle billed on `billing`: due that day, grace for 15 days. */
  function CycleDebt(id: nat, s: Subscription, billing: Date): (r: Debt)
    requires s.plan.Some?
    ensures r.subscription == Some(id) && r.debtType == SubscriptionDebt && r.billingDate == billing
    ensures r.partner == s.partner && r.plan == s.plan && r.amount == s.plan.value.monthlyFee
    ensures r.state == Pending
  {
    Debt(s.partner, Some(id), s.plan, SubscriptionDebt, s.plan.value.monthlyFee, billing, billing,
         AddDays(billing, 15), Pending, None, None, None, None)
  }

  /** A cycle's debt is due on the billed date, payable, and its grace ends 15 days later. */
  lemma CycleDebtGrace(id: nat, s: Subscription, billing: Date)
    requires s.plan.Some?
    ensures var d := CycleDebt(id, s, billing);
      && d.dueDate == billing && d.graceEndDate == AddDays(billing, 15) && Lt(d.dueDate, d.graceEndDate)
      && CanBePaid(d) && d.invoice.None? && d.paidDate.None?
  {
    AddDaysIsLater(billing, 15);
  }

  /** The subscription after a pass billed `billing`: only the next billing date moves, to one
      cycle after the billed date. */
  function Advanced(s: Subscription, billing: Date): (r: Subscription)
    ensures r.nextBillingDate.Some?
    ensures Lt(billing, r.nextBillingDate.value)
    ensures r.(nextBillingDate := s.nextBillingDate) == s
  {
    s.(nextBillingDate := NextCycleDate(s, Some(billing)))
  }

  /** What billing one subscription amounts to: whether it raises, the subscription afterwards,
      and the debts it creates, in creation order. When it raises, the transaction is rolled
      back, so nothing changes. */
  datatype Outcome = Outcome(ok: bool, sub: Subscription, newDebts: seq<Debt>)

  /** One pass of the loop of `_generate_subscription_debt` over subscription `id`: the next
      billing date moves one cycle past the billed date; a debt is created unless the cycle is
      already billed (and `force` is off) or the plan's fee is zero; with `force` on and the
      cycle already billed, the unique-cycle constraint raises. */
  function Pass(id: nat, s: Subscription, rows: map<nat, Debt>, billingDate: Option<Date>, force: bool,
                today: Date): (r: Outcome)
    requires s.plan.Some?
    ensures var billing := CurrentBilling(s, billingDate, today);
      var taken := CycleTaken(rows, CycleDebt(id, s, billing));
      && (r.ok <==> !(force && taken && s.plan.value.monthlyFee != 0.0))
      && (r.ok ==> r.sub == Advanced(s, billing))
      && (!r.ok ==> r.sub == s && r.newDebts == [])
      && (|r.newDebts| == 1 <==> !taken && s.plan.value.monthlyFee != 0.0)
      && (r.newDebts != [] ==> r.newDebts == [CycleDebt(id, s, billing)])
  {
    var billing := CurrentBilling(s, billingDate, today);
    var debt := CycleDebt(id, s, billing);
    var taken := CycleTaken(rows, debt);
    if taken && !force then Outcome(true, Advanced(s, billing), [])
    else if s.plan.value.monthlyFee == 0.0 then Outcome(true, Advanced(s, billing), [])
    else if taken then Outcome(false, s, [])
    else Outcome(true, Advanced(s, billing), [debt])
  }

  /** Billing one subscription: a pass, then, when the `write` hook is active (the
      `fotoapp_skip_manual_billing` context flag is unset) and the new next billing date is
      already due, the hook's forced pass on that date with the hook switched off. */
  function BillOutcome(id: nat, s: Subscription, rows: map<nat, Debt>, billingDate: Option<Date>,
                       force: bool, hook: bool, today: Date): (r: Outcome)
    requires s.plan.Some?
  {
    var first := Pass(id, s, rows, billingDate, force, today);
    if first.ok && hook && Le(first.sub.nextBillingDate.value, today) then
      var second := Pass(id, first.sub, rows, None, true, today);
      if second.ok then Outcome(true, second.sub, first.newDebts + second.newDebts)
      else Outcome(false, s, [])
    else first
  }

  /** What `_generate_subscription_debt` leaves of an eligible subscription `s0` when the `write`
      hook is `hook`: one cycle past the billed date, and one more when the hook's forced pass
      re-bills a new date that is already due. */
  function Billed(s0: Subscription, billingDate: Option<Date>, hook: bool, today: Date): (r: Subscription)
    ensures r.nextBillingDate.Some?
    ensures Lt(CurrentBilling(s0, billingDate, today), r.nextBillingDate.value)
    ensures r.(nextBillingDate := s0.nextBillingDate) == s0
    ensures !hook ==> r == Advanced(s0, CurrentBilling(s0, billingDate, today))
  {
    var once := Advanced(s0, CurrentBilling(s0, billingDate, today));
    if hook && Le(once.nextBillingDate.value, today) then
      var twice := Advanced(once, once.nextBillingDate.value);
      assert twice.(nextBillingDate := s0.nextBillingDate) == s0;
      twice
    else once
  }

  /** Billing one subscription moves its calendar as `Billed` says and raises only under `force`
      or in the hook's forced pass; when it raises nothing changes. */
  lemma BillOutcomeCalendar(id: nat, s: Subscription, rows: map<nat, Debt>, billingDate: Option<Date>,
                            force: bool, hook: bool, today: Date)
    requires s.plan.Some?
    ensures var r := BillOutcome(id, s, rows, billingDate, force, hook, today);
      && (r.ok ==> r.sub == Billed(s, billingDate, hook, today))
      && (!r.ok ==> r.sub == s && r.newDebts == [])
      && (!force && !hook ==> r.ok)
  {
  }


  /** Billing one subscription creates at most two debts, pending ones of that subscription. */
  lemma BillOutcomeDebts(id: nat, s: Subscription, rows: map<nat, Debt>, billingDate: Option<Date>,
                         force: bool, hook: bool, today: Date)
    requires s.plan.Some?
    ensures var r := BillOutcome(id, s, rows, billingDate, force, hook, today);
      && |r.newDebts| <= 2
      && (forall d :: d in r.newDebts ==> d.subscription == Some(id) && d.state == Pending)
  {
  }

  /** A debt `_generate_subscription_debt` may create for subscription `id`, found as `s0`: the
      cycle debt of the billed date or, when the `write` hook re-bills, of the date one cycle later. */
  predicate BilledCycleDebt(d: Debt, id: nat, s0: Subscription, billingDate: Option<Date>, hook: bool, today: Date)
    requires s0.plan.Some?
  {
    var billing := CurrentBilling(s0, billingDate, today);
    || d == CycleDebt(id, s0, billing)
    || (hook && d == CycleDebt(id, s0, Advanced(s0, billing).nextBillingDate.value))
  }

  /** Every debt a billing outcome creates is a cycle debt of the subscription billed. */
  lemma BillOutcomeBilled(id: nat, s: Subscription, rows: map<nat, Debt>, billingDate: Option<Date>,
                          force: bool, hook: bool, today: Date)
    requires s.plan.Some?
    ensures var r := BillOutcome(id, s, rows, billingDate, force, hook, today);
      forall i :: 0 <= i < |r.newDebts| ==> BilledCycleDebt(r.newDebts[i], id, s, billingDate, hook, today)
  {
    var r := BillOutcome(id, s, rows, billingDate, force, hook, today);
    var billing := CurrentBilling(s, billingDate, today);
    var first := Pass(id, s, rows, billingDate, force, today);
    assert forall i :: 0 <= i < |first.newDebts| ==> first.newDebts[i] == CycleDebt(id, s, billing);
    if first.ok && hook && Le(first.sub.nextBillingDate.value, today) {
      var second := Pass(id, first.sub, rows, None, true, today);
      var next := first.sub.nextBillingDate.value;
      assert first.sub == Advanced(s, billing);
      assert CycleDebt(id, first.sub, next) == CycleDebt(id, s, next);
      assert forall i :: 0 <= i < |second.newDebts| ==> second.newDebts[i] == CycleDebt(id, s, next);
      if second.ok {
        assert r.newDebts == first.newDebts + second.newDebts;
      }
    }
  }

  /** Billing one subscription never creates a debt for a cycle already billed. */
  lemma BillOutcomeNotTaken(id: nat, s: Subscription, rows: map<nat, Debt>, billingDate: Option<Date>,
                            force: bool, hook: bool, today: Date)
    requires s.plan.Some?
    ensures var r := BillOutcome(id, s, rows, billingDate, force, hook, today);
      forall i :: 0 <= i < |r.newDebts| ==> !CycleTaken(rows, r.newDebts[i])
  {
  }

  /** Nor does it create two debts for one cycle. */
  lemma BillOutcomeDistinctCycles(id: nat, s: Subscription, rows: map<nat, Debt>, billingDate: Option<Date>,
                                  force: bool, hook: bool, today: Date)
    requires s.plan.Some?
    ensures var r := BillOutcome(id, s, rows, billingDate, force, hook, today);
      forall i, j :: 0 <= i < j < |r.newDebts| ==> !SameCycle(r.newDebts[i], r.newDebts[j])
  {
  }


  /** Creating the `i`-th of a batch of debts for distinct free cycles leaves the later ones free. */
  lemma LaterCyclesStillFree(rows: map<nat, Debt>, k: nat, newDebts: seq<Debt>, i: nat)
    requires k !in rows && i < |newDebts|
    requires forall j :: i < j < |newDebts| ==> !CycleTaken(rows, newDebts[j])
    requires forall j, l :: 0 <= j < l < |newDebts| ==> !SameCycle(newDebts[j], newDebts[l])
    ensures forall j :: i < j < |newDebts| ==> !CycleTaken(rows[k := newDebts[i]], newDebts[j])
  {
    forall j | i < j < |newDebts|
      ensures !CycleTaken(rows[k := newDebts[i]], newDebts[j])
    {
      CycleTakenAfterInsert(rows, k, newDebts[i], newDebts[j]);
    }
  }

  /** Recording the debt created under the fresh id `k` keeps the account of a batch being
      created: the created ids are fresh, distinct, exactly the new keys, and hold the batch in order. */
  lemma CreatedOneMore(rows0: map<nat, Debt>, before: map<nat, Debt>, created: seq<nat>, k: nat, newDebts: seq<Debt>)
    requires |created| < |newDebts| && k !in before
    requires Orm.IsRecordset(created, before) && Orm.Extends(rows0, before)
    requires before.Keys == rows0.Keys + Orm.Members(created)
    requires forall j :: 0 <= j < |created| ==> created[j] !in rows0 && before[created[j]] == newDebts[j]
    ensures var after := before[k := newDebts[|created|]];
      && Orm.IsRecordset(created + [k], after) && Orm.Extends(rows0, after)
      && after.Keys == rows0.Keys + Orm.Members(created + [k])
      && forall j :: 0 <= j < |created| + 1 ==> (created + [k])[j] !in rows0 && after[(created + [k])[j]] == newDebts[j]
  {
    assert Orm.Members(created + [k]) == Orm.Members(created) + {k};
  }

  /** Carrying out a billing outcome: the subscription row replaced, the new debts created one by
      one (none of them can hit the unique-cycle constraint). */
  method ApplyOutcome(subs: Orm.Table<Subscription>, debts: Orm.Table<Debt>, id: nat, sub: Subscription,
                      newDebts: seq<Debt>) returns (created: seq<nat>)
    requires id in subs.rows && debts.Valid() && UniqueCycles(debts.rows)
    requires forall i :: 0 <= i < |newDebts| ==> !CycleTaken(debts.rows, newDebts[i])
    requires forall i, j :: 0 <= i < j < |newDebts| ==> !SameCycle(newDebts[i], newDebts[j])
    modifies subs, debts
    ensures debts.Valid() && subs.nextId == old(subs.nextId) && UniqueCycles(debts.rows)
    ensures subs.rows == old(subs.rows)[id := sub]
    ensures |created| == |newDebts|
    ensures forall i :: 0 <= i < |created| ==> created[i] in debts.rows && debts.rows[created[i]] == newDebts[i]
    ensures Orm.IsRecordset(created, debts.rows)
    ensures forall j :: 0 <= j < |created| ==> created[j] !in old(debts.rows)
    ensures Orm.Extends(old(debts.rows), debts.rows)
    ensures debts.rows.Keys == old(debts.rows.Keys) + Orm.Members(created)
  {
    created := [];
    var i := 0;
    while i < |newDebts|
      invariant 0 <= i <= |newDebts| && |created| == i
      invariant subs.rows == old(subs.rows) && subs.nextId == old(subs.nextId)
      invariant debts.Valid() && UniqueCycles(debts.rows)
      invariant Orm.IsRecordset(created, debts.rows)
      invariant Orm.Extends(old(debts.rows), debts.rows)
      invariant debts.rows.Keys == old(debts.rows.Keys) + Orm.Members(created)
      invariant forall j :: 0 <= j < i ==> created[j] !in old(debts.rows) && debts.rows[created[j]] == newDebts[j]
      invariant forall j :: i <= j < |newDebts| ==> !CycleTaken(debts.rows, newDebts[j])
    {
      ghost var before := debts.rows;
      var c := CreateDebt(debts, newDebts[i]);
      LaterCyclesStillFree(before, c.value, newDebts, i);
      CreatedOneMore(old(debts.rows), before, created, c.value, newDebts);
      created := created + [c.value];
      i := i + 1;
    }
    subs.rows := subs.rows[id := sub];
  }

  /** `_generate_subscription_debt` on subscription `id`: the outcome `BillOutcome` describes,
      carried out on the subscription and debt tables. */
  method BillSubscription(subs: Orm.Table<Subscription>, debts: Orm.Table<Debt>, id: nat,
                          billingDate: Option<Date>, force: bool, hook: bool, today: Date)
      returns (ok: bool, created: seq<nat>)
    requires id in subs.rows && subs.rows[id].plan.Some?
    requires debts.Valid() && UniqueCycles(debts.rows)
    modifies subs, debts
    ensures debts.Valid() && subs.nextId == old(subs.nextId) && UniqueCycles(debts.rows)
    ensures var r := BillOutcome(id, old(subs.rows[id]), old(debts.rows), billingDate, force, hook, today);
      && ok == r.ok
      && subs.rows == old(subs.rows)[id := r.sub]
      && |created| == |r.newDebts|
      && (forall i :: 0 <= i < |created| ==> created[i] in debts.rows && debts.rows[created[i]] == r.newDebts[i])
    ensures Orm.IsRecordset(created, debts.rows)
    ensures forall j :: 0 <= j < |created| ==> created[j] !in old(debts.rows)
    ensures Orm.Extends(old(debts.rows), debts.rows)
    ensures debts.rows.Keys == old(debts.rows.Keys) + Orm.Members(created)
    ensures !ok ==> created == [] && debts.rows == old(debts.rows)
  {
    var r := BillOutcome(id, subs.rows[id], debts.rows, billingDate, force, hook, today);
    BillOutcomeNotTaken(id, subs.rows[id], debts.rows, billingDate, force, hook, today);
    BillOutcomeDistinctCycles(id, subs.rows[id], debts.rows, billingDate, force, hook, today);
    ok := r.ok;
    if !ok {
      return ok, [];
    }
    created := ApplyOutcome(subs, debts, id, r.sub, r.newDebts);
  }

  /** The subscription `_generate_subscription_debt` leaves behind: billed when eligible, as it
      was otherwise. */
  function BillIfEligible(s: Subscription, billingDate: Option<Date>, hook: bool, today: Date): (r: Subscription)
    ensures !EligibleForBilling(s) ==> r == s
    ensures EligibleForBilling(s) ==> r == Billed(s, billingDate, hook, today)
  {
    if EligibleForBilling(s) then Billed(s, billingDate, hook, today) else s
  }

  /** The debts the loop creates for subscription `id`, found as `s`: those of its billing outcome
      against the debt table `rows` of before the loop when it is eligible, none otherwise. */
  function DebtsOf(id: nat, s: Subscription, rows: map<nat, Debt>, billingDate: Option<Date>,
                   force: bool, hook: bool, today: Date): seq<Debt>
  {
    if EligibleForBilling(s) then BillOutcome(id, s, rows, billingDate, force, hook, today).newDebts else []
  }

  /** Billing the eligible subscription `s` does not raise. */
  predicate PassSucceeds(id: nat, s: Subscription, rows: map<nat, Debt>, billingDate: Option<Date>,
                         force: bool, hook: bool, today: Date)
  {
    !EligibleForBilling(s) || BillOutcome(id, s, rows, billingDate, force, hook, today).ok
  }

  /** No subscription of the recordset `ids`, as found in `subs0`, makes the loop raise. */
  predicate PassesSucceed(subs0: map<nat, Subscription>, rows: map<nat, Debt>, ids: seq<nat>,
                          billingDate: Option<Date>, force: bool, hook: bool, today: Date)
    requires forall j :: 0 <= j < |ids| ==> ids[j] in subs0
  {
    ids == []
    || (var n := |ids| - 1;
        PassesSucceed(subs0, rows, ids[..n], billingDate, force, hook, today)
        && PassSucceeds(ids[n], subs0[ids[n]], rows, billingDate, force, hook, today))
  }

  /** The debts the loop of `_generate_subscription_debt` creates over the recordset `ids`, in
      creation order: subscription by subscription, the debts of each billing outcome. */
  function BilledDebts(subs0: map<nat, Subscription>, rows: map<nat, Debt>, ids: seq<nat>,
                       billingDate: Option<Date>, force: bool, hook: bool, today: Date): seq<Debt>
    requires forall j :: 0 <= j < |ids| ==> ids[j] in subs0
  {
    if ids == [] then []
    else
      var n := |ids| - 1;
      BilledDebts(subs0, rows, ids[..n], billingDate, force, hook, today)
      + DebtsOf(ids[n], subs0[ids[n]], rows, billingDate, force, hook, today)
  }

  /** A cycle of subscription `id` is taken in a table grown only by other subscriptions' debts
      exactly when it was taken before. */
  lemma TakenIgnoresOtherDebts(id: nat, rows0: map<nat, Debt>, rows: map<nat, Debt>, d: Debt)
    requires Orm.Extends(rows0, rows) && d.subscription == Some(id)
    requires forall k :: k in rows && k !in rows0 ==> rows[k].subscription != Some(id)
    ensures CycleTaken(rows, d) == CycleTaken(rows0, d)
  {
    if CycleTaken(rows, d) {
      var k :| k in rows && SameCycle(rows[k], d);
      assert k in rows0;
    }
    if CycleTaken(rows0, d) {
      var k :| k in rows0 && SameCycle(rows0[k], d);
      assert rows[k] == rows0[k];
    }
  }

  /** A pass depends on the debt table only through whether its cycle is taken. */
  lemma PassDependsOnTaken(id: nat, s: Subscription, rows0: map<nat, Debt>, rows: map<nat, Debt>,
                           billingDate: Option<Date>, force: bool, today: Date)
    requires s.plan.Some?
    requires var d := CycleDebt(id, s, CurrentBilling(s, billingDate, today));
      CycleTaken(rows, d) == CycleTaken(rows0, d)
    ensures Pass(id, s, rows, billingDate, force, today) == Pass(id, s, rows0, billingDate, force, today)
  {
  }

  /** Billing one subscription depends on the debt table only through whether the cycles its
      passes bill are taken. */
  lemma OutcomeDependsOnTaken(id: nat, s: Subscription, rows0: map<nat, Debt>, rows: map<nat, Debt>,
                              billingDate: Option<Date>, force: bool, hook: bool, today: Date)
    requires s.plan.Some?
    requires var d := CycleDebt(id, s, CurrentBilling(s, billingDate, today));
      CycleTaken(rows, d) == CycleTaken(rows0, d)
    requires var first := Pass(id, s, rows0, billingDate, force, today);
      var d := CycleDebt(id, first.sub, CurrentBilling(first.sub, None, today));
      first.ok ==> CycleTaken(rows, d) == CycleTaken(rows0, d)
    ensures BillOutcome(id, s, rows, billingDate, force, hook, today) == BillOutcome(id, s, rows0, billingDate, force, hook, today)
  {
    PassDependsOnTaken(id, s, rows0, rows, billingDate, force, today);
    var first := Pass(id, s, rows0, billingDate, force, today);
    if first.ok && hook && Le(first.sub.nextBillingDate.value, today) {
      PassDependsOnTaken(id, first.sub, rows0, rows, None, true, today);
      var second := Pass(id, first.sub, rows0, None, true, today);
      assert BillOutcome(id, s, rows0, billingDate, force, hook, today)
          == if second.ok then Outcome(true, second.sub, first.newDebts + second.newDebts) else Outcome(false, s, []);
    } else {
      assert BillOutcome(id, s, rows0, billingDate, force, hook, today) == first;
    }
  }

  /** Debts created for other subscriptions never take a cycle of subscription `id`, so billing
      `id` against the table of the moment is billing it against the table before the loop. */
  lemma OutcomeIgnoresOtherDebts(id: nat, s: Subscription, rows0: map<nat, Debt>, rows: map<nat, Debt>,
                                 billingDate: Option<Date>, force: bool, hook: bool, today: Date)
    requires s.plan.Some? && Orm.Extends(rows0, rows)
    requires forall k :: k in rows && k !in rows0 ==> rows[k].subscription != Some(id)
    ensures BillOutcome(id, s, rows, billingDate, force, hook, today) == BillOutcome(id, s, rows0, billingDate, force, hook, today)
  {
    TakenIgnoresOtherDebts(id, rows0, rows, CycleDebt(id, s, CurrentBilling(s, billingDate, today)));
    var first := Pass(id, s, rows0, billingDate, force, today);
    TakenIgnoresOtherDebts(id, rows0, rows, CycleDebt(id, first.sub, CurrentBilling(first.sub, None, today)));
    OutcomeDependsOnTaken(id, s, rows0, rows, billingDate, force, hook, today);
  }

  /** The debts one pass creates belong to the subscription billed. */
  lemma DebtsOfOwned(id: nat, s: Subscription, rows: map<nat, Debt>, billingDate: Option<Date>,
                     force: bool, hook: bool, today: Date)
    ensures forall d :: d in DebtsOf(id, s, rows, billingDate, force, hook, today) ==> d.subscription == Some(id)
  {
    if EligibleForBilling(s) {
      BillOutcomeDebts(id, s, rows, billingDate, force, hook, today);
    }
  }

  /** Every debt the loop creates belongs to a subscription of the recordset. */
  lemma {:induction false} BilledDebtsOwned(subs0: map<nat, Subscription>, rows: map<nat, Debt>, ids: seq<nat>,
                                            billingDate: Option<Date>, force: bool, hook: bool, today: Date)
    requires forall j :: 0 <= j < |ids| ==> ids[j] in subs0
    ensures forall d :: d in BilledDebts(subs0, rows, ids, billingDate, force, hook, today) ==>
      d.subscription.Some? && d.subscription.value in ids
  {
    if ids != [] {
      var n := |ids| - 1;
      BilledDebtsOwned(subs0, rows, ids[..n], billingDate, force, hook, today);
      DebtsOfOwned(ids[n], subs0[ids[n]], rows, billingDate, force, hook, today);
      var prefix := BilledDebts(subs0, rows, ids[..n], billingDate, force, hook, today);
      var last := DebtsOf(ids[n], subs0[ids[n]], rows, billingDate, force, hook, today);
      assert BilledDebts(subs0, rows, ids, billingDate, force, hook, today) == prefix + last;
      forall d: Debt | d in prefix + last
        ensures d.subscription.Some? && d.subscription.value in ids
      {
        if d in prefix {
          var i :| 0 <= i < n && ids[..n][i] == d.subscription.value;
          assert ids[i] == d.subscription.value;
        } else {
          assert d.subscription == Some(ids[n]);
        }
      }
    }
  }

  /** A debt billed for a prefix of the recordset is billed for the recordset. */
  lemma FromBillingPrefix(d: Debt, subs0: map<nat, Subscription>, ids: seq<nat>, n: nat,
                          billingDate: Option<Date>, hook: bool, today: Date)
    requires forall j :: 0 <= j < |ids| ==> ids[j] in subs0
    requires n <= |ids| && FromBilling(d, subs0, ids[..n], billingDate, hook, today)
    ensures FromBilling(d, subs0, ids, billingDate, hook, today)
  {
    var i :| 0 <= i < n && EligibleForBilling(subs0[ids[..n][i]])
             && BilledCycleDebt(d, ids[..n][i], subs0[ids[..n][i]], billingDate, hook, today);
    assert ids[..n][i] == ids[i];
  }

  /** The debts billing the `n`-th subscription creates are billed for the recordset, and not invoiced. */
  lemma DebtsOfFromBilling(subs0: map<nat, Subscription>, rows: map<nat, Debt>, ids: seq<nat>, n: nat,
                           billingDate: Option<Date>, force: bool, hook: bool, today: Date)
    requires forall j :: 0 <= j < |ids| ==> ids[j] in subs0
    requires n < |ids|
    ensures forall d :: d in DebtsOf(ids[n], subs0[ids[n]], rows, billingDate, force, hook, today) ==>
      FromBilling(d, subs0, ids, billingDate, hook, today) && d.invoice.None?
  {
    var s := subs0[ids[n]];
    if EligibleForBilling(s) {
      BillOutcomeBilled(ids[n], s, rows, billingDate, force, hook, today);
      var ds := BillOutcome(ids[n], s, rows, billingDate, force, hook, today).newDebts;
      forall d | d in ds
        ensures FromBilling(d, subs0, ids, billingDate, hook, today) && d.invoice.None?
      {
        var j :| 0 <= j < |ds| && ds[j] == d;
        assert BilledCycleDebt(d, ids[n], s, billingDate, hook, today);
      }
    }
  }

  /** Every debt the loop creates is a billed cycle debt of an eligible subscription of the
      recordset, not yet invoiced. */
  lemma {:induction false} BilledDebtsFromBilling(subs0: map<nat, Subscription>, rows: map<nat, Debt>, ids: seq<nat>,
                                                  billingDate: Option<Date>, force: bool, hook: bool, today: Date)
    requires forall j :: 0 <= j < |ids| ==> ids[j] in subs0
    ensures forall d :: d in BilledDebts(subs0, rows, ids, billingDate, force, hook, today) ==>
      FromBilling(d, subs0, ids, billingDate, hook, today) && d.invoice.None?
  {
    if ids != [] {
      var n := |ids| - 1;
      var prev := ids[..n];
      BilledDebtsFromBilling(subs0, rows, prev, billingDate, force, hook, today);
      DebtsOfFromBilling(subs0, rows, ids, n, billingDate, force, hook, today);
      forall d | d in BilledDebts(subs0, rows, prev, billingDate, force, hook, today)
        ensures FromBilling(d, subs0, ids, billingDate, hook, today)
      {
        FromBillingPrefix(d, subs0, ids, n, billingDate, hook, today);
      }
    }
  }

  /** Billing a subscription without raising creates the debt of its billed cycle when that
      cycle is free and the plan has a fee. */
  lemma OutcomeCreatesFreeCycle(id: nat, s: Subscription, rows: map<nat, Debt>, billingDate: Option<Date>,
                                force: bool, hook: bool, today: Date)
    requires s.plan.Some? && BillOutcome(id, s, rows, billingDate, force, hook, today).ok
    requires !CycleTaken(rows, CycleDebt(id, s, CurrentBilling(s, billingDate, today))) && s.plan.value.monthlyFee != 0.0
    ensures CycleDebt(id, s, CurrentBilling(s, billingDate, today)) in BillOutcome(id, s, rows, billingDate, force, hook, today).newDebts
  {
    var first := Pass(id, s, rows, billingDate, force, today);
    assert first.newDebts == [CycleDebt(id, s, CurrentBilling(s, billingDate, today))];
    if first.ok && hook && Le(first.sub.nextBillingDate.value, today) {
      var second := Pass(id, first.sub, rows, None, true, today);
      assert BillOutcome(id, s, rows, billingDate, force, hook, today).newDebts == first.newDebts + second.newDebts;
    }
  }

  /** Every eligible subscription of the recordset whose billed cycle is free and whose plan has
      a fee gets that cycle's debt, unless the loop raises. */
  lemma {:induction false} BilledDebtsComplete(subs0: map<nat, Subscription>, rows: map<nat, Debt>, ids: seq<nat>, j: nat,
                                               billingDate: Option<Date>, force: bool, hook: bool, today: Date)
    requires forall i :: 0 <= i < |ids| ==> ids[i] in subs0
    requires j < |ids| && EligibleForBilling(subs0[ids[j]])
    requires PassesSucceed(subs0, rows, ids, billingDate, force, hook, today)
    requires var s := subs0[ids[j]];
      && !CycleTaken(rows, CycleDebt(ids[j], s, CurrentBilling(s, billingDate, today)))
      && s.plan.value.monthlyFee != 0.0
    ensures var s := subs0[ids[j]];
      CycleDebt(ids[j], s, CurrentBilling(s, billingDate, today)) in BilledDebts(subs0, rows, ids, billingDate, force, hook, today)
  {
    var n := |ids| - 1;
    var s := subs0[ids[j]];
    var debt := CycleDebt(ids[j], s, CurrentBilling(s, billingDate, today));
    var prev := ids[..n];
    assert BilledDebts(subs0, rows, ids, billingDate, force, hook, today)
        == BilledDebts(subs0, rows, prev, billingDate, force, hook, today)
           + DebtsOf(ids[n], subs0[ids[n]], rows, billingDate, force, hook, today);
    if j == n {
      OutcomeCreatesFreeCycle(ids[n], s, rows, billingDate, force, hook, today);
    } else {
      assert prev[j] == ids[j];
      BilledDebtsComplete(subs0, rows, prev, j, billingDate, force, hook, today);
    }
  }

  /** For an eligible subscription, the pass's debts and success are those of its outcome. */
  lemma DebtsOfEligible(id: nat, s: Subscription, rows: map<nat, Debt>, billingDate: Option<Date>,
                        force: bool, hook: bool, today: Date)
    requires EligibleForBilling(s)
    ensures DebtsOf(id, s, rows, billingDate, force, hook, today)
      == BillOutcome(id, s, rows, billingDate, force, hook, today).newDebts
    ensures PassSucceeds(id, s, rows, billingDate, force, hook, today)
      == BillOutcome(id, s, rows, billingDate, force, hook, today).ok
  {
  }

  /** One iteration of the loop of `_generate_subscription_debt`. */
  method BillOne(subs: Orm.Table<Subscription>, debts: Orm.Table<Debt>, id: nat,
                 billingDate: Option<Date>, force: bool, hook: bool, today: Date)
      returns (ok: bool, created: seq<nat>)
    requires id in subs.rows && debts.Valid() && UniqueCycles(debts.rows)
    modifies subs, debts
    ensures debts.Valid() && subs.nextId == old(subs.nextId) && UniqueCycles(debts.rows)
    ensures ok ==> subs.rows == old(subs.rows)[id := BillIfEligible(old(subs.rows[id]), billingDate, hook, today)]
    ensures !ok ==> subs.rows == old(subs.rows) && created == [] && debts.rows == old(debts.rows)
    ensures !force && !hook ==> ok
    ensures Orm.IsRecordset(created, debts.rows)
    ensures forall j :: 0 <= j < |created| ==> created[j] !in old(debts.rows)
    ensures Orm.Extends(old(debts.rows), debts.rows)
    ensures debts.rows.Keys == old(debts.rows.Keys) + Orm.Members(created)
    ensures created != [] ==> EligibleForBilling(old(subs.rows[id]))
    ensures created != [] ==> forall j :: 0 <= j < |created| ==>
      BilledCycleDebt(debts.rows[created[j]], id, old(subs.rows[id]), billingDate, hook, today)
    ensures ok <==> PassSucceeds(id, old(subs.rows[id]), old(debts.rows), billingDate, force, hook, today)
    ensures var ds := DebtsOf(id, old(subs.rows[id]), old(debts.rows), billingDate, force, hook, today);
      ok ==> |created| == |ds| && forall j :: 0 <= j < |created| ==> debts.rows[created[j]] == ds[j]
  {
    var s := subs.rows[id];
    if !EligibleForBilling(s) {
      assert DebtsOf(id, s, debts.rows, billingDate, force, hook, today) == [];
      return true, [];
    }
    DebtsOfEligible(id, s, debts.rows, billingDate, force, hook, today);
    BillOutcomeCalendar(id, s, debts.rows, billingDate, force, hook, today);
    BillOutcomeBilled(id, s, debts.rows, billingDate, force, hook, today);
    ok, created := BillSubscription(subs, debts, id, billingDate, force, hook, today);
  }

  /** A created debt comes from billing one of the eligible subscriptions of `ids`, as found in `subs0`. */
  predicate FromBilling(d: Debt, subs0: map<nat, Subscription>, ids: seq<nat>, billingDate: Option<Date>,
                        hook: bool, today: Date)
    requires forall i :: 0 <= i < |ids| ==> ids[i] in subs0
  {
    exists i :: 0 <= i < |ids| && EligibleForBilling(subs0[ids[i]])
                && BilledCycleDebt(d, ids[i], subs0[ids[i]], billingDate, hook, today)
  }

  /** The debts billing the `i`-th subscription adds to those created so far: together they are
      fresh, distinct and come from billing. */
  lemma CreatedGrows(debts0: map<nat, Debt>, before: map<nat, Debt>, after: map<nat, Debt>, created: seq<nat>,
                     c: seq<nat>, subs0: map<nat, Subscription>, ids: seq<nat>, i: nat, billingDate: Option<Date>,
                     hook: bool, today: Date)
    requires forall j :: 0 <= j < |ids| ==> ids[j] in subs0
    requires i < |ids| && (c != [] ==> EligibleForBilling(subs0[ids[i]]))
    requires Orm.Extends(debts0, before) && before.Keys == debts0.Keys + Orm.Members(created)
    requires Orm.IsRecordset(created, before) && forall j :: 0 <= j < |created| ==> created[j] !in debts0
    requires forall j :: 0 <= j < |created| ==> FromBilling(before[created[j]], subs0, ids, billingDate, hook, today)
    requires Orm.Extends(before, after) && after.Keys == before.Keys + Orm.Members(c)
    requires Orm.IsRecordset(c, after) && forall j :: 0 <= j < |c| ==> c[j] !in before
    requires forall j :: 0 <= j < |c| ==> BilledCycleDebt(after[c[j]], ids[i], subs0[ids[i]], billingDate, hook, today)
    ensures Orm.Extends(debts0, after) && after.Keys == debts0.Keys + Orm.Members(created + c)
    ensures Orm.IsRecordset(created + c, after) && forall j :: 0 <= j < |created + c| ==> (created + c)[j] !in debts0
    ensures forall j :: 0 <= j < |created + c| ==> FromBilling(after[(created + c)[j]], subs0, ids, billingDate, hook, today)
  {
    Orm.ExtendsTrans(debts0, before, after);
    assert Orm.Members(created + c) == Orm.Members(created) + Orm.Members(c);
    Orm.RecordsetAppend(created, c, before, after);
    forall j | 0 <= j < |created + c|
      ensures (created + c)[j] !in debts0
      ensures FromBilling(after[(created + c)[j]], subs0, ids, billingDate, hook, today)
    {
      if j < |created| {
        assert (created + c)[j] == created[j];
      } else {
        assert (created + c)[j] == c[j - |created|];
      }
    }
  }

  /** One pass of the loop of `_generate_subscription_debt`, over the `i`-th subscription of `ids`,
      which the earlier passes left as it was in `subs0`. */
  method BillStep(subs: Orm.Table<Subscription>, debts: Orm.Table<Debt>, ids: seq<nat>, i: nat,
                  ghost subs0: map<nat, Subscription>, ghost debts0: map<nat, Debt>,
                  billingDate: Option<Date>, force: bool, hook: bool, today: Date)
      returns (ok: bool, c: seq<nat>)
    requires Orm.IsRecordset(ids, subs0) && i < |ids|
    requires subs.rows == Orm.Updated(subs0, Orm.Members(ids[..i]), s => BillIfEligible(s, billingDate, hook, today))
    requires debts.Valid() && UniqueCycles(debts.rows)
    requires Orm.Extends(debts0, debts.rows)
    requires forall k :: k in debts.rows && k !in debts0 ==> debts.rows[k].subscription != Some(ids[i])
    modifies subs, debts
    ensures debts.Valid() && subs.nextId == old(subs.nextId) && UniqueCycles(debts.rows)
    ensures !force && !hook ==> ok
    ensures ok ==> subs.rows == Orm.Updated(subs0, Orm.Members(ids[..i + 1]), s => BillIfEligible(s, billingDate, hook, today))
    ensures !ok ==> c == [] && debts.rows == old(debts.rows) && subs.rows == old(subs.rows)
    ensures Orm.Extends(old(debts.rows), debts.rows) && debts.rows.Keys == old(debts.rows.Keys) + Orm.Members(c)
    ensures Orm.IsRecordset(c, debts.rows) && forall j :: 0 <= j < |c| ==> c[j] !in old(debts.rows)
    ensures c != [] ==> EligibleForBilling(subs0[ids[i]])
    ensures forall j :: 0 <= j < |c| ==>
      BilledCycleDebt(debts.rows[c[j]], ids[i], subs0[ids[i]], billingDate, hook, today)
    ensures ok <==> PassSucceeds(ids[i], subs0[ids[i]], debts0, billingDate, force, hook, today)
    ensures var ds := DebtsOf(ids[i], subs0[ids[i]], debts0, billingDate, force, hook, today);
      ok ==> |c| == |ds| && forall j :: 0 <= j < |c| ==> debts.rows[c[j]] == ds[j]
  {
    Orm.UpdatedNext(subs0, ids, i, s => BillIfEligible(s, billingDate, hook, today));
    if EligibleForBilling(subs0[ids[i]]) {
      OutcomeIgnoresOtherDebts(ids[i], subs0[ids[i]], debts0, debts.rows, billingDate, force, hook, today);
    }
    ok, c := BillOne(subs, debts, ids[i], billingDate, force, hook, today);
  }

  /** The debts billed for the first `i + 1` subscriptions are those billed for the first `i`,
      then those of the `i`-th. */
  lemma BilledDebtsNext(subs0: map<nat, Subscription>, rows: map<nat, Debt>, ids: seq<nat>, i: nat,
                        billingDate: Option<Date>, force: bool, hook: bool, today: Date)
    requires forall j :: 0 <= j < |ids| ==> ids[j] in subs0
    requires i < |ids|
    ensures BilledDebts(subs0, rows, ids[..i + 1], billingDate, force, hook, today)
         == BilledDebts(subs0, rows, ids[..i], billingDate, force, hook, today)
            + DebtsOf(ids[i], subs0[ids[i]], rows, billingDate, force, hook, today)
  {
    assert ids[..i + 1][..i] == ids[..i];
    assert ids[..i + 1][i] == ids[i];
  }

  /** The loop raises on the first `i + 1` subscriptions exactly when it raises on one of the
      first `i` or on the `i`-th. */
  lemma PassesSucceedNext(subs0: map<nat, Subscription>, rows: map<nat, Debt>, ids: seq<nat>, i: nat,
                          billingDate: Option<Date>, force: bool, hook: bool, today: Date)
    requires forall j :: 0 <= j < |ids| ==> ids[j] in subs0
    requires i < |ids|
    ensures PassesSucceed(subs0, rows, ids[..i + 1], billingDate, force, hook, today)
        <==> PassesSucceed(subs0, rows, ids[..i], billingDate, force, hook, today)
             && PassSucceeds(ids[i], subs0[ids[i]], rows, billingDate, force, hook, today)
  {
    assert ids[..i + 1][..i] == ids[..i];
    assert ids[..i + 1][i] == ids[i];
  }

  /** When the loop does not raise on the recordset, it does not raise on any prefix of it. */
  lemma {:induction false} PassesSucceedPrefix(subs0: map<nat, Subscription>, rows: map<nat, Debt>, ids: seq<nat>, k: nat,
                                               billingDate: Option<Date>, force: bool, hook: bool, today: Date)
    requires forall j :: 0 <= j < |ids| ==> ids[j] in subs0
    requires k <= |ids| && PassesSucceed(subs0, rows, ids, billingDate, force, hook, today)
    ensures PassesSucceed(subs0, rows, ids[..k], billingDate, force, hook, today)
  {
    if k < |ids| {
      var n := |ids| - 1;
      PassesSucceedPrefix(subs0, rows, ids[..n], k, billingDate, force, hook, today);
      assert ids[..n][..k] == ids[..k];
    } else {
      assert ids[..k] == ids;
    }
  }

  /** The loop's account of the debts it created: `created` are fresh ids, exactly the new keys
      of the debt table, holding the debts `ds` in order, every earlier debt kept. */
  ghost predicate Accounted(debts0: map<nat, Debt>, rows: map<nat, Debt>, created: seq<nat>, ds: seq<Debt>) {
    && Orm.Extends(debts0, rows) && rows.Keys == debts0.Keys + Orm.Members(created)
    && Orm.IsRecordset(created, rows) && (forall j :: 0 <= j < |created| ==> created[j] !in debts0)
    && |created| == |ds| && forall j :: 0 <= j < |created| ==> rows[created[j]] == ds[j]
  }

  /** The debts created so far belong to the subscriptions billed so far, so none of them is the
      `i`-th subscription's. */
  lemma CreatedForOthers(debts0: map<nat, Debt>, rows: map<nat, Debt>, created: seq<nat>,
                         subs0: map<nat, Subscription>, ids: seq<nat>, i: nat,
                         billingDate: Option<Date>, force: bool, hook: bool, today: Date)
    requires Orm.IsRecordset(ids, subs0) && i < |ids|
    requires Accounted(debts0, rows, created, BilledDebts(subs0, debts0, ids[..i], billingDate, force, hook, today))
    ensures Orm.Extends(debts0, rows)
    ensures forall k :: k in rows && k !in debts0 ==> rows[k].subscription != Some(ids[i])
  {
    var ds := BilledDebts(subs0, debts0, ids[..i], billingDate, force, hook, today);
    BilledDebtsOwned(subs0, debts0, ids[..i], billingDate, force, hook, today);
    assert ids[i] !in ids[..i];
    forall k | k in rows && k !in debts0
      ensures rows[k].subscription != Some(ids[i])
    {
      var j :| 0 <= j < |created| && created[j] == k;
      assert rows[k] == ds[j] && ds[j] in ds;
    }
  }

  /** Appending one step's debts to those created so far appends that step's expected debts. */
  lemma ContentGrows(before: map<nat, Debt>, after: map<nat, Debt>, created: seq<nat>, c: seq<nat>,
                     ds: seq<Debt>, es: seq<Debt>)
    requires Orm.Extends(before, after)
    requires |created| == |ds| && forall j :: 0 <= j < |created| ==> created[j] in before && before[created[j]] == ds[j]
    requires |c| == |es| && forall j :: 0 <= j < |c| ==> c[j] in after && after[c[j]] == es[j]
    ensures |created + c| == |ds + es|
    ensures forall j :: 0 <= j < |created + c| ==> (created + c)[j] in after && after[(created + c)[j]] == (ds + es)[j]
  {
    forall j | 0 <= j < |created + c|
      ensures (created + c)[j] in after && after[(created + c)[j]] == (ds + es)[j]
    {
      if j < |created| {
        assert (created + c)[j] == created[j] && (ds + es)[j] == ds[j];
      } else {
        assert (created + c)[j] == c[j - |created|] && (ds + es)[j] == es[j - |created|];
      }
    }
  }

  /** The debts created over a prefix of the recordset, as the loop accounts for them, come from billing it. */
  lemma ContentFromBilling(subs0: map<nat, Subscription>, debts0: map<nat, Debt>, rows: map<nat, Debt>,
                           created: seq<nat>, ids: seq<nat>, i: nat,
                           billingDate: Option<Date>, force: bool, hook: bool, today: Date)
    requires forall j :: 0 <= j < |ids| ==> ids[j] in subs0
    requires i <= |ids|
    requires var ds := BilledDebts(subs0, debts0, ids[..i], billingDate, force, hook, today);
      |created| == |ds| && forall j :: 0 <= j < |created| ==> created[j] in rows && rows[created[j]] == ds[j]
    ensures forall j :: 0 <= j < |created| ==> FromBilling(rows[created[j]], subs0, ids, billingDate, hook, today)
  {
    var ds := BilledDebts(subs0, debts0, ids[..i], billingDate, force, hook, today);
    BilledDebtsFromBilling(subs0, debts0, ids[..i], billingDate, force, hook, today);
    forall j | 0 <= j < |created|
      ensures FromBilling(rows[created[j]], subs0, ids, billingDate, hook, today)
    {
      assert ds[j] in ds;
      FromBillingPrefix(rows[created[j]], subs0, ids, i, billingDate, hook, today);
    }
  }

  /** One successful step of the billing loop keeps the loop's account of what was created. */
  lemma LoopAdvances(debts0: map<nat, Debt>, before: map<nat, Debt>, after: map<nat, Debt>, created: seq<nat>,
                     c: seq<nat>, subs0: map<nat, Subscription>, ids: seq<nat>, i: nat, billingDate: Option<Date>,
                     force: bool, hook: bool, today: Date)
    requires Orm.IsRecordset(ids, subs0) && i < |ids| && (c != [] ==> EligibleForBilling(subs0[ids[i]]))
    requires Orm.Extends(debts0, before) && before.Keys == debts0.Keys + Orm.Members(created)
    requires Orm.IsRecordset(created, before) && forall j :: 0 <= j < |created| ==> created[j] !in debts0
    requires Orm.Extends(before, after) && after.Keys == before.Keys + Orm.Members(c)
    requires Orm.IsRecordset(c, after) && forall j :: 0 <= j < |c| ==> c[j] !in before
    requires forall j :: 0 <= j < |c| ==> BilledCycleDebt(after[c[j]], ids[i], subs0[ids[i]], billingDate, hook, today)
    requires PassesSucceed(subs0, debts0, ids[..i], billingDate, force, hook, today)
    requires PassSucceeds(ids[i], subs0[ids[i]], debts0, billingDate, force, hook, today)
    requires var ds := BilledDebts(subs0, debts0, ids[..i], billingDate, force, hook, today);
      |created| == |ds| && forall j :: 0 <= j < |created| ==> created[j] in before && before[created[j]] == ds[j]
    requires var es := DebtsOf(ids[i], subs0[ids[i]], debts0, billingDate, force, hook, today);
      |c| == |es| && forall j :: 0 <= j < |c| ==> after[c[j]] == es[j]
    ensures Orm.Extends(debts0, after) && after.Keys == debts0.Keys + Orm.Members(created + c)
    ensures Orm.IsRecordset(created + c, after) && forall j :: 0 <= j < |created + c| ==> (created + c)[j] !in debts0
    ensures PassesSucceed(subs0, debts0, ids[..i + 1], billingDate, force, hook, today)
    ensures var ds := BilledDebts(subs0, debts0, ids[..i + 1], billingDate, force, hook, today);
      |created + c| == |ds| && forall j :: 0 <= j < |created + c| ==> (created + c)[j] in after && after[(created + c)[j]] == ds[j]
  {
    ContentFromBilling(subs0, debts0, before, created, ids, i, billingDate, force, hook, today);
    CreatedGrows(debts0, before, after, created, c, subs0, ids, i, billingDate, hook, today);
    BilledDebtsNext(subs0, debts0, ids, i, billingDate, force, hook, today);
    PassesSucceedNext(subs0, debts0, ids, i, billingDate, force, hook, today);
    ContentGrows(before, after, created, c, BilledDebts(subs0, debts0, ids[..i], billingDate, force, hook, today),
                 DebtsOf(ids[i], subs0[ids[i]], debts0, billingDate, force, hook, today));
  }

  /** The same step, on the loop's account. */
  lemma AccountedAdvances(debts0: map<nat, Debt>, before: map<nat, Debt>, after: map<nat, Debt>, created: seq<nat>,
                          c: seq<nat>, subs0: map<nat, Subscription>, ids: seq<nat>, i: nat, billingDate: Option<Date>,
                          force: bool, hook: bool, today: Date)
    requires Orm.IsRecordset(ids, subs0) && i < |ids| && (c != [] ==> EligibleForBilling(subs0[ids[i]]))
    requires Accounted(debts0, before, created, BilledDebts(subs0, debts0, ids[..i], billingDate, force, hook, today))
    requires Orm.Extends(before, after) && after.Keys == before.Keys + Orm.Members(c)
    requires Orm.IsRecordset(c, after) && forall j :: 0 <= j < |c| ==> c[j] !in before
    requires forall j :: 0 <= j < |c| ==> BilledCycleDebt(after[c[j]], ids[i], subs0[ids[i]], billingDate, hook, today)
    requires PassesSucceed(subs0, debts0, ids[..i], billingDate, force, hook, today)
    requires PassSucceeds(ids[i], subs0[ids[i]], debts0, billingDate, force, hook, today)
    requires var es := DebtsOf(ids[i], subs0[ids[i]], debts0, billingDate, force, hook, today);
      |c| == |es| && forall j :: 0 <= j < |c| ==> after[c[j]] == es[j]
    ensures PassesSucceed(subs0, debts0, ids[..i + 1], billingDate, force, hook, today)
    ensures Accounted(debts0, after, created + c, BilledDebts(subs0, debts0, ids[..i + 1], billingDate, force, hook, today))
  {
    LoopAdvances(debts0, before, after, created, c, subs0, ids, i, billingDate, force, hook, today);
  }

  /** A failed step makes the whole pass fail. */
  lemma LoopStops(subs0: map<nat, Subscription>, rows: map<nat, Debt>, ids: seq<nat>, i: nat,
                  billingDate: Option<Date>, force: bool, hook: bool, today: Date)
    requires forall j :: 0 <= j < |ids| ==> ids[j] in subs0
    requires i < |ids| && !PassSucceeds(ids[i], subs0[ids[i]], rows, billingDate, force, hook, today)
    ensures !PassesSucceed(subs0, rows, ids, billingDate, force, hook, today)
  {
    PassesSucceedNext(subs0, rows, ids, i, billingDate, force, hook, today);
    if PassesSucceed(subs0, rows, ids, billingDate, force, hook, today) {
      PassesSucceedPrefix(subs0, rows, ids, i + 1, billingDate, force, hook, today);
    }
  }

  /** One turn of the billing loop, with the loop's account of the debts created before it (`created`):
      a failure fails the whole pass and changes nothing, a success extends the account by the
      subscription's own debts. */
  method BillNext(subs: Orm.Table<Subscription>, debts: Orm.Table<Debt>, ids: seq<nat>, i: nat,
                  ghost subs0: map<nat, Subscription>, ghost debts0: map<nat, Debt>, ghost created: seq<nat>,
                  billingDate: Option<Date>, force: bool, hook: bool, today: Date)
      returns (ok: bool, c: seq<nat>)
    requires Orm.IsRecordset(ids, subs0) && i < |ids|
    requires subs.rows == Orm.Updated(subs0, Orm.Members(ids[..i]), s => BillIfEligible(s, billingDate, hook, today))
    requires debts.Valid() && UniqueCycles(debts.rows)
    requires PassesSucceed(subs0, debts0, ids[..i], billingDate, force, hook, today)
    requires Accounted(debts0, debts.rows, created, BilledDebts(subs0, debts0, ids[..i], billingDate, force, hook, today))
    modifies subs, debts
    ensures debts.Valid() && subs.nextId == old(subs.nextId) && UniqueCycles(debts.rows)
    ensures !force && !hook ==> ok
    ensures !ok ==> c == [] && debts.rows == old(debts.rows) && subs.rows == old(subs.rows)
    ensures !ok ==> !PassesSucceed(subs0, debts0, ids, billingDate, force, hook, today)
    ensures ok ==> subs.rows == Orm.Updated(subs0, Orm.Members(ids[..i + 1]), s => BillIfEligible(s, billingDate, hook, today))
    ensures ok ==> PassesSucceed(subs0, debts0, ids[..i + 1], billingDate, force, hook, today)
    ensures ok ==> Accounted(debts0, debts.rows, created + c, BilledDebts(subs0, debts0, ids[..i + 1], billingDate, force, hook, today))
    ensures !ok ==> Accounted(debts0, debts.rows, created, BilledDebts(subs0, debts0, ids[..i], billingDate, force, hook, today))
  {
    CreatedForOthers(debts0, debts.rows, created, subs0, ids, i, billingDate, force, hook, today);
    ghost var before := debts.rows;
    ok, c := BillStep(subs, debts, ids, i, subs0, debts0, billingDate, force, hook, today);
    if !ok {
      LoopStops(subs0, debts0, ids, i, billingDate, force, hook, today);
      return;
    }
    AccountedAdvances(debts0, before, debts.rows, created, c, subs0, ids, i, billingDate, force, hook, today);
  }

  /** The loop of `_generate_subscription_debt` over the recordset `ids`: every eligible
      subscription is billed, every other one is left alone, and no billing cycle gets a second
      debt. `ok` is false where the source raises, and the loop stops there. */
  method BillAll(subs: Orm.Table<Subscription>, debts: Orm.Table<Debt>, ids: seq<nat>, billingDate: Option<Date>,
                 force: bool, hook: bool, today: Date)
      returns (ok: bool, created: seq<nat>)
    requires Orm.IsRecordset(ids, subs.rows)
    requires debts.Valid() && UniqueCycles(debts.rows)
    modifies subs, debts
    ensures debts.Valid() && subs.nextId == old(subs.nextId) && UniqueCycles(debts.rows)
    ensures subs.rows.Keys == old(subs.rows.Keys)
    ensures !force && !hook ==> ok
    ensures ok <==> PassesSucceed(old(subs.rows), old(debts.rows), ids, billingDate, force, hook, today)
    ensures ok ==> subs.rows == Orm.Updated(old(subs.rows), Orm.Members(ids), s => BillIfEligible(s, billingDate, hook, today))
    ensures var ds := BilledDebts(old(subs.rows), old(debts.rows), ids, billingDate, force, hook, today);
      ok ==> |created| == |ds| && forall j :: 0 <= j < |created| ==> created[j] in debts.rows && debts.rows[created[j]] == ds[j]
    ensures debts.rows.Keys == old(debts.rows.Keys) + Orm.Members(created)
    ensures Orm.IsRecordset(created, debts.rows)
    ensures Orm.Extends(old(debts.rows), debts.rows)
    ensures forall j :: 0 <= j < |created| ==> created[j] !in old(debts.rows)
    ensures forall j :: 0 <= j < |created| ==>
      FromBilling(debts.rows[created[j]], old(subs.rows), ids, billingDate, hook, today)
  {
    ghost var subs0 := subs.rows;
    ghost var debts0 := debts.rows;
    created := [];
    ok := true;
    var i := 0;
    while ok && i < |ids|
      invariant 0 <= i <= |ids|
      invariant debts.Valid() && subs.nextId == old(subs.nextId) && UniqueCycles(debts.rows)
      invariant ok ==> subs.rows == Orm.Updated(subs0, Orm.Members(ids[..i]), s => BillIfEligible(s, billingDate, hook, today))
      invariant subs.rows.Keys == subs0.Keys
      invariant ok ==> PassesSucceed(subs0, debts0, ids[..i], billingDate, force, hook, today)
      invariant !ok ==> !PassesSucceed(subs0, debts0, ids, billingDate, force, hook, today) && (force || hook)
      invariant Accounted(debts0, debts.rows, created, BilledDebts(subs0, debts0, ids[..i], billingDate, force, hook, today))
    {
      var c;
      ok, c := BillNext(subs, debts, ids, i, subs0, debts0, created, billingDate, force, hook, today);
      if ok {
        created := created + c;
        i := i + 1;
      }
    }
    if ok {
      assert ids[..i] == ids;
    }
    ContentFromBilling(subs0, debts0, debts.rows, created, ids, i, billingDate, force, hook, today);
  }

  /** Invoicing only fills in the created debts' invoice, so without it they are the debts billing made. */
  lemma InvoicingKeepsProvenance(billed: map<nat, Debt>, after: map<nat, Debt>, moves: map<nat, Invoice>,
                                 invoiced: seq<nat>, created: seq<nat>, books: Books, subs0: map<nat, Subscription>,
                                 ids: seq<nat>, billingDate: Option<Date>, hook: bool, today: Date)
    requires forall j :: 0 <= j < |ids| ==> ids[j] in subs0
    requires after.Keys == billed.Keys
    requires forall k :: k in after ==> Invoiced(billed[k], after[k], moves, invoiced, books, k in Orm.Members(created))
    requires forall j :: 0 <= j < |created| ==>
      && created[j] in billed
      && FromBilling(billed[created[j]], subs0, ids, billingDate, hook, today)
    ensures forall j :: 0 <= j < |created| ==> created[j] in after && after[created[j]].(invoice := None) == billed[created[j]]
    ensures forall j :: 0 <= j < |created| ==>
      FromBilling(after[created[j]].(invoice := None), subs0, ids, billingDate, hook, today)
  {
    forall j | 0 <= j < |created|
      ensures after[created[j]].(invoice := None) == billed[created[j]]
    {
      var k := created[j];
      assert Invoiced(billed[k], after[k], moves, invoiced, books, k in Orm.Members(created));
      var i :| 0 <= i < |ids| && EligibleForBilling(subs0[ids[i]])
               && BilledCycleDebt(billed[k], ids[i], subs0[ids[i]], billingDate, hook, today);
      assert billed[k].invoice.None?;
    }
  }

  /** `_generate_subscription_debt(billing_date, force)` over the recordset `ids`: the loop, then
      the created debts are invoiced. `ok` is false where the source raises; the transaction is
      then rolled back, and the ids drawn stay drawn. */
  method GenerateSubscriptionDebt(subs: Orm.Table<Subscription>, debts: Orm.Table<Debt>,
                                  moves: Orm.Table<Invoice>, ids: seq<nat>, billingDate: Option<Date>,
                                  force: bool, hook: bool, today: Date, books: Books)
      returns (ok: bool, created: seq<nat>)
    requires Orm.IsRecordset(ids, subs.rows)
    requires debts.Valid() && moves.Valid() && UniqueCycles(debts.rows)
    modifies subs, debts, moves
    ensures debts.Valid() && moves.Valid() && subs.nextId == old(subs.nextId)
    ensures UniqueCycles(debts.rows)
    ensures !force && !hook ==> ok
    ensures !ok ==> created == [] && subs.rows == old(subs.rows) && debts.rows == old(debts.rows)
                    && moves.rows == old(moves.rows)
    ensures ok ==> subs.rows == Orm.Updated(old(subs.rows), Orm.Members(ids), s => BillIfEligible(s, billingDate, hook, today))
    ensures ok ==> debts.rows.Keys == old(debts.rows.Keys) + Orm.Members(created)
    ensures ok ==> forall j :: 0 <= j < |created| ==>
      && created[j] !in old(debts.rows)
      && FromBilling(debts.rows[created[j]].(invoice := None), old(subs.rows), ids, billingDate, hook, today)
    ensures ok ==> forall k :: k in created ==> !Invoiceable(debts.rows[k], books)
    ensures ok <==> PassesSucceed(old(subs.rows), old(debts.rows), ids, billingDate, force, hook, today)
    ensures var ds := BilledDebts(old(subs.rows), old(debts.rows), ids, billingDate, force, hook, today);
      ok ==> |created| == |ds| && forall j :: 0 <= j < |created| ==>
        created[j] in debts.rows && debts.rows[created[j]].(invoice := None) == ds[j]
    ensures ok ==> forall k :: k in old(debts.rows) ==> k in debts.rows && debts.rows[k] == old(debts.rows[k])
    ensures ok ==> Orm.Extends(old(moves.rows), moves.rows)
    ensures ok ==> forall j :: 0 <= j < |created| ==>
      var d := debts.rows[created[j]];
      && (d.invoice.Some? <==> Invoiceable(d.(invoice := None), books))
      && (d.invoice.Some? ==> d.invoice.value !in old(moves.rows) && d.invoice.value in moves.rows
                              && moves.rows[d.invoice.value] == InvoiceFor(d.(invoice := None), books))
  {
    var subs0, debts0 := subs.rows, debts.rows;
    ok, created := BillAll(subs, debts, ids, billingDate, force, hook, today);
    if !ok {
      subs.rows, debts.rows := subs0, debts0;
      return false, [];
    }
    ghost var billed := debts.rows;
    var invoiced := CreateInternalInvoices(debts, moves, created, books);
    InvoicingKeepsProvenance(billed, debts.rows, moves.rows, invoiced, created, books, subs0, ids, billingDate, hook, today);
  }
}
