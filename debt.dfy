/** Photographer debts (`fotoapp.debt`): the pending → in_grace → expired / paid state machine,
    its effect on the subscription, the unique billing cycle and internal invoicing. */
module Debts {
  import opened Wrappers
  import opened Dates
  import opened Plans
  import opened Subscriptions
  import Orm

  datatype DebtState = Pending | InGrace | Paid | Expired
  datatype DebtType = SubscriptionDebt | CommissionDebt | OtherDebt

  datatype Debt = Debt(
    partner: nat,
    subscription: Option<nat>,
    plan: Option<Plan>,
    debtType: DebtType,
    amount: real,
    billingDate: Date,
    dueDate: Date,
    graceEndDate: Date,
    state: DebtState,
    paidDate: Option<int>,
    invoice: Option<nat>,
    saleOrder: Option<nat>,
    saleOrderLine: Option<nat>)

  /** One step of `mark_paid`: a debt not yet paid becomes paid on `date`. */
  function Pay(d: Debt, date: int): (r: Debt)
    ensures r.state == Paid
    ensures d.state == Paid ==> r == d
    ensures d.state != Paid ==> r == d.(state := Paid, paidDate := Some(date))
  {
    if d.state != Paid then d.(state := Paid, paidDate := Some(date)) else d
  }

  /** One step of `mark_in_grace`. */
  function ToGrace(d: Debt): (r: Debt)
    ensures d.state == Pending ==> r == d.(state := InGrace)
    ensures d.state != Pending ==> r == d
  {
    if d.state == Pending then d.(state := InGrace) else d
  }

  /** One step of `mark_expired`. */
  function Expire(d: Debt): (r: Debt)
    ensures d.state == Pending || d.state == InGrace ==> r == d.(state := DebtState.Expired)
    ensures d.state != Pending && d.state != InGrace ==> r == d
  {
    if d.state == Pending || d.state == InGrace then d.(state := DebtState.Expired) else d
  }

  /** `can_be_paid`. */
  predicate CanBePaid(d: Debt) { d.state == Pending || d.state == InGrace }

  /** Paid is absorbing: no transition moves a paid debt or its payment date. */
  lemma PaidIsAbsorbing(d: Debt, date: int)
    requires d.state == Paid
    ensures Pay(d, date) == d && ToGrace(d) == d && Expire(d) == d
  {
  }

  /** Paying, expiring or entering grace all make the debt payable or not exactly as the states
      say: only pending and in_grace debts can be paid, and paying or expiring ends that. */
  lemma TransitionsAndPayability(d: Debt, date: int)
    ensures !CanBePaid(Pay(d, date)) && !CanBePaid(Expire(d))
    ensures CanBePaid(ToGrace(d)) <==> CanBePaid(d)
  {
  }

  /** `get_portal_label`. */
  function PortalLabel(t: DebtType): (r: string)
    ensures t == SubscriptionDebt <==> r == "Renovación de plan"
    ensures t == CommissionDebt <==> r == "Comisión pendiente"
    ensures t == OtherDebt <==> r == "Deuda"
  {
    match t
    case SubscriptionDebt => "Renovación de plan"
    case CommissionDebt => "Comisión pendiente"
    case OtherDebt => "Deuda"
  }

  /** `_get_invoice_product`: the plan's variant, the variant of the plan's template, or the
      generic renewal product. */
  function InvoiceProduct(d: Debt, renewal: Option<Product>): (r: Option<Product>)
    ensures d.plan.Some? && d.plan.value.productVariant.Some? ==> r == d.plan.value.productVariant
    ensures d.plan.Some? && d.plan.value.productVariant.None? && d.plan.value.templateVariant.Some? ==>
      r == d.plan.value.templateVariant
    ensures d.plan.None? || (d.plan.value.productVariant.None? && d.plan.value.templateVariant.None?) ==> r == renewal
    ensures r.None? <==>
      && renewal.None?
      && (d.plan.None? || (d.plan.value.productVariant.None? && d.plan.value.templateVariant.None?))
  {
    match d.plan
    case Some(p) =>
      if p.productVariant.Some? then p.productVariant
      else if p.templateVariant.Some? then p.templateVariant
      else renewal
    case None => renewal
  }

  /** `_get_invoice_journal`: the plan's journal, else the company's first sale journal. */
  function InvoiceJournal(d: Debt, companySaleJournal: Option<nat>): (r: Option<nat>)
    ensures d.plan.Some? && d.plan.value.journal.Some? ==> r == d.plan.value.journal
    ensures (d.plan.None? || d.plan.value.journal.None?) ==> r == companySaleJournal
  {
    if d.plan.Some? && d.plan.value.journal.Some? then d.plan.value.journal else companySaleJournal
  }

  /** `_get_income_account`: plan account, then product account, then product-category account,
      then the company's default income account. */
  function IncomeAccount(d: Debt, product: Product, companyFallback: Option<nat>): (r: Option<nat>)
    ensures d.plan.Some? && d.plan.value.incomeAccount.Some? ==> r == d.plan.value.incomeAccount
    ensures (d.plan.None? || d.plan.value.incomeAccount.None?) && product.incomeAccount.Some? ==>
      r == product.incomeAccount
    ensures (d.plan.None? || d.plan.value.incomeAccount.None?) && product.incomeAccount.None? && product.categoryIncomeAccount.Some? ==>
      r == product.categoryIncomeAccount
    ensures (d.plan.None? || d.plan.value.incomeAccount.None?) && product.incomeAccount.None? && product.categoryIncomeAccount.None? ==>
      r == companyFallback
  {
    if d.plan.Some? && d.plan.value.incomeAccount.Some? then d.plan.value.incomeAccount
    else if product.incomeAccount.Some? then product.incomeAccount
    else if product.categoryIncomeAccount.Some? then product.categoryIncomeAccount
    else companyFallback
  }

  /** The filter at the head of `_create_internal_invoices`. */
  predicate NeedsInvoice(d: Debt) {
    d.invoice.None? && d.plan.Some? && d.amount != 0.0
  }

  /** The accounting context the invoicing looks up once per debt. */
  datatype Books = Books(renewal: Option<Product>, companySaleJournal: Option<nat>, companyIncome: Option<nat>)

  /** A debt `_create_internal_invoices` actually invoices: it passes the filter and a product,
      a journal and an income account can all be found. */
  predicate Invoiceable(d: Debt, b: Books) {
    NeedsInvoice(d)
    && InvoiceProduct(d, b.renewal).Some? && InvoiceJournal(d, b.companySaleJournal).Some?
    && IncomeAccount(d, InvoiceProduct(d, b.renewal).value, b.companyIncome).Some?
  }

  /** A posted customer invoice (`account.move`) for one debt. */
  datatype Invoice = Invoice(partner: nat, journal: nat, product: nat, account: nat, amount: real)

  function InvoiceFor(d: Debt, b: Books): Invoice
    requires Invoiceable(d, b)
  {
    var product := InvoiceProduct(d, b.renewal).value;
    Invoice(d.partner, InvoiceJournal(d, b.companySaleJournal).value, product.id,
            IncomeAccount(d, product, b.companyIncome).value, d.amount)
  }

  /** The key of the `fotoapp_debt_unique_cycle` constraint. SQL treats a NULL subscription as
      distinct from every other, so only debts with a subscription are constrained. */
  predicate SameCycle(a: Debt, b: Debt) {
    a.subscription.Some? && a.subscription == b.subscription
    && a.debtType == b.debtType && a.billingDate == b.billingDate
  }

  ghost predicate UniqueCycles(rows: map<nat, Debt>) {
    forall i, j :: i in rows && j in rows && i != j ==> !SameCycle(rows[i], rows[j])
  }

  predicate CycleTaken(rows: map<nat, Debt>, d: Debt) {
    exists k :: k in rows && SameCycle(rows[k], d)
  }

  /** A cycle is taken after inserting `e` exactly when it was taken before or `e` bills it. */
  lemma CycleTakenAfterInsert(rows: map<nat, Debt>, k: nat, e: Debt, d: Debt)
    requires k !in rows
    ensures CycleTaken(rows[k := e], d) <==> CycleTaken(rows, d) || SameCycle(e, d)
  {
    if CycleTaken(rows, d) {
      var j :| j in rows && SameCycle(rows[j], d);
      assert rows[k := e][j] == rows[j];
    }
    if SameCycle(e, d) {
      assert rows[k := e][k] == e;
    }
  }

  /** `Debt.create(vals)` under the unique-cycle constraint: `None` is the integrity error. */
  method CreateDebt(t: Orm.Table<Debt>, d: Debt) returns (id: Option<nat>)
    requires t.Valid()
    modifies t
    ensures t.Valid()
    ensures UniqueCycles(old(t.rows)) ==> UniqueCycles(t.rows)
    ensures id.None? <==> old(CycleTaken(t.rows, d))
    ensures id.None? ==> t.rows == old(t.rows)
    ensures id.Some? ==> id.value !in old(t.rows) && t.rows == old(t.rows)[id.value := d]
  {
    if exists k :: k in t.rows && SameCycle(t.rows[k], d) {
      return None;
    }
    var k := t.Create(d);
    id := Some(k);
  }

  /** The subscriptions `mark_paid` reaches: those of the debts of `ids` that were not paid. */
  function PaidSubscriptions(rows: map<nat, Debt>, ids: seq<nat>): set<nat>
    requires forall i :: 0 <= i < |ids| ==> ids[i] in rows
  {
    if ids == [] then {}
    else
      var d := rows[ids[|ids| - 1]];
      PaidSubscriptions(rows, ids[..|ids| - 1])
      + (if d.state != Paid && d.subscription.Some? then {d.subscription.value} else {})
  }

  /** The subscriptions `mark_expired` reaches: those of the debts of `ids` that could be paid. */
  function ExpiredSubscriptions(rows: map<nat, Debt>, ids: seq<nat>): set<nat>
    requires forall i :: 0 <= i < |ids| ==> ids[i] in rows
  {
    if ids == [] then {}
    else
      var d := rows[ids[|ids| - 1]];
      ExpiredSubscriptions(rows, ids[..|ids| - 1])
      + (if CanBePaid(d) && d.subscription.Some? then {d.subscription.value} else {})
  }

  lemma HandleSuccessfulPaymentIdempotent(s: Subscription, today: Date)
    ensures HandleSuccessfulPayment(HandleSuccessfulPayment(s, today), today) == HandleSuccessfulPayment(s, today)
  {
  }

  lemma DowngradeIdempotent(s: Subscription, freemium: Option<Plan>)
    ensures ApplyNonpaymentDowngrade(ApplyNonpaymentDowngrade(s, freemium), freemium)
            == ApplyNonpaymentDowngrade(s, freemium)
  {
  }

  /** The subscription table after applying `f` to every subscription of `reached`. */
  function Touched(subs: map<nat, Subscription>, reached: set<nat>, f: Subscription -> Subscription): map<nat, Subscription>
  {
    Orm.Updated(subs, reached, f)
  }

  /** One iteration of `mark_paid` extends the rewritten debts and reached subscriptions by the
      debt at position `i`. */
  lemma PaidStep(debts0: map<nat, Debt>, subs0: map<nat, Subscription>, ids: seq<nat>, i: nat, date: int, today: Date)
    requires Orm.IsRecordset(ids, debts0) && i < |ids|
    ensures var d := debts0[ids[i]];
      var prevDebts := Orm.Updated(debts0, Orm.Members(ids[..i]), d => Pay(d, date));
      var prev := Touched(subs0, PaidSubscriptions(debts0, ids[..i]), s => HandleSuccessfulPayment(s, today));
      prevDebts[ids[i]] == d
      && prevDebts[ids[i] := Pay(d, date)] == Orm.Updated(debts0, Orm.Members(ids[..i + 1]), d => Pay(d, date))
      && (d.subscription.Some? && d.subscription.value in subs0 ==>
            Touched(subs0, PaidSubscriptions(debts0, ids[..i + 1]), s => HandleSuccessfulPayment(s, today))
            == if d.state != Paid
               then prev[d.subscription.value := HandleSuccessfulPayment(prev[d.subscription.value], today)]
               else prev)
      && (d.subscription.None? ==>
            Touched(subs0, PaidSubscriptions(debts0, ids[..i + 1]), s => HandleSuccessfulPayment(s, today)) == prev)
  {
    var id := ids[i];
    assert id !in ids[..i];
    assert ids[..i + 1][..i] == ids[..i];
    Orm.MembersPrefix(ids, i);
    Orm.UpdatedStep(debts0, Orm.Members(ids[..i]), id, d => Pay(d, date));
    var d := debts0[id];
    if d.subscription.Some? && d.subscription.value in subs0 {
      HandleSuccessfulPaymentIdempotent(subs0[d.subscription.value], today);
      Orm.UpdatedStep(subs0, PaidSubscriptions(debts0, ids[..i]), d.subscription.value, s => HandleSuccessfulPayment(s, today));
    }
  }

  /** One iteration of `mark_expired`, as `PaidStep` for `mark_paid`. */
  lemma ExpiredStep(debts0: map<nat, Debt>, subs0: map<nat, Subscription>, ids: seq<nat>, i: nat, freemium: Option<Plan>)
    requires Orm.IsRecordset(ids, debts0) && i < |ids|
    ensures var d := debts0[ids[i]];
      var prevDebts := Orm.Updated(debts0, Orm.Members(ids[..i]), Expire);
      var prev := Touched(subs0, ExpiredSubscriptions(debts0, ids[..i]), s => ApplyNonpaymentDowngrade(s, freemium));
      prevDebts[ids[i]] == d
      && prevDebts[ids[i] := Expire(d)] == Orm.Updated(debts0, Orm.Members(ids[..i + 1]), Expire)
      && (d.subscription.Some? && d.subscription.value in subs0 ==>
            Touched(subs0, ExpiredSubscriptions(debts0, ids[..i + 1]), s => ApplyNonpaymentDowngrade(s, freemium))
            == if CanBePaid(d)
               then prev[d.subscription.value := ApplyNonpaymentDowngrade(prev[d.subscription.value], freemium)]
               else prev)
      && (d.subscription.None? ==>
            Touched(subs0, ExpiredSubscriptions(debts0, ids[..i + 1]), s => ApplyNonpaymentDowngrade(s, freemium)) == prev)
  {
    var id := ids[i];
    assert id !in ids[..i];
    assert ids[..i + 1][..i] == ids[..i];
    Orm.MembersPrefix(ids, i);
    Orm.UpdatedStep(debts0, Orm.Members(ids[..i]), id, Expire);
    var d := debts0[id];
    if d.subscription.Some? && d.subscription.value in subs0 {
      DowngradeIdempotent(subs0[d.subscription.value], freemium);
      Orm.UpdatedStep(subs0, ExpiredSubscriptions(debts0, ids[..i]), d.subscription.value, s => ApplyNonpaymentDowngrade(s, freemium));
    }
  }

  /** One iteration of `mark_paid` on debt `id`. */
  method PayOne(debts: Orm.Table<Debt>, subs: Orm.Table<Subscription>, id: nat, date: int, today: Date)
    requires id in debts.rows
    requires debts.rows[id].subscription.Some? ==> debts.rows[id].subscription.value in subs.rows
    modifies debts, subs
    ensures debts.nextId == old(debts.nextId) && subs.nextId == old(subs.nextId)
    ensures debts.rows == old(debts.rows)[id := Pay(old(debts.rows[id]), date)]
    ensures var d := old(debts.rows[id]);
      subs.rows == if d.state != Paid && d.subscription.Some?
                   then old(subs.rows)[d.subscription.value := HandleSuccessfulPayment(old(subs.rows[d.subscription.value]), today)]
                   else old(subs.rows)
  {
    var d := debts.rows[id];
    debts.rows := debts.rows[id := Pay(d, date)];
    if d.state != Paid && d.subscription.Some? {
      var sid := d.subscription.value;
      subs.rows := subs.rows[sid := HandleSuccessfulPayment(subs.rows[sid], today)];
    }
  }

  /** The loop of `mark_paid(paid_date)`: each unpaid debt is paid on `paid_date` (or `now`) and
      its subscription handles the successful payment; already-paid debts keep their paid date. */
  method PayAll(debts: Orm.Table<Debt>, subs: Orm.Table<Subscription>, ids: seq<nat>,
                paidDate: Option<int>, now: int, today: Date)
    requires Orm.IsRecordset(ids, debts.rows)
    requires forall i :: 0 <= i < |ids| && debts.rows[ids[i]].subscription.Some? ==>
      debts.rows[ids[i]].subscription.value in subs.rows
    modifies debts, subs
    ensures debts.nextId == old(debts.nextId) && subs.nextId == old(subs.nextId)
    ensures debts.rows == Orm.Updated(old(debts.rows), Orm.Members(ids), d => Pay(d, paidDate.GetOr(now)))
    ensures subs.rows == Touched(old(subs.rows), PaidSubscriptions(old(debts.rows), ids),
                                 s => HandleSuccessfulPayment(s, today))
  {
    ghost var debts0 := debts.rows;
    ghost var subs0 := subs.rows;
    var date := paidDate.GetOr(now);
    var i := 0;
    while i < |ids|
      invariant 0 <= i <= |ids|
      invariant debts.nextId == old(debts.nextId) && subs.nextId == old(subs.nextId)
      invariant debts.rows == Orm.Updated(debts0, Orm.Members(ids[..i]), d => Pay(d, date))
      invariant subs.rows == Touched(subs0, PaidSubscriptions(debts0, ids[..i]), s => HandleSuccessfulPayment(s, today))
    {
      var id := ids[i];
      PaidStep(debts0, subs0, ids, i, date, today);
      ghost var d := debts0[id];
      assert debts.rows[id] == d;
      assert d.subscription.Some? ==> d.subscription.value in subs.rows;
      PayOne(debts, subs, id, date, today);
      i := i + 1;
    }
    assert ids[..i] == ids;
  }

  /** `mark_paid(paid_date)`. Each reached subscription is written back to active, so
      `_constrain_unique_active` runs on it; when it raises, the whole call is rolled back.
      Payments only ever add active subscriptions, so checking the final table is the same as
      checking after each write. */
  method MarkPaid(debts: Orm.Table<Debt>, subs: Orm.Table<Subscription>, ids: seq<nat>,
                  paidDate: Option<int>, now: int, today: Date) returns (ok: bool)
    requires Orm.IsRecordset(ids, debts.rows)
    requires forall i :: 0 <= i < |ids| && debts.rows[ids[i]].subscription.Some? ==>
      debts.rows[ids[i]].subscription.value in subs.rows
    modifies debts, subs
    ensures debts.nextId == old(debts.nextId) && subs.nextId == old(subs.nextId)
    ensures ok <==> ConstraintHolds(Touched(old(subs.rows), PaidSubscriptions(old(debts.rows), ids),
                                            s => HandleSuccessfulPayment(s, today)),
                                    PaidSubscriptions(old(debts.rows), ids))
    ensures ok ==>
      && debts.rows == Orm.Updated(old(debts.rows), Orm.Members(ids), d => Pay(d, paidDate.GetOr(now)))
      && subs.rows == Touched(old(subs.rows), PaidSubscriptions(old(debts.rows), ids),
                              s => HandleSuccessfulPayment(s, today))
    ensures !ok ==> debts.rows == old(debts.rows) && subs.rows == old(subs.rows)
    ensures UniqueActive(old(subs.rows)) ==> UniqueActive(subs.rows)
  {
    var reached := PaidSubscriptions(debts.rows, ids);
    ok := ConstraintHolds(Touched(subs.rows, reached, s => HandleSuccessfulPayment(s, today)), reached);
    if !ok {
      return;
    }
    PayAll(debts, subs, ids, paidDate, now, today);
    if UniqueActive(old(subs.rows)) {
      ConstraintPreservesUniqueness(old(subs.rows), subs.rows, reached);
    }
  }

  /** `mark_in_grace`. */
  method MarkInGrace(debts: Orm.Table<Debt>, ids: seq<nat>)
    requires Orm.IsRecordset(ids, debts.rows)
    modifies debts
    ensures debts.rows.Keys == old(debts.rows.Keys) && debts.nextId == old(debts.nextId)
    ensures forall k :: k in debts.rows ==>
      debts.rows[k] == if k in ids then ToGrace(old(debts.rows[k])) else old(debts.rows[k])
  {
    debts.ApplyEach(ids, ToGrace);
  }

  /** One iteration of `mark_expired` on debt `id`. */
  method ExpireOne(debts: Orm.Table<Debt>, subs: Orm.Table<Subscription>, id: nat, freemium: Option<Plan>)
    requires id in debts.rows
    requires debts.rows[id].subscription.Some? ==> debts.rows[id].subscription.value in subs.rows
    modifies debts, subs
    ensures debts.nextId == old(debts.nextId) && subs.nextId == old(subs.nextId)
    ensures debts.rows == old(debts.rows)[id := Expire(old(debts.rows[id]))]
    ensures var d := old(debts.rows[id]);
      subs.rows == if CanBePaid(d) && d.subscription.Some?
                   then old(subs.rows)[d.subscription.value := ApplyNonpaymentDowngrade(old(subs.rows[d.subscription.value]), freemium)]
                   else old(subs.rows)
  {
    var d := debts.rows[id];
    debts.rows := debts.rows[id := Expire(d)];
    if CanBePaid(d) && d.subscription.Some? {
      var sid := d.subscription.value;
      subs.rows := subs.rows[sid := ApplyNonpaymentDowngrade(subs.rows[sid], freemium)];
    }
  }

  /** The loop of `mark_expired`: pending and in-grace debts expire and their subscriptions are
      downgraded. */
  method ExpireAll(debts: Orm.Table<Debt>, subs: Orm.Table<Subscription>, ids: seq<nat>,
                   freemium: Option<Plan>)
    requires Orm.IsRecordset(ids, debts.rows)
    requires forall i :: 0 <= i < |ids| && debts.rows[ids[i]].subscription.Some? ==>
      debts.rows[ids[i]].subscription.value in subs.rows
    modifies debts, subs
    ensures debts.nextId == old(debts.nextId) && subs.nextId == old(subs.nextId)
    ensures debts.rows == Orm.Updated(old(debts.rows), Orm.Members(ids), Expire)
    ensures subs.rows == Touched(old(subs.rows), ExpiredSubscriptions(old(debts.rows), ids),
                                 s => ApplyNonpaymentDowngrade(s, freemium))
  {
    ghost var debts0 := debts.rows;
    ghost var subs0 := subs.rows;
    var i := 0;
    while i < |ids|
      invariant 0 <= i <= |ids|
      invariant debts.nextId == old(debts.nextId) && subs.nextId == old(subs.nextId)
      invariant debts.rows == Orm.Updated(debts0, Orm.Members(ids[..i]), Expire)
      invariant subs.rows == Touched(subs0, ExpiredSubscriptions(debts0, ids[..i]), s => ApplyNonpaymentDowngrade(s, freemium))
    {
      var id := ids[i];
      ExpiredStep(debts0, subs0, ids, i, freemium);
      ghost var d := debts0[id];
      assert debts.rows[id] == d;
      assert d.subscription.Some? ==> d.subscription.value in subs.rows;
      ExpireOne(debts, subs, id, freemium);
      i := i + 1;
    }
    assert ids[..i] == ids;
  }

  /** `mark_expired`. The downgrade writes `state` back to active, so `_constrain_unique_active`
      runs on each reached subscription; when it raises, the whole call is rolled back. */
  method MarkExpired(debts: Orm.Table<Debt>, subs: Orm.Table<Subscription>, ids: seq<nat>,
                     freemium: Option<Plan>) returns (ok: bool)
    requires Orm.IsRecordset(ids, debts.rows)
    requires forall i :: 0 <= i < |ids| && debts.rows[ids[i]].subscription.Some? ==>
      debts.rows[ids[i]].subscription.value in subs.rows
    modifies debts, subs
    ensures debts.nextId == old(debts.nextId) && subs.nextId == old(subs.nextId)
    ensures ok <==> ConstraintHolds(Touched(old(subs.rows), ExpiredSubscriptions(old(debts.rows), ids),
                                            s => ApplyNonpaymentDowngrade(s, freemium)),
                                    ExpiredSubscriptions(old(debts.rows), ids))
    ensures ok ==>
      && debts.rows == Orm.Updated(old(debts.rows), Orm.Members(ids), Expire)
      && subs.rows == Touched(old(subs.rows), ExpiredSubscriptions(old(debts.rows), ids),
                              s => ApplyNonpaymentDowngrade(s, freemium))
    ensures !ok ==> debts.rows == old(debts.rows) && subs.rows == old(subs.rows)
    ensures UniqueActive(old(subs.rows)) ==> UniqueActive(subs.rows)
  {
    var reached := ExpiredSubscriptions(debts.rows, ids);
    ok := ConstraintHolds(Touched(subs.rows, reached, s => ApplyNonpaymentDowngrade(s, freemium)), reached);
    if !ok {
      return;
    }
    ExpireAll(debts, subs, ids, freemium);
    if UniqueActive(old(subs.rows)) {
      ConstraintPreservesUniqueness(old(subs.rows), subs.rows, reached);
    }
  }

  /** What `_create_internal_invoices` leaves of debt `d0` as `d`: when the debt was handled
      (`done`) and invoiceable, it now points at an invoice in `moves`, listed in `created`,
      made for it; otherwise it is unchanged. */
  predicate Invoiced(d0: Debt, d: Debt, moves: map<nat, Invoice>, created: seq<nat>, b: Books, done: bool) {
    if done && Invoiceable(d0, b) then
      d.invoice.Some? && d == d0.(invoice := d.invoice) && d.invoice.value in created
      && d.invoice.value in moves && moves[d.invoice.value] == InvoiceFor(d0, b)
    else d == d0
  }

  /** Creating more invoices does not disturb a debt already handled. */
  lemma InvoicedGrows(d0: Debt, d: Debt, moves: map<nat, Invoice>, moves': map<nat, Invoice>,
                      created: seq<nat>, m: nat, b: Books, done: bool)
    requires Invoiced(d0, d, moves, created, b, done)
    requires forall x :: x in moves ==> x in moves' && moves'[x] == moves[x]
    ensures Invoiced(d0, d, moves', created + [m], b, done)
  {
  }

  /** A handled debt is never invoiceable again: `_create_internal_invoices` is idempotent. */
  lemma InvoicedIsFinal(d0: Debt, d: Debt, moves: map<nat, Invoice>, created: seq<nat>, b: Books)
    requires Invoiced(d0, d, moves, created, b, true)
    ensures !Invoiceable(d, b)
  {
  }

  /** One iteration of `_create_internal_invoices` on debt `id`. */
  method InvoiceOne(debts: Orm.Table<Debt>, moves: Orm.Table<Invoice>, id: nat, b: Books) returns (m: Option<nat>)
    requires id in debts.rows && moves.Valid()
    modifies debts, moves
    ensures moves.Valid() && debts.nextId == old(debts.nextId)
    ensures m.None? <==> !Invoiceable(old(debts.rows[id]), b)
    ensures m.None? ==> debts.rows == old(debts.rows) && moves.rows == old(moves.rows)
    ensures m.Some? ==> (m.value !in old(moves.rows)
      && moves.rows == old(moves.rows)[m.value := InvoiceFor(old(debts.rows[id]), b)]
      && debts.rows == old(debts.rows)[id := old(debts.rows[id]).(invoice := m)])
  {
    var d := debts.rows[id];
    if Invoiceable(d, b) {
      var x := moves.Create(InvoiceFor(d, b));
      debts.rows := debts.rows[id := d.(invoice := Some(x))];
      m := Some(x);
    } else {
      m := None;
    }
  }

  /** After the loop no debt of the set is invoiceable, and no two debts share a cycle. */
  lemma InvoicingDone(debts0: map<nat, Debt>, rows: map<nat, Debt>, moves: map<nat, Invoice>, created: seq<nat>,
                      ids: seq<nat>, b: Books)
    requires Orm.IsRecordset(ids, debts0) && rows.Keys == debts0.Keys
    requires forall k :: k in rows ==> Invoiced(debts0[k], rows[k], moves, created, b, k in Orm.Members(ids))
    ensures forall k :: k in ids ==> !Invoiceable(rows[k], b)
    ensures UniqueCycles(debts0) ==> UniqueCycles(rows)
  {
    forall k | k in ids
      ensures !Invoiceable(rows[k], b)
    {
      if Invoiceable(debts0[k], b) {
        InvoicedIsFinal(debts0[k], rows[k], moves, created, b);
      }
    }
    if UniqueCycles(debts0) {
      forall i, j | i in rows && j in rows && i != j
        ensures !SameCycle(rows[i], rows[j])
      {
        assert !SameCycle(debts0[i], debts0[j]);
        assert Invoiced(debts0[i], rows[i], moves, created, b, i in Orm.Members(ids));
        assert Invoiced(debts0[j], rows[j], moves, created, b, j in Orm.Members(ids));
      }
    }
  }

  /** One iteration of `_create_internal_invoices` keeps every debt accounted for. */
  lemma InvoiceStep(debts0: map<nat, Debt>, before: map<nat, Debt>, after: map<nat, Debt>,
                    movesBefore: map<nat, Invoice>, movesAfter: map<nat, Invoice>,
                    createdBefore: seq<nat>, created: seq<nat>, ids: seq<nat>, i: nat, m: Option<nat>, b: Books)
    requires Orm.IsRecordset(ids, debts0) && i < |ids| && before.Keys == debts0.Keys
    requires forall k :: k in before ==>
      Invoiced(debts0[k], before[k], movesBefore, createdBefore, b, k in Orm.Members(ids[..i]))
    requires m.None? <==> !Invoiceable(before[ids[i]], b)
    requires m.None? ==> after == before && movesAfter == movesBefore && created == createdBefore
    requires m.Some? ==>
      && m.value !in movesBefore && movesAfter == movesBefore[m.value := InvoiceFor(before[ids[i]], b)]
      && after == before[ids[i] := before[ids[i]].(invoice := m)] && created == createdBefore + [m.value]
    ensures after.Keys == debts0.Keys
    ensures forall k :: k in after ==>
      Invoiced(debts0[k], after[k], movesAfter, created, b, k in Orm.Members(ids[..i + 1]))
  {
    var id := ids[i];
    assert id !in ids[..i];
    Orm.MembersPrefix(ids, i);
    assert before[id] == debts0[id];
    if m.Some? {
      forall k | k in after
        ensures Invoiced(debts0[k], after[k], movesAfter, created, b, k in Orm.Members(ids[..i + 1]))
      {
        if k != id {
          InvoicedGrows(debts0[k], before[k], movesBefore, movesAfter, createdBefore, m.value, b, k in Orm.Members(ids[..i]));
        }
      }
    }
  }

  /** `_create_internal_invoices`: each invoiceable debt gets one new posted invoice; every other
      debt, in particular one already invoiced, is left as it was. Afterwards no debt of the set
      is invoiceable any more, so running it again creates nothing. */
  method CreateInternalInvoices(debts: Orm.Table<Debt>, moves: Orm.Table<Invoice>, ids: seq<nat>, b: Books)
      returns (created: seq<nat>)
    requires Orm.IsRecordset(ids, debts.rows) && moves.Valid()
    modifies debts, moves
    ensures moves.Valid()
    ensures debts.rows.Keys == old(debts.rows.Keys) && debts.nextId == old(debts.nextId)
    ensures forall k :: k in debts.rows ==>
      Invoiced(old(debts.rows[k]), debts.rows[k], moves.rows, created, b, k in Orm.Members(ids))
    ensures forall k :: k in ids ==> !Invoiceable(debts.rows[k], b)
    ensures forall m :: m in created ==> m !in old(moves.rows) && m in moves.rows
    ensures forall m :: m in old(moves.rows) ==> m in moves.rows && moves.rows[m] == old(moves.rows[m])
    ensures UniqueCycles(old(debts.rows)) ==> UniqueCycles(debts.rows)
  {
    ghost var debts0 := debts.rows;
    ghost var moves0 := moves.rows;
    created := [];
    var i := 0;
    while i < |ids|
      invariant 0 <= i <= |ids|
      invariant moves.Valid()
      invariant debts.rows.Keys == debts0.Keys && debts.nextId == old(debts.nextId)
      invariant forall k :: k in debts.rows ==>
        Invoiced(debts0[k], debts.rows[k], moves.rows, created, b, k in Orm.Members(ids[..i]))
      invariant forall m :: m in created ==> m !in moves0 && m in moves.rows
      invariant forall m :: m in moves0 ==> m in moves.rows && moves.rows[m] == moves0[m]
    {
      var id := ids[i];
      ghost var before := debts.rows;
      ghost var movesBefore := moves.rows;
      ghost var createdBefore := created;
      var m := InvoiceOne(debts, moves, id, b);
      if m.Some? {
        created := created + [m.value];
      }
      InvoiceStep(debts0, before, debts.rows, movesBefore, moves.rows, createdBefore, created, ids, i, m, b);
      i := i + 1;
    }
    assert ids[..i] == ids;
    InvoicingDone(debts0, debts.rows, moves.rows, created, ids, b);
  }
}
