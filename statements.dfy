/** Photographer commission statements (`fotoapp.photographer.statement` and its lines) and the
    wizard that generates them for a chosen month: the commission and net of each line, the
    statement totals, the monthly period, the grouping of paid photo sales by photographer, and
    the replace-or-create step that keeps one statement per photographer and period. */
module Statements {
  import opened Wrappers
  import opened Dates
  import SaleOrders
  import Arith
  import Orm
  import Text

  // ---------------------------------------------------------------------------------------
  // Lines and totals

  /** A statement line: the photo sold, the sale order and position of the order line that sold
      it, the customer, the sale date, and the sale amount with the commission taken from it. */
  datatype Line = Line(
    asset: nat,
    orderLine: (nat, nat),
    customer: nat,
    saleDate: Option<Date>,
    saleAmount: real,
    commissionPercent: real,
    commissionAmount: real,
    netAmount: real)

  /** A line whose commission and net are as `_compute_net_amount` leaves them. */
  predicate Computed(l: Line) {
    l.commissionAmount == l.saleAmount * l.commissionPercent / 100.0
    && l.netAmount == l.saleAmount - l.commissionAmount
  }

  /** A line created from its sale amount and percent, its stored amounts then computed. */
  function NewLine(asset: nat, orderLine: (nat, nat), customer: nat, saleDate: Option<Date>,
                   sale: real, percent: real): (l: Line)
    ensures Computed(l) && l.commissionAmount + l.netAmount == sale
    ensures l.saleAmount == sale && l.commissionPercent == percent
    ensures l.asset == asset && l.orderLine == orderLine && l.customer == customer && l.saleDate == saleDate
  {
    var commission := sale * percent / 100.0;
    Line(asset, orderLine, customer, saleDate, sale, percent, commission, sale - commission)
  }

  /** The net is the photographer's share of the sale, and with a percent between 0 and 100 both
      parts of a non-negative sale lie between nothing and the whole sale. */
  lemma NetShare(l: Line)
    requires Computed(l)
    ensures l.netAmount == l.saleAmount * (100.0 - l.commissionPercent) / 100.0
    ensures 0.0 <= l.saleAmount && 0.0 <= l.commissionPercent <= 100.0 ==>
      0.0 <= l.commissionAmount <= l.saleAmount && 0.0 <= l.netAmount <= l.saleAmount
  {
    if 0.0 <= l.saleAmount && 0.0 <= l.commissionPercent <= 100.0 {
      assert l.saleAmount * l.commissionPercent <= l.saleAmount * 100.0;
    }
  }

  /** A photographer's statement for one period. */
  datatype Statement = Statement(
    name: string,
    partner: nat,
    periodStart: Date,
    periodEnd: Date,
    periodMonth: string,
    currency: nat,
    commissionPercent: real,
    saleTotal: real,
    commissionTotal: real,
    adjustmentTotal: real,
    payoutTotal: real,
    saleCount: nat,
    lines: seq<Line>)

  function Sales(ls: seq<Line>): (r: seq<real>)
    ensures |r| == |ls| && forall i :: 0 <= i < |ls| ==> r[i] == ls[i].saleAmount
  {
    seq(|ls|, i requires 0 <= i < |ls| => ls[i].saleAmount)
  }

  function Commissions(ls: seq<Line>): (r: seq<real>)
    ensures |r| == |ls| && forall i :: 0 <= i < |ls| ==> r[i] == ls[i].commissionAmount
  {
    seq(|ls|, i requires 0 <= i < |ls| => ls[i].commissionAmount)
  }

  function Nets(ls: seq<Line>): (r: seq<real>)
    ensures |r| == |ls| && forall i :: 0 <= i < |ls| ==> r[i] == ls[i].netAmount
  {
    seq(|ls|, i requires 0 <= i < |ls| => ls[i].netAmount)
  }

  /** `_compute_totals`: sale and commission sums, the number of lines, and the payout. */
  function WithTotals(s: Statement): Statement {
    s.(saleTotal := Arith.Sum(Sales(s.lines)),
       commissionTotal := Arith.Sum(Commissions(s.lines)),
       saleCount := |s.lines|,
       payoutTotal := Arith.Sum(Nets(s.lines)) + s.adjustmentTotal)
  }

  /** With computed lines the totals balance: the sales are the commission plus the payout
      before adjustments; the count is the number of lines, and recomputing changes nothing. */
  lemma TotalsBalance(s: Statement)
    requires forall i :: 0 <= i < |s.lines| ==> Computed(s.lines[i])
    ensures var r := WithTotals(s);
      && r.saleTotal == r.commissionTotal + (r.payoutTotal - r.adjustmentTotal)
      && r.saleCount == |s.lines| && r.lines == s.lines && r.adjustmentTotal == s.adjustmentTotal
      && WithTotals(r) == r
  {
    Arith.SumDifference(Sales(s.lines), Commissions(s.lines), Nets(s.lines));
  }

  /** When every line carries the same percent, the commission total is that share of the sales. */
  lemma UniformPercentTotals(s: Statement, percent: real)
    requires forall i :: 0 <= i < |s.lines| ==> Computed(s.lines[i]) && s.lines[i].commissionPercent == percent
    ensures WithTotals(s).commissionTotal == WithTotals(s).saleTotal * (percent / 100.0)
  {
    var sales, commissions := Sales(s.lines), Commissions(s.lines);
    forall i | 0 <= i < |commissions|
      ensures commissions[i] == sales[i] * (percent / 100.0)
    {
      assert s.lines[i].commissionAmount == s.lines[i].saleAmount * percent / 100.0;
    }
    Arith.SumScaled(sales, percent / 100.0, commissions);
  }

  // ---------------------------------------------------------------------------------------
  // Month label and periods

  function TwoDigits(n: nat): string
    requires n < 100
  {
    [Text.DigitChar(n / 10), Text.DigitChar(n % 10)]
  }

  /** `strftime('%Y-%m')`: the year's digits, a dash, and the two-digit month. */
  function MonthLabel(d: Date): (r: string)
    ensures |r| >= 4 && r[|r| - 3] == '-'
  {
    Text.IntToString(d.year) + "-" + TwoDigits(d.month)
  }

  /** Two dates have the same label exactly when they fall in the same month. */
  lemma MonthLabelIdentifiesMonth(a: Date, b: Date)
    ensures MonthLabel(a) == MonthLabel(b) <==> a.year == b.year && a.month == b.month
  {
    if MonthLabel(a) == MonthLabel(b) {
      var ya, yb := Text.IntToString(a.year), Text.IntToString(b.year);
      var la := MonthLabel(a);
      assert la[..|ya|] == ya;
      assert MonthLabel(b)[..|yb|] == yb;
      assert |ya| == |yb|;
      Text.ParseIntOfIntToString(a.year);
      Text.ParseIntOfIntToString(b.year);
      assert la[|ya| + 1] == Text.DigitChar(a.month / 10) && la[|ya| + 2] == Text.DigitChar(a.month % 10);
      assert MonthLabel(b)[|yb| + 1] == Text.DigitChar(b.month / 10);
      assert MonthLabel(b)[|yb| + 2] == Text.DigitChar(b.month % 10);
      assert a.month / 10 == b.month / 10 && a.month % 10 == b.month % 10;
    }
  }

  /** A statement period: both ends inclusive. */
  datatype Period = Period(start: Date, end: Date)

  /** The period of `cron_generate_monthly_commissions` run on `today`. */
  function CronPeriod(today: Date): Period {
    var first := FirstOfMonth(today);
    Period(AddMonths(first, -1), PrevDay(first))
  }

  /** The month after a first of the month, as a first of the month. */
  lemma NextMonthStart(s: Date, f: Date)
    requires s.day == 1 && f.day == 1 && MonthIndex(f) == MonthIndex(s) + 1
    ensures AddMonths(s, 1) == f
  {
    var total := MonthIndex(s) + 1;
    assert total == f.year * 12 + (f.month - 1);
    assert total / 12 == f.year && total % 12 == f.month - 1;
  }

  /** The monthly run covers the whole previous calendar month: from its first day to its last,
      which is the day before the first of the current month. */
  lemma CronPeriodIsPreviousMonth(today: Date)
    ensures var per := CronPeriod(today);
      && per.start.day == 1 && MonthIndex(per.start) == MonthIndex(today) - 1
      && per.end.year == per.start.year && per.end.month == per.start.month
      && per.end.day == DaysInMonth(per.start.year, per.start.month)
      && Lt(per.end, FirstOfMonth(today))
  {
    var first := FirstOfMonth(today);
    var start := AddMonths(first, -1);
    MonthIndexShift(first, -1);
    assert FirstOfMonth(start) == start;
    NextMonthStart(start, first);
    LastDayOfMonth(start);
  }

  /** `_default_period_month`: the first day of the current month. */
  function DefaultPeriodMonth(today: Date): (r: Date)
    ensures r.day == 1 && r.year == today.year && r.month == today.month && Le(r, today)
  {
    FirstOfMonth(today)
  }

  datatype WizardError = NoMonthSelected

  /** The period the wizard generates for: the chosen month from its first day to its last. */
  function WizardPeriod(month: Option<Date>): (r: Result<Period, WizardError>)
    ensures month.None? <==> r.Err?
    ensures r.Ok? ==> var per := r.value;
      && per.start.day == 1 && per.start.year == month.value.year && per.start.month == month.value.month
      && per.end.year == month.value.year && per.end.month == month.value.month
      && per.end.day == DaysInMonth(month.value.year, month.value.month)
      && Le(per.start, month.value) && Le(month.value, per.end)
  {
    match month
    case None => Err(NoMonthSelected)
    case Some(m) =>
      var start := FirstOfMonth(m);
      LastDayOfMonth(m);
      assert FirstOfMonth(start) == start;
      Ok(Period(start, PrevDay(AddMonths(start, 1))))
  }

  // ---------------------------------------------------------------------------------------
  // Grouping paid photo sales by photographer

  /** What generation reads besides the statements: every sale order with its id, in the
      order `sale.order` searches return them; the ids of orders with a 'done' payment
      transaction; each order's currency where it has one; the company currency; and the
      partners' display names. */
  datatype Books = Books(
    orders: seq<(nat, SaleOrders.Order)>,
    paid: set<nat>,
    currencyOf: map<nat, nat>,
    companyCurrency: nat,
    names: map<nat, string>)

  /** A confirmed ('sale' or 'done') order of a photographer, dated within the period, and paid. */
  predicate Eligible(e: (nat, SaleOrders.Order), paid: set<nat>, per: Period) {
    var o := e.1;
    && o.photographer.Some?
    && (o.state == SaleOrders.SaleOrder || o.state == SaleOrders.Locked)
    && o.dateOrder.Some? && Le(per.start, o.dateOrder.value) && Le(o.dateOrder.value, per.end)
    && e.0 in paid
  }

  /** The photographer an order is grouped under (0 stands for none and is never used). */
  function Owner(e: (nat, SaleOrders.Order)): nat {
    e.1.photographer.GetOr(0)
  }

  /** The percent applied to an order's lines: the order's own commission percent, or else its
      plan's, plus the plan's transaction fee. */
  function AppliedPercent(o: SaleOrders.Order): (r: real)
    ensures o.commissionPercent != 0.0 && o.plan.Some? ==>
      r == o.commissionPercent + o.plan.value.transactionFeePercent
    ensures o.commissionPercent != 0.0 && o.plan.None? ==> r == o.commissionPercent
    ensures o.commissionPercent == 0.0 && o.plan.Some? ==>
      r == o.plan.value.commissionPercent + o.plan.value.transactionFeePercent
    ensures o.commissionPercent == 0.0 && o.plan.None? ==> r == 0.0
  {
    var commission := if o.commissionPercent != 0.0 then o.commissionPercent
      else if o.plan.Some? then o.plan.value.commissionPercent else 0.0;
    var fee := if o.plan.Some? then o.plan.value.transactionFeePercent else 0.0;
    commission + fee
  }

  /** A line that becomes a statement line: it names a photographer and a photo. */
  predicate Qualifies(l: SaleOrders.OrderLine) {
    l.photographer.Some? && l.asset.Some?
  }

  /** The statement line for line `k` of order `id`. */
  function Payload(id: nat, o: SaleOrders.Order, k: nat): (l: Line)
    requires k < |o.lines| && Qualifies(o.lines[k])
  {
    NewLine(o.lines[k].asset.value, (id, k), o.partner, o.dateOrder, o.lines[k].priceTotal, AppliedPercent(o))
  }

  /** The statement lines of the first `n` lines of an order, in line order. */
  function Payloads(id: nat, o: SaleOrders.Order, n: nat): (r: seq<Line>)
    requires n <= |o.lines|
    ensures |r| <= n
    ensures forall l :: l in r ==>
      && l.orderLine.0 == id && l.orderLine.1 < n && Qualifies(o.lines[l.orderLine.1])
      && l == Payload(id, o, l.orderLine.1)
    ensures forall k :: 0 <= k < n && Qualifies(o.lines[k]) ==> Payload(id, o, k) in r
  {
    if n == 0 then []
    else Payloads(id, o, n - 1) + (if Qualifies(o.lines[n - 1]) then [Payload(id, o, n - 1)] else [])
  }

  /** The statement lines an order contributes: those of an eligible order's qualifying lines. */
  function OrderPayloads(e: (nat, SaleOrders.Order), paid: set<nat>, per: Period): seq<Line> {
    if Eligible(e, paid, per) then Payloads(e.0, e.1, |e.1.lines|) else []
  }

  /** The lines grouped under photographer `p`, over the orders in turn. */
  function LinesFor(orders: seq<(nat, SaleOrders.Order)>, paid: set<nat>, per: Period, p: nat): seq<Line> {
    if orders == [] then []
    else
      var e := orders[|orders| - 1];
      LinesFor(orders[..|orders| - 1], paid, per, p)
        + (if e.1.photographer == Some(p) then OrderPayloads(e, paid, per) else [])
  }

  /** The grouped photographers, in the order of their first statement line. */
  function GroupKeys(orders: seq<(nat, SaleOrders.Order)>, paid: set<nat>, per: Period): seq<nat> {
    if orders == [] then []
    else
      var ks := GroupKeys(orders[..|orders| - 1], paid, per);
      var e := orders[|orders| - 1];
      if OrderPayloads(e, paid, per) != [] && Owner(e) !in ks then ks + [Owner(e)] else ks
  }

  predicate Distinct(ks: seq<nat>) {
    forall i, j :: 0 <= i < j < |ks| ==> ks[i] != ks[j]
  }

  /** Each photographer is grouped once, and exactly the photographers with statement lines are. */
  lemma {:induction false} GroupKeysExact(orders: seq<(nat, SaleOrders.Order)>, paid: set<nat>, per: Period)
    ensures Distinct(GroupKeys(orders, paid, per))
    ensures forall p :: p in GroupKeys(orders, paid, per) <==> LinesFor(orders, paid, per, p) != []
    decreases |orders|
  {
    if orders != [] {
      GroupKeysExact(orders[..|orders| - 1], paid, per);
    }
  }

  /** A grouped line comes from a qualifying line of an eligible order of that photographer, and
      every qualifying line of every such order is grouped. */
  lemma {:induction false} LinesForExactly(orders: seq<(nat, SaleOrders.Order)>, paid: set<nat>, per: Period, p: nat)
    ensures forall l :: l in LinesFor(orders, paid, per, p) ==> exists j :: 0 <= j < |orders| && Source(orders[j], paid, per, p, l)
    ensures forall j, k ::
      (0 <= j < |orders| && Eligible(orders[j], paid, per) && orders[j].1.photographer == Some(p)
       && 0 <= k < |orders[j].1.lines| && Qualifies(orders[j].1.lines[k])) ==>
      Payload(orders[j].0, orders[j].1, k) in LinesFor(orders, paid, per, p)
    decreases |orders|
  {
    if orders != [] {
      var n := |orders| - 1;
      var front := orders[..n];
      LinesForExactly(front, paid, per, p);
      forall l | l in LinesFor(orders, paid, per, p)
        ensures exists j :: 0 <= j < |orders| && Source(orders[j], paid, per, p, l)
      {
        if l in LinesFor(front, paid, per, p) {
          var j :| 0 <= j < |front| && Source(front[j], paid, per, p, l);
          assert orders[j] == front[j];
        } else {
          assert Source(orders[n], paid, per, p, l);
        }
      }
      forall j, k | 0 <= j < |orders| && Eligible(orders[j], paid, per) && orders[j].1.photographer == Some(p)
        && 0 <= k < |orders[j].1.lines| && Qualifies(orders[j].1.lines[k])
        ensures Payload(orders[j].0, orders[j].1, k) in LinesFor(orders, paid, per, p)
      {
        if j < n {
          assert orders[j] == front[j];
        }
      }
    }
  }

  /** Line `l` of photographer `p` comes from order `e`. */
  predicate Source(e: (nat, SaleOrders.Order), paid: set<nat>, per: Period, p: nat, l: Line) {
    && Eligible(e, paid, per) && e.1.photographer == Some(p)
    && l.orderLine.0 == e.0 && l.orderLine.1 < |e.1.lines| && Qualifies(e.1.lines[l.orderLine.1])
    && l == Payload(e.0, e.1, l.orderLine.1)
  }

  /** Adding one order's lines to the groups: a photographer's group is opened with the first
      line added for them (the `defaultdict`), and the keys keep the order of opening. */
  function AddGroup(keys: seq<nat>, groups: map<nat, seq<Line>>, p: nat, ls: seq<Line>)
    : (seq<nat>, map<nat, seq<Line>>)
  {
    if ls == [] then (keys, groups)
    else (if p in groups then keys else keys + [p], groups[p := (if p in groups then groups[p] else []) + ls])
  }

  /** Grouping one more order extends the grouping of the orders before it. */
  lemma GroupStep(orders: seq<(nat, SaleOrders.Order)>, paid: set<nat>, per: Period, i: nat,
                  keys: seq<nat>, groups: map<nat, seq<Line>>)
    requires i < |orders|
    requires keys == GroupKeys(orders[..i], paid, per)
    requires forall p :: p in groups <==> p in keys
    requires forall p :: p in groups ==> groups[p] == LinesFor(orders[..i], paid, per, p)
    ensures var g := AddGroup(keys, groups, Owner(orders[i]), OrderPayloads(orders[i], paid, per));
      && g.0 == GroupKeys(orders[..i + 1], paid, per)
      && (forall p :: p in g.1 <==> p in g.0)
      && forall p :: p in g.1 ==> g.1[p] == LinesFor(orders[..i + 1], paid, per, p)
  {
    assert orders[..i + 1][..i] == orders[..i];
    GroupKeysExact(orders[..i], paid, per);
  }

  /** Adding one more line to a grouping. */
  lemma AddGroupSnoc(keys0: seq<nat>, groups0: map<nat, seq<Line>>, p: nat, ls: seq<Line>, x: Line)
    ensures var g := AddGroup(keys0, groups0, p, ls);
      AddGroup(keys0, groups0, p, ls + [x])
        == (if p in g.1 then g.0 else g.0 + [p], g.1[p := (if p in g.1 then g.1[p] else []) + [x]])
  {
    var before := if p in groups0 then groups0[p] else [];
    assert ls + [x] != [];
    if ls != [] {
      assert before + (ls + [x]) == (before + ls) + [x];
      assert groups0[p := before + ls][p := (before + ls) + [x]] == groups0[p := before + (ls + [x])];
    } else {
      assert ls + [x] == [x];
    }
  }

  /** The inner loop over one eligible order's lines: each qualifying line is appended to the
      photographer's group, opening it on the first. */
  method GroupOrder(keys0: seq<nat>, groups0: map<nat, seq<Line>>, owner: nat, id: nat, o: SaleOrders.Order)
    returns (keys: seq<nat>, groups: map<nat, seq<Line>>)
    ensures (keys, groups) == AddGroup(keys0, groups0, owner, Payloads(id, o, |o.lines|))
  {
    keys, groups := keys0, groups0;
    var k := 0;
    while k < |o.lines|
      invariant 0 <= k <= |o.lines|
      invariant (keys, groups) == AddGroup(keys0, groups0, owner, Payloads(id, o, k))
    {
      if Qualifies(o.lines[k]) {
        var line := Payload(id, o, k);
        assert Payloads(id, o, k + 1) == Payloads(id, o, k) + [line];
        AddGroupSnoc(keys0, groups0, owner, Payloads(id, o, k), line);
        var group := if owner in groups then groups[owner] else [];
        if owner !in groups {
          keys := keys + [owner];
        }
        groups := groups[owner := group + [line]];
      } else {
        assert Payloads(id, o, k + 1) == Payloads(id, o, k);
      }
      k := k + 1;
    }
  }

  /** The grouping loop of `_generate_commission_statements`: the photographers in order of
      their first line, each with their statement lines. */
  method GroupPayloads(orders: seq<(nat, SaleOrders.Order)>, paid: set<nat>, per: Period)
    returns (keys: seq<nat>, groups: map<nat, seq<Line>>)
    ensures keys == GroupKeys(orders, paid, per)
    ensures forall p :: p in groups <==> p in keys
    ensures forall p :: p in groups ==> groups[p] == LinesFor(orders, paid, per, p)
  {
    keys, groups := [], map[];
    var i := 0;
    while i < |orders|
      invariant 0 <= i <= |orders|
      invariant keys == GroupKeys(orders[..i], paid, per)
      invariant forall p :: p in groups <==> p in keys
      invariant forall p :: p in groups ==> groups[p] == LinesFor(orders[..i], paid, per, p)
    {
      ghost var keys0, groups0 := keys, groups;
      if Eligible(orders[i], paid, per) {
        keys, groups := GroupOrder(keys, groups, Owner(orders[i]), orders[i].0, orders[i].1);
      }
      GroupStep(orders, paid, per, i, keys0, groups0);
      i := i + 1;
    }
    assert orders[..|orders|] == orders;
  }

  // ---------------------------------------------------------------------------------------
  // Writing the statements

  /** The currency of photographer `p`'s statement: that of their first paid order, or the
      company currency when that order has none. */
  function CurrencyFor(orders: seq<(nat, SaleOrders.Order)>, paid: set<nat>, per: Period, p: nat,
                       currencyOf: map<nat, nat>, company: nat): (r: nat)
    ensures r == company || exists j :: 0 <= j < |orders| && orders[j].0 in currencyOf && r == currencyOf[orders[j].0]
  {
    if orders == [] then company
    else if Eligible(orders[0], paid, per) && orders[0].1.photographer == Some(p) then
      (if orders[0].0 in currencyOf then currencyOf[orders[0].0] else company)
    else
      var r := CurrencyFor(orders[1..], paid, per, p, currencyOf, company);
      assert r != company ==> exists j :: 0 <= j < |orders| && orders[j].0 in currencyOf && r == currencyOf[orders[j].0] by {
        if r != company {
          var j :| 0 <= j < |orders| - 1 && orders[1..][j].0 in currencyOf && r == currencyOf[orders[1..][j].0];
          assert orders[j + 1] == orders[1..][j];
        }
      }
      r
  }

  function NameOf(books: Books, p: nat): string {
    if p in books.names then books.names[p] else ""
  }

  /** The name a new statement gets: the period's month label and the photographer's name. */
  function StatementName(per: Period, partnerName: string): (r: string)
    ensures r == "Comisiones " + MonthLabel(per.start) + " - " + partnerName
  {
    "Comisiones " + MonthLabel(per.start) + " - " + partnerName
  }

  /** A statement of photographer `p` for the period. */
  predicate Matches(s: Statement, p: nat, per: Period) {
    s.partner == p && s.periodStart == per.start && s.periodEnd == per.end
  }

  /** The statement `search(..., limit=1)` finds for a photographer and period: with
      `_order = 'period_end desc, id desc'` and one period end, the matching statement with the
      highest id below `n`. */
  function LastMatch(rows: map<nat, Statement>, p: nat, per: Period, n: nat): (r: Option<nat>)
    ensures r.Some? ==> r.value < n && r.value in rows && Matches(rows[r.value], p, per)
    ensures r.Some? ==> forall k :: r.value < k < n && k in rows ==> !Matches(rows[k], p, per)
    ensures r.None? ==> forall k :: 0 <= k < n && k in rows ==> !Matches(rows[k], p, per)
    decreases n
  {
    if n == 0 then None
    else if n - 1 in rows && Matches(rows[n - 1], p, per) then Some(n - 1)
    else LastMatch(rows, p, per, n - 1)
  }

  /** The search result is determined by which statements match. */
  lemma LastMatchIs(rows: map<nat, Statement>, p: nat, per: Period, n: nat, m: nat)
    requires m < n && m in rows && Matches(rows[m], p, per)
    requires forall k :: m < k < n && k in rows ==> !Matches(rows[k], p, per)
    ensures LastMatch(rows, p, per, n) == Some(m)
  {
  }

  /** Statements with their next id: the model of the statement table. */
  datatype Store = Store(rows: map<nat, Statement>, next: nat)

  predicate Allocated(st: Store) {
    forall k :: k in st.rows ==> k < st.next
  }

  /** An existing statement rewritten with new lines and currency, its totals recomputed; its
      name, photographer, period and adjustments are kept. */
  function Refill(s: Statement, lines: seq<Line>, currency: nat): (r: Statement)
    ensures Matches(s, r.partner, Period(r.periodStart, r.periodEnd))
    ensures r.lines == lines && r.currency == currency && r.name == s.name
    ensures r.adjustmentTotal == s.adjustmentTotal && r.saleCount == |lines|
  {
    WithTotals(s.(lines := lines, currency := currency))
  }

  /** A statement created for a photographer and period, with default amounts. */
  function NewStatement(p: nat, per: Period, currency: nat, name: string, lines: seq<Line>): (r: Statement)
    ensures Matches(r, p, per) && r.lines == lines && r.currency == currency && r.name == name
    ensures r.periodMonth == MonthLabel(per.start) && r.adjustmentTotal == 0.0 && r.commissionPercent == 0.0
    ensures r.saleCount == |lines|
  {
    WithTotals(Statement(name, p, per.start, per.end, MonthLabel(per.start), currency, 0.0, 0.0, 0.0, 0.0, 0.0, 0, lines))
  }

  /** Writing photographer `p`'s group: the statement found for them and the period gets the
      group as its lines (command 5 then the creates), or a new statement is created. */
  function Write(st: Store, p: nat, books: Books, per: Period): (r: Store)
    ensures st.rows.Keys <= r.rows.Keys && (r.next == st.next || r.next == st.next + 1)
    ensures Allocated(st) ==> Allocated(r)
  {
    var lines := LinesFor(books.orders, books.paid, per, p);
    var currency := CurrencyFor(books.orders, books.paid, per, p, books.currencyOf, books.companyCurrency);
    match LastMatch(st.rows, p, per, st.next)
    case Some(id) => Store(st.rows[id := Refill(st.rows[id], lines, currency)], st.next)
    case None => Store(st.rows[st.next := NewStatement(p, per, currency, StatementName(per, NameOf(books, p)), lines)], st.next + 1)
  }

  /** Writing the groups of `keys` in turn. */
  function WriteAll(st: Store, keys: seq<nat>, books: Books, per: Period): (r: Store)
    ensures st.rows.Keys <= r.rows.Keys && st.next <= r.next <= st.next + |keys|
    ensures Allocated(st) ==> Allocated(r)
  {
    if keys == [] then st else Write(WriteAll(st, keys[..|keys| - 1], books, per), keys[|keys| - 1], books, per)
  }

  /** `_generate_commission_statements`: nothing without both dates; otherwise every grouped
      photographer's statement written. */
  function Generate(st: Store, books: Books, start: Option<Date>, end: Option<Date>): (r: Option<Store>)
    ensures r.None? <==> start.None? || end.None?
  {
    if start.None? || end.None? then None
    else
      var per := Period(start.value, end.value);
      Some(WriteAll(st, GroupKeys(books.orders, books.paid, per), books, per))
  }

  /** Photographer `p`'s statement for the period holds exactly their grouped lines, in their
      currency, with its totals computed. */
  predicate Settled(st: Store, p: nat, books: Books, per: Period) {
    var m := LastMatch(st.rows, p, per, st.next);
    && m.Some?
    && st.rows[m.value].lines == LinesFor(books.orders, books.paid, per, p)
    && st.rows[m.value].currency == CurrencyFor(books.orders, books.paid, per, p, books.currencyOf, books.companyCurrency)
    && WithTotals(st.rows[m.value]) == st.rows[m.value]
  }

  /** Writing a group reuses the statement found for the photographer and period (no new id is
      taken) and creates one only when there is none; the photographer's statement then holds
      the group; statements of other photographers or periods are untouched. */
  lemma WriteSettles(st: Store, p: nat, books: Books, per: Period)
    requires Allocated(st)
    ensures var r := Write(st, p, books, per);
      && Allocated(r) && Settled(r, p, books, per)
      && (LastMatch(st.rows, p, per, st.next).Some? ==> r.next == st.next && r.rows.Keys == st.rows.Keys)
      && (LastMatch(st.rows, p, per, st.next).None? ==> r.next == st.next + 1 && r.rows.Keys == st.rows.Keys + {st.next})
      && (forall k :: k in st.rows && !Matches(st.rows[k], p, per) ==> k in r.rows && r.rows[k] == st.rows[k])
  {
    var r := Write(st, p, books, per);
    var lines := LinesFor(books.orders, books.paid, per, p);
    var currency := CurrencyFor(books.orders, books.paid, per, p, books.currencyOf, books.companyCurrency);
    match LastMatch(st.rows, p, per, st.next)
    case Some(id) =>
      LastMatchIs(r.rows, p, per, r.next, id);
      TotalsIdempotent(st.rows[id].(lines := lines, currency := currency));
    case None =>
      LastMatchIs(r.rows, p, per, r.next, st.next);
      TotalsIdempotent(Statement(StatementName(per, NameOf(books, p)), p, per.start, per.end,
        MonthLabel(per.start), currency, 0.0, 0.0, 0.0, 0.0, 0.0, 0, lines));
  }

  /** Recomputing the totals a second time changes nothing. */
  lemma TotalsIdempotent(s: Statement)
    ensures WithTotals(WithTotals(s)) == WithTotals(s)
  {
  }

  /** Writing another photographer's group leaves this photographer's statement as it was. */
  lemma WriteKeepsSettled(st: Store, p: nat, q: nat, books: Books, per: Period)
    requires Allocated(st) && p != q && Settled(st, p, books, per)
    ensures Settled(Write(st, q, books, per), p, books, per)
  {
    var r := Write(st, q, books, per);
    var m := LastMatch(st.rows, p, per, st.next).value;
    WriteSettles(st, q, books, per);
    forall k | m < k < r.next && k in r.rows
      ensures !Matches(r.rows[k], p, per)
    {
      if k in st.rows && !Matches(st.rows[k], q, per) {
        assert r.rows[k] == st.rows[k];
      }
    }
    LastMatchIs(r.rows, p, per, r.next, m);
  }

  /** Writing one more photographer settles them and keeps the earlier ones settled. */
  lemma WriteNextSettles(mid: Store, done: seq<nat>, q: nat, books: Books, per: Period)
    requires Allocated(mid) && q !in done
    requires forall p :: p in done ==> Settled(mid, p, books, per)
    ensures forall p :: p in done + [q] ==> Settled(Write(mid, q, books, per), p, books, per)
  {
    WriteSettles(mid, q, books, per);
    forall p | p in done + [q]
      ensures Settled(Write(mid, q, books, per), p, books, per)
    {
      if p != q {
        assert p in done;
        WriteKeepsSettled(mid, p, q, books, per);
      }
    }
  }

  /** After writing distinct photographers in turn, each of them is settled. */
  lemma {:induction false} WriteAllSettles(st: Store, keys: seq<nat>, books: Books, per: Period)
    requires Allocated(st) && Distinct(keys)
    ensures Allocated(WriteAll(st, keys, books, per))
    ensures forall p :: p in keys ==> Settled(WriteAll(st, keys, books, per), p, books, per)
    decreases |keys|
  {
    if keys != [] {
      var n := |keys| - 1;
      WriteAllSettles(st, keys[..n], books, per);
      assert keys == keys[..n] + [keys[n]];
      assert keys[n] !in keys[..n];
      WriteNextSettles(WriteAll(st, keys[..n], books, per), keys[..n], keys[n], books, per);
    }
  }

  /** Writing photographers who are all settled changes nothing. */
  lemma {:induction false} WriteAllSettledIsIdentity(st: Store, keys: seq<nat>, books: Books, per: Period)
    requires forall p :: p in keys ==> Settled(st, p, books, per)
    ensures WriteAll(st, keys, books, per) == st
    decreases |keys|
  {
    if keys != [] {
      var n := |keys| - 1;
      WriteAllSettledIsIdentity(st, keys[..n], books, per);
      assert keys[n] in keys;
      WriteSettledIsIdentity(st, keys[n], books, per);
    }
  }

  /** Writing a settled photographer changes nothing. */
  lemma WriteSettledIsIdentity(st: Store, p: nat, books: Books, per: Period)
    requires Settled(st, p, books, per)
    ensures Write(st, p, books, per) == st
  {
    var m := LastMatch(st.rows, p, per, st.next).value;
    assert st.rows[m].(lines := st.rows[m].lines, currency := st.rows[m].currency) == st.rows[m];
    assert st.rows[m := st.rows[m]] == st.rows;
  }

  /** Generating again for the same period and the same sales changes nothing: each
      photographer's statement is found and rewritten with the same lines, so no second
      statement is created. After a generation each grouped photographer has a statement for the
      period holding exactly their grouped lines. */
  lemma GenerateIdempotent(st: Store, books: Books, start: Date, end: Date)
    requires Allocated(st)
    ensures var r := Generate(st, books, Some(start), Some(end)).value;
      && Allocated(r)
      && (forall p :: LinesFor(books.orders, books.paid, Period(start, end), p) != [] ==>
            Settled(r, p, books, Period(start, end)))
      && Generate(r, books, Some(start), Some(end)) == Some(r)
  {
    var per := Period(start, end);
    var keys := GroupKeys(books.orders, books.paid, per);
    GroupKeysExact(books.orders, books.paid, per);
    WriteAllSettles(st, keys, books, per);
    WriteAllSettledIsIdentity(WriteAll(st, keys, books, per), keys, books, per);
  }

  /** Writing one more key of `keys` after its prefix. */
  lemma WriteAllNext(st: Store, keys: seq<nat>, i: nat, books: Books, per: Period)
    requires i < |keys|
    ensures WriteAll(st, keys[..i + 1], books, per) == Write(WriteAll(st, keys[..i], books, per), keys[i], books, per)
  {
    assert keys[..i + 1][..i] == keys[..i];
  }

  /** The writing loop of `_generate_commission_statements` over the grouped photographers. */
  method WriteStatements(t: Orm.Table<Statement>, keys: seq<nat>, groups: map<nat, seq<Line>>,
                         books: Books, per: Period)
    requires t.Valid()
    requires forall p :: p in keys ==> p in groups && groups[p] == LinesFor(books.orders, books.paid, per, p)
    modifies t
    ensures t.Valid()
    ensures Store(t.rows, t.nextId) == WriteAll(Store(old(t.rows), old(t.nextId)), keys, books, per)
  {
    ghost var st0 := Store(t.rows, t.nextId);
    var i := 0;
    while i < |keys|
      invariant 0 <= i <= |keys| && t.Valid()
      invariant Store(t.rows, t.nextId) == WriteAll(st0, keys[..i], books, per)
    {
      var p := keys[i];
      ghost var before := Store(t.rows, t.nextId);
      var currency := CurrencyFor(books.orders, books.paid, per, p, books.currencyOf, books.companyCurrency);
      var found := LastMatch(t.rows, p, per, t.nextId);
      if found.Some? {
        t.rows := t.rows[found.value := Refill(t.rows[found.value], groups[p], currency)];
      } else {
        var _ := t.Create(NewStatement(p, per, currency, StatementName(per, NameOf(books, p)), groups[p]));
      }
      assert Store(t.rows, t.nextId) == Write(before, p, books, per);
      WriteAllNext(st0, keys, i, books, per);
      i := i + 1;
    }
    assert keys[..|keys|] == keys;
  }

  /** `_generate_commission_statements` on the statement table: `false` without both dates and
      nothing written; otherwise `true` with every grouped photographer's statement written. */
  method GenerateCommissionStatements(t: Orm.Table<Statement>, books: Books, start: Option<Date>, end: Option<Date>)
    returns (ok: bool)
    requires t.Valid()
    modifies t
    ensures t.Valid()
    ensures ok <==> start.Some? && end.Some?
    ensures !ok ==> t.rows == old(t.rows) && t.nextId == old(t.nextId)
    ensures ok ==> Generate(Store(old(t.rows), old(t.nextId)), books, start, end) == Some(Store(t.rows, t.nextId))
  {
    if start.None? || end.None? {
      return false;
    }
    var per := Period(start.value, end.value);
    var keys, groups := GroupPayloads(books.orders, books.paid, per);
    WriteStatements(t, keys, groups, books, per);
    return true;
  }

  /** `cron_generate_monthly_commissions`: generation for the previous calendar month. */
  method CronGenerateMonthlyCommissions(t: Orm.Table<Statement>, books: Books, today: Date) returns (ok: bool)
    requires t.Valid()
    modifies t
    ensures t.Valid() && ok
    ensures var per := CronPeriod(today);
      Generate(Store(old(t.rows), old(t.nextId)), books, Some(per.start), Some(per.end)) == Some(Store(t.rows, t.nextId))
  {
    var per := CronPeriod(today);
    ok := GenerateCommissionStatements(t, books, Some(per.start), Some(per.end));
  }

  /** `action_generate_statements`: an error and nothing written without a month; otherwise
      generation over the whole chosen month, answered with the month's label. */
  method ActionGenerateStatements(t: Orm.Table<Statement>, books: Books, month: Option<Date>)
    returns (r: Result<string, WizardError>)
    requires t.Valid()
    modifies t
    ensures t.Valid()
    ensures r.Err? <==> month.None?
    ensures r.Err? ==> t.rows == old(t.rows) && t.nextId == old(t.nextId)
    ensures r.Ok? ==> var per := WizardPeriod(month).value;
      && r.value == MonthLabel(per.start)
      && Generate(Store(old(t.rows), old(t.nextId)), books, Some(per.start), Some(per.end)) == Some(Store(t.rows, t.nextId))
  {
    var period := WizardPeriod(month);
    if period.Err? {
      return Err(period.error);
    }
    var per := period.value;
    var _ := GenerateCommissionStatements(t, books, Some(per.start), Some(per.end));
    return Ok(MonthLabel(per.start));
  }

  // ---------------------------------------------------------------------------------------
  // Export

  /** A spreadsheet cell. */
  datatype Cell = TextCell(text: string) | AmountCell(amount: real)

  /** One exported row: photographer, month, sales, commission and payout. */
  function ExportRow(s: Statement, names: map<nat, string>): (row: seq<Cell>)
    ensures |row| == 5
    ensures row[0] == TextCell(if s.partner in names then names[s.partner] else "")
    ensures row[1] == TextCell(s.periodMonth)
    ensures row[2] == AmountCell(s.saleTotal) && row[3] == AmountCell(s.commissionTotal)
    ensures row[4] == AmountCell(s.payoutTotal)
  {
    [TextCell(if s.partner in names then names[s.partner] else ""), TextCell(s.periodMonth),
     AmountCell(s.saleTotal), AmountCell(s.commissionTotal), AmountCell(s.payoutTotal)]
  }

  /** `_prepare_export_rows`: one five-column row per statement, in order. */
  method PrepareExportRows(statements: seq<Statement>, names: map<nat, string>) returns (rows: seq<seq<Cell>>)
    ensures |rows| == |statements|
    ensures forall i :: 0 <= i < |rows| ==> |rows[i]| == 5 && rows[i] == ExportRow(statements[i], names)
  {
    rows := [];
    var i := 0;
    while i < |statements|
      invariant 0 <= i <= |statements| && |rows| == i
      invariant forall j :: 0 <= j < i ==> rows[j] == ExportRow(statements[j], names)
    {
      rows := rows + [ExportRow(statements[i], names)];
      i := i + 1;
    }
  }
}
