/** The photographer's debt pages (`/mi/fotoapp/deudas`): the lists of active and paid debts,
    and putting one debt into a cart so that it can be paid through the shop. */
module DebtPortal {
  import opened Wrappers
  import Dates
  import Orm
  import Debts
  import SaleOrders

  // ---------------------------------------------------------------------------------------
  // The debt lists

  /** The partners whose debts the page lists: the photographer and, when set, its commercial
      partner. */
  function Owners(partner: nat, commercial: Option<nat>): (r: set<nat>)
    ensures partner in r && (commercial.Some? ==> commercial.value in r)
    ensures forall p :: p in r ==> p == partner || commercial == Some(p)
  {
    if commercial.Some? then {partner, commercial.value} else {partner}
  }

  /** Debts due earlier come first (`order='due_date asc'`). */
  function ByDueDate(): (Debts.Debt, Debts.Debt) -> bool {
    (a: Debts.Debt, b: Debts.Debt) => Dates.Le(a.dueDate, b.dueDate)
  }

  /** The active debts: the owners' pending and in-grace debts, read from `byDueDate`, the
      debt ids in ascending due date. */
  function ActiveDebts(debts: map<nat, Debts.Debt>, byDueDate: seq<nat>, partner: nat, commercial: Option<nat>)
    : (r: seq<nat>)
    requires forall i :: 0 <= i < |byDueDate| ==> byDueDate[i] in debts
    ensures forall k :: k in r <==>
      (k in byDueDate && debts[k].partner in Owners(partner, commercial) && Debts.CanBePaid(debts[k]))
  {
    var owners := Owners(partner, commercial);
    Orm.Filter(byDueDate, debts, (d: Debts.Debt) => d.partner in owners && Debts.CanBePaid(d))
  }

  /** The active list keeps the due-date order: no debt is listed before one due earlier. */
  lemma ActiveDebtsByDueDate(debts: map<nat, Debts.Debt>, byDueDate: seq<nat>, partner: nat, commercial: Option<nat>)
    requires forall i :: 0 <= i < |byDueDate| ==> byDueDate[i] in debts
    requires Orm.Ordered(byDueDate, debts, ByDueDate())
    ensures var r := ActiveDebts(debts, byDueDate, partner, commercial);
      forall i, j :: 0 <= i < j < |r| ==> Dates.Le(debts[r[i]].dueDate, debts[r[j]].dueDate)
  {
    var owners := Owners(partner, commercial);
    Orm.FilterKeepsOrder(byDueDate, debts, (d: Debts.Debt) => d.partner in owners && Debts.CanBePaid(d), ByDueDate());
  }

  /** At most this many paid debts are listed. */
  const PaidListLimit := 50

  /** The paid debts of `owners`. */
  function PaidOf(owners: set<nat>): Debts.Debt -> bool {
    (d: Debts.Debt) => d.partner in owners && d.state == Debts.Paid
  }

  /** The paid debts: the owners' paid debts read from `byPaidDate` (latest payment first),
      the first fifty of them. */
  function PaidDebts(debts: map<nat, Debts.Debt>, byPaidDate: seq<nat>, partner: nat, commercial: Option<nat>)
    : (r: seq<nat>)
    requires forall i :: 0 <= i < |byPaidDate| ==> byPaidDate[i] in debts
    ensures |r| <= PaidListLimit
    ensures forall k :: k in r ==>
      k in byPaidDate && debts[k].partner in Owners(partner, commercial) && debts[k].state == Debts.Paid
  {
    var all := Orm.Filter(byPaidDate, debts, PaidOf(Owners(partner, commercial)));
    if |all| <= PaidListLimit then all else all[..PaidListLimit]
  }

  /** Up to the limit, every paid debt of the owners is listed. */
  lemma PaidDebtsComplete(debts: map<nat, Debts.Debt>, byPaidDate: seq<nat>, partner: nat, commercial: Option<nat>,
                          k: nat)
    requires forall i :: 0 <= i < |byPaidDate| ==> byPaidDate[i] in debts
    requires k in byPaidDate && debts[k].partner in Owners(partner, commercial) && debts[k].state == Debts.Paid
    requires |Orm.Filter(byPaidDate, debts, PaidOf(Owners(partner, commercial)))| <= PaidListLimit
    ensures k in PaidDebts(debts, byPaidDate, partner, commercial)
  {
  }

  // ---------------------------------------------------------------------------------------
  // A debt in the cart

  /** A quotation, draft or sent: the orders a debt's own order is reused from. */
  predicate Open(o: SaleOrders.Order) { SaleOrders.IsQuotation(o) }

  /** The debt's own order, when it is still a quotation (`sale_order_id.state in ('draft',
      'sent')`). */
  function ReusableOrder(d: Debts.Debt, orders: map<nat, SaleOrders.Order>): (r: Option<nat>)
    ensures r.Some? <==> d.saleOrder.Some? && d.saleOrder.value in orders && Open(orders[d.saleOrder.value])
    ensures r.Some? ==> r == d.saleOrder
  {
    if d.saleOrder.Some? && d.saleOrder.value in orders && Open(orders[d.saleOrder.value]) then d.saleOrder else None
  }

  /** The order the debt goes into: its own quotation, else the session's cart, else `next`,
      the order `sale_get_order(force_create=1)` creates. */
  function CartOrder(d: Debts.Debt, orders: map<nat, SaleOrders.Order>, cart: Option<nat>, next: nat): nat {
    var reuse := ReusableOrder(d, orders);
    if reuse.Some? then reuse.value else if cart.Some? then cart.value else next
  }

  /** The orders once the cart is there: unchanged, or with the new cart `blank` at `next`. */
  function WithCart(d: Debts.Debt, orders: map<nat, SaleOrders.Order>, cart: Option<nat>, next: nat,
                    blank: SaleOrders.Order): (r: map<nat, SaleOrders.Order>)
    ensures CartOrder(d, orders, cart, next) == next && ReusableOrder(d, orders).None? && cart.None? ==>
      r == orders[next := blank]
    ensures ReusableOrder(d, orders).Some? || cart.Some? ==> r == orders
  {
    if ReusableOrder(d, orders).None? && cart.None? then orders[next := blank] else orders
  }

  /** The debt's line still sits in this order (`sale_order_line_id.order_id == order`). */
  predicate LinkedTo(d: Debts.Debt, orderId: nat) {
    d.saleOrderLine.Some? && d.saleOrder == Some(orderId)
  }

  /** The line paying a debt: the renewal product, quantity 1, priced at the debt's amount. */
  function DebtLine(product: nat, debtId: nat, amount: real): (l: SaleOrders.OrderLine)
    ensures l.debt == Some(debtId) && l.product == product
    ensures l.quantity == 1.0 && l.priceUnit == amount && l.priceTotal == amount
    ensures l.asset.None? && l.photographer.None?
  {
    SaleOrders.OrderLine(product, None, None, None, Some(debtId), 1.0, amount, amount)
  }

  /** Lines that do not pay debt `debtId`. */
  function NotOfDebt(debtId: nat): SaleOrders.OrderLine -> bool {
    (l: SaleOrders.OrderLine) => l.debt != Some(debtId)
  }

  /** The order with the debt's line in it: its previous line in this order is removed first,
      then the new line is added. */
  function PlaceLine(o: SaleOrders.Order, d: Debts.Debt, debtId: nat, orderId: nat, product: nat): (r: SaleOrders.Order)
    ensures r.(lines := o.lines) == o
    ensures |r.lines| > 0 && r.lines[|r.lines| - 1] == DebtLine(product, debtId, d.amount)
    ensures forall l: SaleOrders.OrderLine :: l.debt != Some(debtId) ==> (l in r.lines <==> l in o.lines)
    ensures LinkedTo(d, orderId) ==> forall i :: 0 <= i < |r.lines| - 1 ==> r.lines[i].debt != Some(debtId)
    ensures !LinkedTo(d, orderId) ==> r.lines == o.lines + [DebtLine(product, debtId, d.amount)]
  {
    var kept := if LinkedTo(d, orderId) then SaleOrders.Keep(o.lines, NotOfDebt(debtId)) else o.lines;
    var r := o.(lines := kept + [DebtLine(product, debtId, d.amount)]);
    assert forall i :: 0 <= i < |r.lines| - 1 ==> r.lines[i] == kept[i] && kept[i] in kept;
    r
  }

  /** The debt after `write({'sale_order_id': ..., 'sale_order_line_id': ...})`: it points at
      the order and at the new line, the last of the order's lines. */
  function Charged(d: Debts.Debt, orderId: nat, placed: SaleOrders.Order): (r: Debts.Debt)
    requires placed.lines != []
    ensures r.saleOrder == Some(orderId) && r.saleOrderLine == Some(|placed.lines| - 1)
    ensures r.(saleOrder := d.saleOrder, saleOrderLine := d.saleOrderLine) == d
  {
    d.(saleOrder := Some(orderId), saleOrderLine := Some(|placed.lines| - 1))
  }

  datatype DebtCartOutcome =
    | NotFound              // not the photographer's debt, or not payable
    | NoProduct(order: nat) // the renewal product is missing: back to the cart, nothing added
    | InCart(order: nat)    // the debt's line is in the order

  /** The debt can be added: it exists, is the photographer's own and can be paid. */
  predicate Addable(debts: map<nat, Debts.Debt>, debtId: nat, partner: nat) {
    debtId in debts && debts[debtId].partner == partner && Debts.CanBePaid(debts[debtId])
  }

  /** `add_debt_to_cart`. `cart` is the session's order, `blank` the order created when there is
      none, and `product` the renewal product variant (`None` when it cannot be found). */
  method AddDebtToCart(debts: Orm.Table<Debts.Debt>, orders: Orm.Table<SaleOrders.Order>, debtId: nat,
                       partner: nat, cart: Option<nat>, blank: SaleOrders.Order, product: Option<nat>)
    returns (outcome: DebtCartOutcome)
    requires orders.Valid() && debts.Valid()
    requires cart.Some? ==> cart.value in orders.rows
    modifies debts, orders
    ensures orders.Valid() && debts.Valid()
    ensures !Addable(old(debts.rows), debtId, partner) ==>
      outcome == NotFound && unchanged(debts) && unchanged(orders)
    ensures Addable(old(debts.rows), debtId, partner) ==>
      var d := old(debts.rows)[debtId];
      var id := CartOrder(d, old(orders.rows), cart, old(orders.nextId));
      var carts := WithCart(d, old(orders.rows), cart, old(orders.nextId), blank);
      && id in carts
      && (product.None? ==> outcome == NoProduct(id) && orders.rows == carts && unchanged(debts))
      && (product.Some? ==>
            var placed := PlaceLine(carts[id], d, debtId, id, product.value);
            && outcome == InCart(id)
            && orders.rows == carts[id := placed]
            && debts.rows == old(debts.rows)[debtId := Charged(d, id, placed)])
  {
    if !Addable(debts.rows, debtId, partner) {
      return NotFound;
    }
    var d := debts.rows[debtId];
    var reuse := ReusableOrder(d, orders.rows);
    var id;
    if reuse.Some? {
      id := reuse.value;
    } else if cart.Some? {
      id := cart.value;
    } else {
      id := orders.Create(blank);
    }
    if product.None? {
      return NoProduct(id);
    }
    var placed := PlaceLine(orders.rows[id], d, debtId, id, product.value);
    orders.rows := orders.rows[id := placed];
    debts.rows := debts.rows[debtId := Charged(d, id, placed)];
    outcome := InCart(id);
  }

  // ---------------------------------------------------------------------------------------
  // One line per debt

  /** No two lines of an order pay the same debt. */
  predicate DistinctDebts(lines: seq<SaleOrders.OrderLine>) {
    forall i, j :: 0 <= i < j < |lines| && lines[i].debt.Some? ==> lines[i].debt != lines[j].debt
  }

  /** Every debt line of an open order `o` is the line its debt points at in `o`. */
  predicate LinesLinked(lines: seq<SaleOrders.OrderLine>, o: nat, debts: map<nat, Debts.Debt>) {
    forall i :: 0 <= i < |lines| && lines[i].debt.Some? ==>
      lines[i].debt.value in debts && LinkedTo(debts[lines[i].debt.value], o)
  }

  /** The carts and the debts agree: in every quotation, each debt has at most one line, and
      that line's debt points back at the quotation. */
  predicate CartsLinked(orders: map<nat, SaleOrders.Order>, debts: map<nat, Debts.Debt>) {
    forall o :: o in orders && Open(orders[o]) ==>
      DistinctDebts(orders[o].lines) && LinesLinked(orders[o].lines, o, debts)
  }

  lemma {:induction false} KeepDistinct(lines: seq<SaleOrders.OrderLine>, f: SaleOrders.OrderLine -> bool)
    requires DistinctDebts(lines)
    ensures DistinctDebts(SaleOrders.Keep(lines, f))
  {
    if lines != [] {
      var rest := lines[1..];
      KeepDistinct(rest, f);
      var kept := SaleOrders.Keep(rest, f);
      if f(lines[0]) && lines[0].debt.Some? {
        forall j | 0 <= j < |kept|
          ensures kept[j].debt != lines[0].debt
        {
          assert kept[j] in rest;
          var k :| 0 <= k < |rest| && rest[k] == kept[j];
          assert lines[k + 1] == kept[j];
        }
        var r := [lines[0]] + kept;
        assert SaleOrders.Keep(lines, f) == r;
        forall i, j | 0 <= i < j < |r| && r[i].debt.Some?
          ensures r[i].debt != r[j].debt
        {
          if i > 0 {
            assert r[i] == kept[i - 1] && r[j] == kept[j - 1];
          }
        }
      }
    }
  }

  /** Placing the line in the order the operation chooses keeps the carts and the debts in
      agreement; in particular the order then holds exactly one line for the debt, the last. */
  lemma PlacingKeepsCartsLinked(orders: map<nat, SaleOrders.Order>, debts: map<nat, Debts.Debt>, debtId: nat,
                                orderId: nat, product: nat)
    requires CartsLinked(orders, debts)
    requires debtId in debts && orderId in orders && Open(orders[orderId])
    requires ReusableOrder(debts[debtId], orders).Some? ==> orderId == debts[debtId].saleOrder.value
    ensures var d := debts[debtId];
      var placed := PlaceLine(orders[orderId], d, debtId, orderId, product);
      && CartsLinked(orders[orderId := placed], debts[debtId := Charged(d, orderId, placed)])
      && forall i :: 0 <= i < |placed.lines| && placed.lines[i].debt == Some(debtId) ==> i == |placed.lines| - 1
  {
    var d := debts[debtId];
    var placed := PlaceLine(orders[orderId], d, debtId, orderId, product);
    var orders' := orders[orderId := placed];
    var debts' := debts[debtId := Charged(d, orderId, placed)];
    PlacedCartLinked(orders[orderId], debts, debtId, orderId, product);
    forall p | p in orders' && Open(orders'[p])
      ensures DistinctDebts(orders'[p].lines) && LinesLinked(orders'[p].lines, p, debts')
    {
      if p != orderId {
        assert orders'[p] == orders[p];
        OtherCartLinked(orders, debts, debtId, orderId, p, Charged(d, orderId, placed));
      }
    }
  }

  /** The order that receives the line: its earlier lines stay, one per debt, and the new line
      is the only one of the debt. */
  lemma PlacedCartLinked(o: SaleOrders.Order, debts: map<nat, Debts.Debt>, debtId: nat, orderId: nat, product: nat)
    requires debtId in debts && DistinctDebts(o.lines) && LinesLinked(o.lines, orderId, debts)
    ensures var d := debts[debtId];
      var placed := PlaceLine(o, d, debtId, orderId, product);
      && DistinctDebts(placed.lines) && LinesLinked(placed.lines, orderId, debts[debtId := Charged(d, orderId, placed)])
      && forall i :: 0 <= i < |placed.lines| && placed.lines[i].debt == Some(debtId) ==> i == |placed.lines| - 1
  {
    var d := debts[debtId];
    var placed := PlaceLine(o, d, debtId, orderId, product);
    var debts' := debts[debtId := Charged(d, orderId, placed)];
    var n := |placed.lines| - 1;
    PlacedPrefix(o, d, debtId, orderId, product);
    forall i, j | 0 <= i < j < |placed.lines| && placed.lines[i].debt.Some?
      ensures placed.lines[i].debt != placed.lines[j].debt
    {
      if j == n {
        assert placed.lines[i] == placed.lines[..n][i];
      } else {
        assert placed.lines[i] == placed.lines[..n][i] && placed.lines[j] == placed.lines[..n][j];
      }
    }
    forall i | 0 <= i < |placed.lines| && placed.lines[i].debt.Some?
      ensures placed.lines[i].debt.value in debts' && LinkedTo(debts'[placed.lines[i].debt.value], orderId)
    {
      if i < n {
        var l := placed.lines[i];
        var k :| 0 <= k < |o.lines| && o.lines[k] == l;
        assert l.debt.value in debts && LinkedTo(debts[l.debt.value], orderId);
      }
    }
  }

  /** The lines before the new one are lines of the order, none of them the debt's, with no
      more than one per debt. */
  lemma PlacedPrefix(o: SaleOrders.Order, d: Debts.Debt, debtId: nat, orderId: nat, product: nat)
    requires DistinctDebts(o.lines)
    requires forall i :: 0 <= i < |o.lines| && o.lines[i].debt == Some(debtId) ==> LinkedTo(d, orderId)
    ensures var placed := PlaceLine(o, d, debtId, orderId, product);
      var n := |placed.lines| - 1;
      && DistinctDebts(placed.lines[..n])
      && forall i :: 0 <= i < n ==> placed.lines[i] in o.lines && placed.lines[i].debt != Some(debtId)
  {
    var placed := PlaceLine(o, d, debtId, orderId, product);
    var n := |placed.lines| - 1;
    var kept := placed.lines[..n];
    if LinkedTo(d, orderId) {
      assert kept == SaleOrders.Keep(o.lines, NotOfDebt(debtId));
      KeepDistinct(o.lines, NotOfDebt(debtId));
    } else {
      assert kept == o.lines;
    }
    forall i | 0 <= i < n
      ensures placed.lines[i] in o.lines && placed.lines[i].debt != Some(debtId)
    {
      assert placed.lines[i] == kept[i];
      if !LinkedTo(d, orderId) {
        assert placed.lines[i] == o.lines[i];
      }
    }
  }

  /** Another open order keeps its links: the debt is linked to it only when it is the debt's own
      reusable order, which is then the order chosen. */
  lemma OtherCartLinked(orders: map<nat, SaleOrders.Order>, debts: map<nat, Debts.Debt>, debtId: nat, orderId: nat,
                        p: nat, charged: Debts.Debt)
    requires CartsLinked(orders, debts) && debtId in debts
    requires ReusableOrder(debts[debtId], orders).Some? ==> orderId == debts[debtId].saleOrder.value
    requires p in orders && p != orderId && Open(orders[p])
    ensures DistinctDebts(orders[p].lines) && LinesLinked(orders[p].lines, p, debts[debtId := charged])
  {
    var lines := orders[p].lines;
    forall i | 0 <= i < |lines| && lines[i].debt.Some?
      ensures lines[i].debt.value in debts[debtId := charged]
              && LinkedTo(debts[debtId := charged][lines[i].debt.value], p)
    {
      assert lines[i].debt.value in debts && LinkedTo(debts[lines[i].debt.value], p);
    }
  }

  /** The order the operation picks satisfies the requirements above when the session's cart is
      a quotation, the created cart is an empty quotation, and the debt's order is one that
      exists. */
  lemma ChosenOrderFits(orders: map<nat, SaleOrders.Order>, debts: map<nat, Debts.Debt>, debtId: nat,
                        cart: Option<nat>, next: nat, blank: SaleOrders.Order)
    requires CartsLinked(orders, debts) && debtId in debts && next !in orders
    requires debts[debtId].saleOrder.Some? ==> debts[debtId].saleOrder.value in orders
    requires cart.Some? ==> cart.value in orders && Open(orders[cart.value])
    requires Open(blank) && blank.lines == []
    ensures var d := debts[debtId];
      var carts := WithCart(d, orders, cart, next, blank);
      var id := CartOrder(d, orders, cart, next);
      && CartsLinked(carts, debts) && id in carts && Open(carts[id])
      && (ReusableOrder(d, carts).Some? ==> id == d.saleOrder.value)
  {
    var d := debts[debtId];
    var carts := WithCart(d, orders, cart, next, blank);
    forall o | o in carts && Open(carts[o])
      ensures DistinctDebts(carts[o].lines) && LinesLinked(carts[o].lines, o, debts)
    {
      if o != next {
        assert carts[o] == orders[o];
      }
    }
  }
}
