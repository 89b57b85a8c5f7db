/** Sale orders (`sale.order` as the photo shop extends it): the platform commission split, the
    one-photographer-per-order rule and the order split that enforces it, plan renewal when an
    order is confirmed, the order month, and the download link with its e-mail. */
module SaleOrders {
  import opened Wrappers
  import opened Dates
  import opened Plans
  import Subscriptions
  import Arith
  import Orm
  import Partners

  datatype OrderState = Quotation | QuotationSent | SaleOrder | Locked | Cancelled

  /** An order line: the plan its product sells (if any), the photographer and photo of a photo
      line, the debt it pays (if any), and its amounts. */
  datatype OrderLine = OrderLine(
    product: nat,
    plan: Option<Plan>,
    photographer: Option<nat>,
    asset: Option<nat>,
    debt: Option<nat>,
    quantity: real,
    priceUnit: real,
    priceTotal: real)

  datatype Order = Order(
    state: OrderState,
    partner: nat,
    commercialPartner: nat,
    dateOrder: Option<Date>,
    lines: seq<OrderLine>,
    photographer: Option<nat>,
    plan: Option<Plan>,
    commissionPercent: real,
    platformAmount: real,
    photographerAmount: real,
    downloadToken: string,
    tokenExpiresAt: Option<int>,
    emailSent: bool,
    deliveryEmail: string,
    orderMonth: Option<Date>)

  function LineTotals(lines: seq<OrderLine>): (r: seq<real>)
    ensures |r| == |lines| && forall i :: 0 <= i < |lines| ==> r[i] == lines[i].priceTotal
  {
    seq(|lines|, i requires 0 <= i < |lines| => lines[i].priceTotal)
  }

  /** `amount_total`: the sum of the lines' totals. */
  function AmountTotal(o: Order): real {
    Arith.Sum(LineTotals(o.lines))
  }

  // ---------------------------------------------------------------------------------------
  // _recompute_fotoapp_commission

  /** The platform's share of the order total at the order's commission percent, and the
      photographer's share as the rest. */
  function WithCommission(o: Order): (r: Order)
    ensures r.platformAmount + r.photographerAmount == AmountTotal(o)
    ensures r.platformAmount == AmountTotal(o) * o.commissionPercent / 100.0
    ensures r.(platformAmount := o.platformAmount, photographerAmount := o.photographerAmount) == o
  {
    var platform := AmountTotal(o) * (o.commissionPercent / 100.0);
    o.(platformAmount := platform, photographerAmount := AmountTotal(o) - platform)
  }

  /** With a percent in [0, 100] and a non-negative total, both shares lie between 0 and the
      total; at 0 % the photographer gets everything. */
  lemma CommissionBounds(o: Order)
    requires 0.0 <= o.commissionPercent <= 100.0 && 0.0 <= AmountTotal(o)
    ensures 0.0 <= WithCommission(o).platformAmount <= AmountTotal(o)
    ensures 0.0 <= WithCommission(o).photographerAmount <= AmountTotal(o)
    ensures o.commissionPercent == 0.0 ==> WithCommission(o).photographerAmount == AmountTotal(o)
  {
    var t := AmountTotal(o);
    var x := o.commissionPercent / 100.0;
    assert 0.0 <= x <= 1.0;
    Arith.MulNonNegative(t, x);
    Arith.MulNonNegative(t, 1.0 - x);
    assert t * x == t - t * (1.0 - x);
    assert t * o.commissionPercent / 100.0 == t * x;
  }

  /** `_recompute_fotoapp_commission` over a recordset. */
  method RecomputeCommission(t: Orm.Table<Order>, ids: seq<nat>)
    requires Orm.IsRecordset(ids, t.rows)
    modifies t
    ensures t.nextId == old(t.nextId)
    ensures t.rows == Orm.Updated(old(t.rows), Orm.Members(ids), WithCommission)
  {
    t.ApplyEach(ids, WithCommission);
  }

  // ---------------------------------------------------------------------------------------
  // photographers of the photo lines

  /** `photo_lines.mapped('foto_photographer_id')`: the distinct photographers of the lines, in
      order of first appearance. */
  function Photographers(lines: seq<OrderLine>): (r: seq<nat>)
    ensures forall p :: p in r <==> exists i :: 0 <= i < |lines| && lines[i].photographer == Some(p)
    ensures forall i, j :: 0 <= i < j < |r| ==> r[i] != r[j]
  {
    if lines == [] then []
    else
      var rest := Photographers(lines[..|lines| - 1]);
      var last := lines[|lines| - 1];
      assert forall i :: 0 <= i < |lines| - 1 ==> lines[..|lines| - 1][i] == lines[i];
      if last.photographer.Some? && last.photographer.value !in rest then rest + [last.photographer.value]
      else rest
  }

  /** `order_line.mapped('foto_asset_id')`: the distinct photos of the lines, in order of first
      appearance. */
  function PhotoAssets(lines: seq<OrderLine>): (r: seq<nat>)
    ensures forall a :: a in r <==> exists i :: 0 <= i < |lines| && lines[i].asset == Some(a)
    ensures forall i, j :: 0 <= i < j < |r| ==> r[i] != r[j]
  {
    if lines == [] then []
    else
      var rest := PhotoAssets(lines[..|lines| - 1]);
      var last := lines[|lines| - 1];
      assert forall i :: 0 <= i < |lines| - 1 ==> lines[..|lines| - 1][i] == lines[i];
      if last.asset.Some? && last.asset.value !in rest then rest + [last.asset.value]
      else rest
  }

  /** Lines whose photo lines all belong to `p` have `p` as their only photographer, or none
      when there is no photo line. */
  lemma {:induction false} OnlyPhotographer(lines: seq<OrderLine>, p: nat)
    requires forall i :: 0 <= i < |lines| ==> lines[i].photographer.None? || lines[i].photographer == Some(p)
    ensures Photographers(lines) == if exists i :: 0 <= i < |lines| && lines[i].photographer == Some(p) then [p] else []
  {
    if lines != [] {
      var init := lines[..|lines| - 1];
      assert forall i :: 0 <= i < |init| ==> init[i] == lines[i];
      OnlyPhotographer(init, p);
    }
  }

  /** Conversely, lines with `p` as their only photographer have no photo line of anyone else. */
  lemma SolePhotographer(lines: seq<OrderLine>, p: nat)
    requires Photographers(lines) == [p]
    ensures forall l :: l in lines && l.photographer.Some? ==> l.photographer.value == p
  {
    forall l | l in lines && l.photographer.Some?
      ensures l.photographer.value == p
    {
      var i :| 0 <= i < |lines| && lines[i] == l;
      assert l.photographer.value in Photographers(lines);
    }
  }

  datatype Detection = NoPhotos | Mixed | Single(photographer: nat)

  /** `_fotoapp_detect_single_photographer`: no photo line gives False, photographers that
      differ raise (`Mixed`), and otherwise the one photographer. */
  function DetectSinglePhotographer(o: Order): (r: Detection)
    ensures r == NoPhotos <==> forall i :: 0 <= i < |o.lines| ==> o.lines[i].photographer.None?
    ensures r == Mixed <==>
      exists i, j :: 0 <= i < |o.lines| && 0 <= j < |o.lines| && o.lines[i].photographer.Some?
                     && o.lines[j].photographer.Some? && o.lines[i].photographer != o.lines[j].photographer
    ensures r.Single? ==>
      (forall i :: 0 <= i < |o.lines| && o.lines[i].photographer.Some? ==> o.lines[i].photographer == Some(r.photographer))
      && (exists i :: 0 <= i < |o.lines| && o.lines[i].photographer == Some(r.photographer))
  {
    var ps := Photographers(o.lines);
    if ps == [] then NoPhotos
    else if |ps| > 1 then
      assert ps[0] in ps && ps[1] in ps;
      Mixed
    else
      assert forall i :: 0 <= i < |o.lines| && o.lines[i].photographer.Some? ==> o.lines[i].photographer.value in ps;
      assert ps[0] in ps;
      Single(ps[0])
  }

  // ---------------------------------------------------------------------------------------
  // _apply_photographer_metadata

  /** The partner fields the order computations read: each partner's active photographer
      subscription (`active_plan_subscription_id`) and current plan (`plan_id`). A partner
      missing from a map has the field unset. */
  datatype Directory = Directory(activeSub: map<nat, Subscriptions.Subscription>, partnerPlan: map<nat, Plan>)

  function ActiveSubOf(dir: Directory, pid: nat): Option<Subscriptions.Subscription> {
    if pid in dir.activeSub then Some(dir.activeSub[pid]) else None
  }

  /** `_apply_photographer_metadata(subscription, photographer)`: the photographer given, else the
      subscription's partner, else the order's commercial partner; the subscription's plan, else
      the photographer's plan; and that plan's commission, or 0 without one. */
  function ApplyPhotographerMetadata(o: Order, sub: Option<Subscriptions.Subscription>, photographer: Option<nat>,
                                     dir: Directory): (r: Order)
    ensures r.photographer.Some?
    ensures photographer.Some? ==> r.photographer == photographer
    ensures photographer.None? && sub.Some? ==> r.photographer == Some(sub.value.partner)
    ensures photographer.None? && sub.None? ==> r.photographer == Some(o.commercialPartner)
    ensures sub.Some? ==> r.plan == sub.value.plan
    ensures sub.None? ==> (r.plan.Some? <==> r.photographer.value in dir.partnerPlan)
    ensures sub.None? && r.plan.Some? ==> r.plan.value == dir.partnerPlan[r.photographer.value]
    ensures r.plan.None? ==> r.commissionPercent == 0.0
    ensures r.plan.Some? ==> r.commissionPercent == r.plan.value.commissionPercent
    ensures r.(photographer := o.photographer, plan := o.plan, commissionPercent := o.commissionPercent) == o
  {
    var p := if photographer.Some? then photographer.value else if sub.Some? then sub.value.partner else o.commercialPartner;
    var plan := if sub.Some? then sub.value.plan else if p in dir.partnerPlan then Some(dir.partnerPlan[p]) else None;
    var commission := if plan.Some? && plan.value.commissionPercent != 0.0 then plan.value.commissionPercent else 0.0;
    o.(photographer := Some(p), plan := plan, commissionPercent := commission)
  }

  /** The metadata and commission one photographer's order gets during the split. */
  function ForPhotographer(o: Order, p: nat, dir: Directory): (r: Order)
    ensures r.photographer == Some(p) && r.lines == o.lines
    ensures r.platformAmount + r.photographerAmount == AmountTotal(r)
  {
    WithCommission(ApplyPhotographerMetadata(o, ActiveSubOf(dir, p), Some(p), dir))
  }

  // ---------------------------------------------------------------------------------------
  // _ensure_single_photographer_orders

  /** `lines.filtered(f)`: the lines satisfying `f`, in order. */
  function Keep(lines: seq<OrderLine>, f: OrderLine -> bool): (r: seq<OrderLine>)
    ensures forall l :: l in r <==> l in lines && f(l)
  {
    if lines == [] then [] else (if f(lines[0]) then [lines[0]] else []) + Keep(lines[1..], f)
  }

  lemma KeepCons(l: OrderLine, rest: seq<OrderLine>, f: OrderLine -> bool)
    ensures Keep([l] + rest, f) == (if f(l) then [l] else []) + Keep(rest, f)
  {
    assert ([l] + rest)[1..] == rest;
  }

  /** The photo lines of photographer `p`. */
  function OfPhotographer(p: nat): OrderLine -> bool {
    (l: OrderLine) => l.photographer == Some(p)
  }

  /** The lines that stay where they are when the photo lines of `moved` leave. */
  function NotMoved(moved: seq<nat>): OrderLine -> bool {
    (l: OrderLine) => !(l.photographer.Some? && l.photographer.value in moved)
  }

  /** The lines of the photographers `qs` together, one photographer's lines after another. */
  function Gathered(lines: seq<OrderLine>, qs: seq<nat>): multiset<OrderLine> {
    if qs == [] then multiset{} else multiset(Keep(lines, OfPhotographer(qs[0]))) + Gathered(lines, qs[1..])
  }

  /** The photo lines of the photographers `qs`. */
  function Moved(qs: seq<nat>): OrderLine -> bool {
    (l: OrderLine) => l.photographer.Some? && l.photographer.value in qs
  }

  /** Filtering by either of two exclusive conditions gathers the lines of each. */
  lemma {:induction false} KeepSplit(lines: seq<OrderLine>, f: OrderLine -> bool, g: OrderLine -> bool, h: OrderLine -> bool)
    requires forall l :: h(l) == (f(l) || g(l)) && !(f(l) && g(l))
    ensures multiset(Keep(lines, h)) == multiset(Keep(lines, f)) + multiset(Keep(lines, g))
  {
    if lines != [] {
      var l := lines[0];
      var rest := lines[1..];
      assert lines == [l] + rest;
      KeepSplit(rest, f, g, h);
      KeepCons(l, rest, f);
      KeepCons(l, rest, g);
      KeepCons(l, rest, h);
    }
  }

  lemma {:induction false} KeepEverything(lines: seq<OrderLine>, f: OrderLine -> bool)
    requires forall l :: f(l)
    ensures Keep(lines, f) == lines
  {
    if lines != [] {
      KeepEverything(lines[1..], f);
    }
  }

  /** For distinct photographers, their lines one photographer after another are the lines of
      all of them. */
  lemma {:induction false} GatheredIsMoved(lines: seq<OrderLine>, qs: seq<nat>)
    requires forall i, j :: 0 <= i < j < |qs| ==> qs[i] != qs[j]
    ensures Gathered(lines, qs) == multiset(Keep(lines, Moved(qs)))
    decreases |qs|
  {
    if qs == [] {
      KeepSplit(lines, Moved(qs), Moved(qs), Moved(qs));
    } else {
      GatheredIsMoved(lines, qs[1..]);
      assert qs[0] !in qs[1..];
      assert forall q :: q in qs <==> q == qs[0] || q in qs[1..];
      KeepSplit(lines, OfPhotographer(qs[0]), Moved(qs[1..]), Moved(qs));
    }
  }

  /** Moving the photo lines of distinct photographers `qs` out of an order loses and duplicates
      no line: what stays and what moves together are the original lines. */
  lemma MovedPartition(lines: seq<OrderLine>, qs: seq<nat>)
    requires forall i, j :: 0 <= i < j < |qs| ==> qs[i] != qs[j]
    ensures multiset(lines) == multiset(Keep(lines, NotMoved(qs))) + Gathered(lines, qs)
  {
    GatheredIsMoved(lines, qs);
    KeepEverything(lines, (l: OrderLine) => true);
    KeepSplit(lines, NotMoved(qs), Moved(qs), (l: OrderLine) => true);
  }

  predicate IsQuotation(o: Order) { o.state == Quotation || o.state == QuotationSent }

  /** `_duplicate_for_photographer`: a `copy()` of the order with its lines unlinked. The shop's
      fields are `copy=False` and start unset, and the copy is a new quotation dated `today`. */
  function Duplicate(o: Order, today: Date): (r: Order)
    ensures r.state == Quotation && r.lines == [] && r.partner == o.partner && r.commercialPartner == o.commercialPartner
  {
    Order(Quotation, o.partner, o.commercialPartner, Some(today), [], None, None, 0.0, 0.0, 0.0, "", None, false, "",
          Some(FirstOfMonth(today)))
  }

  /** The photographers whose lines leave a split order, one new order each. */
  function Spawned(o: Order): (r: seq<nat>)
    ensures forall i, j :: 0 <= i < j < |r| ==> r[i] != r[j]
  {
    var ps := Photographers(o.lines);
    if IsQuotation(o) && ps != [] then ps[1..] else []
  }

  /** The new order of photographer `p`: a duplicate holding `p`'s photo lines, with `p`'s
      metadata and commission. */
  function SplitDuplicate(o: Order, p: nat, dir: Directory, today: Date): (r: Order)
    ensures r.lines == Keep(o.lines, OfPhotographer(p)) && r.photographer == Some(p)
  {
    ForPhotographer(Duplicate(o, today).(lines := Keep(o.lines, OfPhotographer(p))), p, dir)
  }

  /** The original order after the split: it keeps the first photographer's lines and the lines
      without a photographer, and gets the first photographer's metadata and a commission on what
      it keeps. */
  function SplitFirst(o: Order, dir: Directory): (r: Order)
    requires Photographers(o.lines) != []
    ensures r.lines == Keep(o.lines, NotMoved(Photographers(o.lines)[1..]))
    ensures r.photographer == Some(Photographers(o.lines)[0])
  {
    var ps := Photographers(o.lines);
    ForPhotographer(o.(lines := Keep(o.lines, NotMoved(ps[1..]))), ps[0], dir)
  }

  /** The original order as the loop leaves it: its commission is computed at the first
      iteration, while it still holds every photographer's lines, and never again. */
  function SplitFirstAsWritten(o: Order, dir: Directory): (r: Order)
    requires Photographers(o.lines) != []
    ensures r.lines == Keep(o.lines, NotMoved(Photographers(o.lines)[1..]))
    ensures r.platformAmount + r.photographerAmount == AmountTotal(o)
  {
    var ps := Photographers(o.lines);
    ForPhotographer(o, ps[0], dir).(lines := Keep(o.lines, NotMoved(ps[1..])))
  }

  /** An order without photo lines only gets the metadata of its customer's subscription. */
  function NoPhotoMetadata(o: Order, dir: Directory): Order {
    ApplyPhotographerMetadata(o, ActiveSubOf(dir, o.partner), None, dir)
  }

  /** What `_ensure_single_photographer_orders` leaves in an existing order. */
  function Settled(o: Order, dir: Directory): (r: Order)
    ensures !IsQuotation(o) ==> r == o
  {
    if !IsQuotation(o) then o
    else if Photographers(o.lines) == [] then NoPhotoMetadata(o, dir)
    else SplitFirst(o, dir)
  }

  /** After the split, the original order holds the photo lines of exactly one photographer,
      the first one, and carries that photographer. */
  lemma SplitFirstHasOnePhotographer(o: Order, dir: Directory)
    requires IsQuotation(o) && Photographers(o.lines) != []
    ensures Photographers(Settled(o, dir).lines) == [Photographers(o.lines)[0]]
    ensures Settled(o, dir).photographer == Some(Photographers(o.lines)[0])
  {
    var ps := Photographers(o.lines);
    var kept := Keep(o.lines, NotMoved(ps[1..]));
    forall i | 0 <= i < |kept|
      ensures kept[i].photographer.None? || kept[i].photographer == Some(ps[0])
    {
      assert kept[i] in kept;
      if kept[i].photographer.Some? {
        var q := kept[i].photographer.value;
        assert q in ps && q !in ps[1..];
        assert ps == [ps[0]] + ps[1..];
      }
    }
    assert ps[0] in ps;
    var w :| 0 <= w < |o.lines| && o.lines[w].photographer == Some(ps[0]);
    assert ps[0] !in ps[1..];
    assert o.lines[w] in kept;
    OnlyPhotographer(kept, ps[0]);
  }

  /** Each new order of the split holds the photo lines of exactly one photographer, its own. */
  lemma SplitDuplicateHasOnePhotographer(o: Order, j: nat, dir: Directory, today: Date)
    requires j < |Spawned(o)|
    ensures Photographers(SplitDuplicate(o, Spawned(o)[j], dir, today).lines) == [Spawned(o)[j]]
    ensures SplitDuplicate(o, Spawned(o)[j], dir, today).photographer == Some(Spawned(o)[j])
  {
    var q := Spawned(o)[j];
    var mine := Keep(o.lines, OfPhotographer(q));
    assert q in Photographers(o.lines);
    var v :| 0 <= v < |o.lines| && o.lines[v].photographer == Some(q);
    assert o.lines[v] in mine;
    forall i | 0 <= i < |mine|
      ensures mine[i].photographer.None? || mine[i].photographer == Some(q)
    {
      assert mine[i] in mine;
    }
    OnlyPhotographer(mine, q);
  }

  /** The split neither loses nor duplicates a line: the original order's lines are exactly what
      the original keeps plus the lines of the new orders. */
  lemma SplitKeepsLines(o: Order, dir: Directory, today: Date)
    requires IsQuotation(o) && Photographers(o.lines) != []
    ensures multiset(o.lines) == multiset(Settled(o, dir).lines) + Gathered(o.lines, Spawned(o))
    ensures forall j :: 0 <= j < |Spawned(o)| ==>
              SplitDuplicate(o, Spawned(o)[j], dir, today).lines == Keep(o.lines, OfPhotographer(Spawned(o)[j]))
  {
    MovedPartition(o.lines, Spawned(o));
  }

  /** Every order the split leaves has its commission computed on its own lines. */
  lemma SplitAmountsMatchTotals(o: Order, dir: Directory, today: Date)
    requires IsQuotation(o) && Photographers(o.lines) != []
    ensures Settled(o, dir).platformAmount + Settled(o, dir).photographerAmount == AmountTotal(Settled(o, dir))
    ensures forall j :: 0 <= j < |Spawned(o)| ==>
              var d := SplitDuplicate(o, Spawned(o)[j], dir, today);
              d.platformAmount + d.photographerAmount == AmountTotal(d)
  {
  }

  const LineOfFirst := OrderLine(1, None, Some(1), Some(10), None, 1.0, 100.0, 100.0)
  const LineOfSecond := OrderLine(1, None, Some(2), Some(11), None, 1.0, 50.0, 50.0)
  const TwoPhotographerCart := Order(Quotation, 7, 7, None, [LineOfFirst, LineOfSecond], None, None, 0.0, 0.0, 0.0,
                                     "", None, false, "", None)

  /** The cart holds one photo of photographer 1 and one of photographer 2. */
  lemma CartPhotographers()
    ensures Photographers(TwoPhotographerCart.lines) == [1, 2]
  {
    var lines := TwoPhotographerCart.lines;
    assert lines[..1] == [LineOfFirst];
    assert Photographers([LineOfFirst]) == [1] by {
      assert [LineOfFirst][..0] == [];
    }
  }

  /** The cart's photos come to 150.0 in all. */
  lemma CartTotal()
    ensures Arith.Sum(LineTotals(TwoPhotographerCart.lines)) == 150.0
  {
    assert LineTotals(TwoPhotographerCart.lines) == [100.0, 50.0];
    assert [100.0, 50.0][..1] == [100.0];
    assert [100.0][..0] == [];
  }

  /** Dropping photographer 2's lines from the cart leaves the 100.0 photo alone. */
  lemma CartKeepsFirstLine()
    ensures Keep(TwoPhotographerCart.lines, NotMoved([2])) == [LineOfFirst]
    ensures Arith.Sum(LineTotals([LineOfFirst])) == 100.0
  {
    var lines := TwoPhotographerCart.lines;
    var f := NotMoved([2]);
    assert lines[1..] == [LineOfSecond];
    assert [LineOfSecond][1..] == [];
    assert !f(LineOfSecond) && f(LineOfFirst);
    assert Keep([LineOfSecond], f) == [] + Keep([], f);
    assert Keep(lines, f) == [LineOfFirst] + Keep([LineOfSecond], f);
    assert LineTotals([LineOfFirst]) == [100.0];
    assert [100.0][..0] == [];
  }

  /** A quotation with a 100.0 photo of one photographer and a 50.0 photo of another: the loop
      leaves the original order with the first photo only, but with shares adding up to 150.0. */
  lemma StaleCommissionAfterSplit()
    ensures Photographers(TwoPhotographerCart.lines) == [1, 2]
    ensures AmountTotal(SplitFirstAsWritten(TwoPhotographerCart, Directory(map[], map[]))) == 100.0
    ensures SplitFirstAsWritten(TwoPhotographerCart, Directory(map[], map[])).platformAmount
            + SplitFirstAsWritten(TwoPhotographerCart, Directory(map[], map[])).photographerAmount == 150.0
  {
    CartPhotographers();
    CartTotal();
    CartKeepsFirstLine();
    var r := SplitFirstAsWritten(TwoPhotographerCart, Directory(map[], map[]));
    assert Photographers(TwoPhotographerCart.lines)[1..] == [2];
    assert r.lines == [LineOfFirst];
  }

  /** `_ensure_single_photographer_orders` on one order: a quotation with photo lines of several
      photographers keeps the first one's and hands each other photographer's lines to a new
      order. */
  method SettleOne(t: Orm.Table<Order>, id: nat, dir: Directory, today: Date) returns (created: seq<nat>)
    requires t.Valid() && id in t.rows
    modifies t
    ensures t.Valid()
    ensures t.rows.Keys == old(t.rows).Keys + Orm.Members(created)
    ensures t.rows[id] == Settled(old(t.rows)[id], dir)
    ensures forall k :: k in old(t.rows) && k != id ==> t.rows[k] == old(t.rows)[k]
    ensures |created| == |Spawned(old(t.rows)[id])| && Orm.IsRecordset(created, t.rows)
    ensures forall j :: 0 <= j < |created| ==>
              created[j] !in old(t.rows) && t.rows[created[j]] == SplitDuplicate(old(t.rows)[id], Spawned(old(t.rows)[id])[j], dir, today)
  {
    var o := t.rows[id];
    created := [];
    if !IsQuotation(o) {
      return;
    }
    var ps := Photographers(o.lines);
    if ps == [] {
      t.rows := t.rows[id := NoPhotoMetadata(o, dir)];
      return;
    }
    t.rows := t.rows[id := SplitFirst(o, dir)];
    created := t.CreateEach(ps[1..], (p: nat, k: nat) => SplitDuplicate(o, p, dir, today));
  }

  /** The orders of `ids` before position `i` are rewritten by `settle` and the new orders
      split off `ids[m]` are recorded in `created[m]`, the `j`-th one being `spawn(order, j)`;
      every other existing order is as it was. */
  ghost predicate SplitProgress(rows0: map<nat, Order>, rows: map<nat, Order>, ids: seq<nat>, i: nat,
                                created: seq<seq<nat>>, settle: Order -> Order, count: Order -> nat,
                                spawn: (Order, nat) -> Order)
    requires Orm.IsRecordset(ids, rows0) && i <= |ids|
  {
    && |created| == i
    && (forall k :: k in rows0 ==> k in rows && rows[k] == if k in ids[..i] then settle(rows0[k]) else rows0[k])
    && (forall m :: 0 <= m < i ==> |created[m]| == count(rows0[ids[m]]))
    && (forall m, j :: 0 <= m < i && 0 <= j < |created[m]| ==>
          created[m][j] in rows && created[m][j] !in rows0 && rows[created[m][j]] == spawn(rows0[ids[m]], j))
    && rows.Keys == rows0.Keys + Orm.Members(Flatten(created))
  }

  /** The ids of `created`, one group after another. */
  function Flatten(created: seq<seq<nat>>): seq<nat> {
    if created == [] then [] else Flatten(created[..|created| - 1]) + created[|created| - 1]
  }

  /** `_ensure_single_photographer_orders` over a recordset: quotations are settled one by one;
      `created[i]` are the new orders split off the order `ids[i]`. */
  method EnsureSinglePhotographerOrders(t: Orm.Table<Order>, ids: seq<nat>, dir: Directory, today: Date)
    returns (ghost created: seq<seq<nat>>)
    requires t.Valid() && Orm.IsRecordset(ids, t.rows)
    modifies t
    ensures t.Valid() && |created| == |ids|
    ensures forall k :: k in old(t.rows) ==> k in t.rows && t.rows[k] == if k in ids then Settled(old(t.rows)[k], dir) else old(t.rows)[k]
    ensures forall m :: 0 <= m < |ids| ==> |created[m]| == |Spawned(old(t.rows)[ids[m]])|
    ensures forall m, j :: 0 <= m < |ids| && 0 <= j < |created[m]| ==>
              created[m][j] in t.rows && created[m][j] !in old(t.rows)
              && t.rows[created[m][j]] == SplitDuplicate(old(t.rows)[ids[m]], Spawned(old(t.rows)[ids[m]])[j], dir, today)
    ensures t.rows.Keys == old(t.rows).Keys + Orm.Members(Flatten(created))
  {
    var settle := (o: Order) => Settled(o, dir);
    var count := (o: Order) => |Spawned(o)|;
    var spawn := (o: Order, j: nat) => if j < |Spawned(o)| then SplitDuplicate(o, Spawned(o)[j], dir, today) else o;
    created := [];
    var i := 0;
    while i < |ids|
      invariant i <= |ids| && t.Valid()
      invariant SplitProgress(old(t.rows), t.rows, ids, i, created, settle, count, spawn)
    {
      ghost var before := t.rows;
      var id := ids[i];
      assert id !in ids[..i];
      var made := SettleOne(t, id, dir, today);
      SettleStep(old(t.rows), before, t.rows, ids, i, created, made, settle, count, spawn);
      created := created + [made];
      i := i + 1;
    }
    assert ids[..i] == ids;
  }

  /** One iteration of the split loop keeps `SplitProgress`. */
  lemma SettleStep(rows0: map<nat, Order>, before: map<nat, Order>, after: map<nat, Order>, ids: seq<nat>, i: nat,
                   created: seq<seq<nat>>, made: seq<nat>, settle: Order -> Order, count: Order -> nat,
                   spawn: (Order, nat) -> Order)
    requires Orm.IsRecordset(ids, rows0) && i < |ids|
    requires SplitProgress(rows0, before, ids, i, created, settle, count, spawn)
    requires after.Keys == before.Keys + Orm.Members(made)
    requires after[ids[i]] == settle(before[ids[i]])
    requires forall k :: k in before && k != ids[i] ==> after[k] == before[k]
    requires |made| == count(before[ids[i]])
    requires forall j :: 0 <= j < |made| ==> made[j] !in before && after[made[j]] == spawn(before[ids[i]], j)
    ensures SplitProgress(rows0, after, ids, i + 1, created + [made], settle, count, spawn)
  {
    var c := created + [made];
    SettleStepKept(rows0, before, after, ids, i, settle);
    SettleStepCreated(rows0, before, after, ids, i, created, made, count, spawn);
    assert ids[i] !in ids[..i];
    SettleStepCounts(rows0, before, ids, i, created, made, count);
    FlattenKeys(rows0.Keys, before.Keys, after.Keys, created, made);
  }

  lemma SettleStepCounts(rows0: map<nat, Order>, before: map<nat, Order>, ids: seq<nat>, i: nat,
                         created: seq<seq<nat>>, made: seq<nat>, count: Order -> nat)
    requires Orm.IsRecordset(ids, rows0) && i < |ids| && |created| == i
    requires ids[i] in before && before[ids[i]] == rows0[ids[i]]
    requires forall m :: 0 <= m < i ==> |created[m]| == count(rows0[ids[m]])
    requires |made| == count(before[ids[i]])
    ensures forall m :: 0 <= m < i + 1 ==> |(created + [made])[m]| == count(rows0[ids[m]])
  {
    var c := created + [made];
    forall m | 0 <= m < i + 1
      ensures |c[m]| == count(rows0[ids[m]])
    {
      if m < i {
        assert c[m] == created[m];
      }
    }
  }

  lemma FlattenKeys(keys0: set<nat>, before: set<nat>, after: set<nat>, created: seq<seq<nat>>, made: seq<nat>)
    requires before == keys0 + Orm.Members(Flatten(created))
    requires after == before + Orm.Members(made)
    ensures after == keys0 + Orm.Members(Flatten(created + [made]))
  {
    var c := created + [made];
    assert c[..|c| - 1] == created;
    assert Flatten(c) == Flatten(created) + made;
    assert Orm.Members(Flatten(c)) == Orm.Members(Flatten(created)) + Orm.Members(made);
  }

  lemma SettleStepKept(rows0: map<nat, Order>, before: map<nat, Order>, after: map<nat, Order>, ids: seq<nat>, i: nat,
                       settle: Order -> Order)
    requires Orm.IsRecordset(ids, rows0) && i < |ids|
    requires forall k :: k in rows0 ==> k in before && before[k] == if k in ids[..i] then settle(rows0[k]) else rows0[k]
    requires forall k :: k in before ==> k in after
    requires after[ids[i]] == settle(before[ids[i]])
    requires forall k :: k in before && k != ids[i] ==> after[k] == before[k]
    ensures forall k :: k in rows0 ==> k in after && after[k] == if k in ids[..i + 1] then settle(rows0[k]) else rows0[k]
  {
    assert ids[i] !in ids[..i];
    assert ids[..i + 1] == ids[..i] + [ids[i]];
  }

  lemma SettleStepCreated(rows0: map<nat, Order>, before: map<nat, Order>, after: map<nat, Order>, ids: seq<nat>,
                          i: nat, created: seq<seq<nat>>, made: seq<nat>, count: Order -> nat, spawn: (Order, nat) -> Order)
    requires Orm.IsRecordset(ids, rows0) && i < |ids| && |created| == i
    requires forall k :: k in rows0 ==> k in before
    requires forall k :: k in rows0 && k !in ids[..i] ==> before[k] == rows0[k]
    requires forall m, j :: 0 <= m < i && 0 <= j < |created[m]| ==>
               created[m][j] in before && created[m][j] !in rows0 && before[created[m][j]] == spawn(rows0[ids[m]], j)
    requires after.Keys == before.Keys + Orm.Members(made)
    requires forall k :: k in before && k != ids[i] ==> after[k] == before[k]
    requires forall j :: 0 <= j < |made| ==> made[j] !in before && after[made[j]] == spawn(before[ids[i]], j)
    ensures forall m, j :: 0 <= m < i + 1 && 0 <= j < |(created + [made])[m]| ==>
              (created + [made])[m][j] in after && (created + [made])[m][j] !in rows0
              && after[(created + [made])[m][j]] == spawn(rows0[ids[m]], j)
  {
    var c := created + [made];
    assert ids[i] !in ids[..i];
    forall m, j | 0 <= m < i + 1 && 0 <= j < |c[m]|
      ensures c[m][j] in after && c[m][j] !in rows0 && after[c[m][j]] == spawn(rows0[ids[m]], j)
    {
      if m < i {
        assert c[m] == created[m];
      } else {
        assert c[m] == made;
      }
    }
  }

  // ---------------------------------------------------------------------------------------
  // _process_fotoapp_plan_lines

  /** The subscription table as a value: its records and the next id it allocates. */
  datatype SubStore = SubStore(rows: map<nat, Subscriptions.Subscription>, next: nat)

  predicate Allocated(st: SubStore) {
    forall k :: k in st.rows ==> k < st.next
  }

  /** The search domain of `_process_fotoapp_plan_lines`: a photographer subscription of the
      partner in draft, trial, active or grace. */
  predicate OpenPlanOf(s: Subscriptions.Subscription, pid: nat) {
    s.partner == pid && s.isPhotographerPlan && (s.state == Subscriptions.Draft || Subscriptions.Billable(s.state))
  }

  /** `search(domain, limit=1)` over the ids below `n`, taken in ascending `id` order: the lowest
      matching id is found. The model's `_order` comes from `subscription_oca`, which is not part of
      this model. */
  function FirstOpen(rows: map<nat, Subscriptions.Subscription>, pid: nat, n: nat): (r: Option<nat>)
    ensures r.Some? ==> r.value < n && r.value in rows && OpenPlanOf(rows[r.value], pid)
    ensures r.Some? ==> forall k: nat :: k < r.value && k in rows ==> !OpenPlanOf(rows[k], pid)
    ensures r.None? ==> forall k: nat :: k < n && k in rows ==> !OpenPlanOf(rows[k], pid)
  {
    if n == 0 then None
    else match FirstOpen(rows, pid, n - 1)
      case Some(k) => Some(k)
      case None => if n - 1 in rows && OpenPlanOf(rows[n - 1], pid) then Some(n - 1) else None
  }

  /** `subscription.plan_id == plan`: records compare by id. */
  predicate SamePlan(s: Subscriptions.Subscription, plan: Plan) {
    s.plan.Some? && s.plan.value.id == plan.id
  }

  /** The date the renewal counts from: the order date, or today without one. */
  function BaseDate(o: Order, today: Date): Date {
    if o.dateOrder.Some? then o.dateOrder.value else today
  }

  /** The renewal write: state active, next billing date 30 days after `base`. */
  function Renew(s: Subscriptions.Subscription, base: Date): (r: Subscriptions.Subscription)
    ensures r.state == Subscriptions.Active && r.nextBillingDate.Some? && Lt(base, r.nextBillingDate.value)
    ensures r.nextBillingDate == Some(AddDays(base, 30))
    ensures r.(state := s.state, nextBillingDate := s.nextBillingDate) == s
  {
    AddDaysIsLater(base, 30);
    s.(state := Subscriptions.Active, nextBillingDate := Some(AddDays(base, 30)))
  }

  /** `_constrain_unique_active` raises on the written record `id`: it is an active photographer
      subscription and another one of the same partner is active too. */
  predicate Clashes(rows: map<nat, Subscriptions.Subscription>, id: nat)
    requires id in rows
  {
    Subscriptions.ActivePhotographer(rows[id]) &&
    exists k :: k in rows && k != id && Subscriptions.ActivePhotographer(rows[k]) && rows[k].partner == rows[id].partner
  }

  /** The partner holds an active photographer subscription on the plan `planId`. */
  predicate HoldsPlan(rows: map<nat, Subscriptions.Subscription>, pid: nat, planId: nat) {
    exists k :: k in rows && rows[k].partner == pid && Subscriptions.ActivePhotographer(rows[k])
      && rows[k].plan.Some? && rows[k].plan.value.id == planId
  }

  /** `_activate_photo_plan` on the table value: a new active subscription on the plan, unless
      the plan has no template or the partner already holds another active one (the call raises). */
  function Subscribe(st: SubStore, pid: nat, plan: Plan, blueprint: Option<nat>, today: Date): (r: Option<SubStore>)
    ensures Allocated(st) ==> (r.None? <==> SubscriptionTemplate(plan, blueprint).None? || Partners.HasActive(st.rows, pid))
    ensures r.Some? ==> r.value.rows == st.rows[st.next := Partners.NewPlanSubscription(pid, plan, today)] && r.value.next == st.next + 1
  {
    if SubscriptionTemplate(plan, blueprint).None? then None
    else
      var rows := st.rows[st.next := Partners.NewPlanSubscription(pid, plan, today)];
      assert Allocated(st) ==> (Clashes(rows, st.next) <==> Partners.HasActive(st.rows, pid)) by {
        if Allocated(st) {
          NewClashesIffActive(st.rows, st.next, Partners.NewPlanSubscription(pid, plan, today));
        }
      }
      if Clashes(rows, st.next) then None else Some(SubStore(rows, st.next + 1))
  }

  /** A new active subscription clashes exactly when its partner already holds an active one. */
  lemma NewClashesIffActive(rows: map<nat, Subscriptions.Subscription>, id: nat, s: Subscriptions.Subscription)
    requires id !in rows && Subscriptions.ActivePhotographer(s)
    ensures Clashes(rows[id := s], id) <==> Partners.HasActive(rows, s.partner)
  {
    var rows' := rows[id := s];
    if Partners.HasActive(rows, s.partner) {
      var k :| k in rows && rows[k].partner == s.partner && Subscriptions.ActivePhotographer(rows[k]);
      assert k in rows' && k != id && rows'[k] == rows[k];
    }
    if Clashes(rows', id) {
      var k :| k in rows' && k != id && Subscriptions.ActivePhotographer(rows'[k]) && rows'[k].partner == s.partner;
      assert k in rows && rows[k] == rows'[k];
    }
  }

  /** One plan line: the partner's open subscription on the same plan is renewed from `base`;
      otherwise the open one, if any, is cancelled and the plan activated. None where the source
      raises. */
  function PlanLineEffect(st: SubStore, pid: nat, plan: Plan, base: Date, blueprint: Option<nat>, today: Date)
    : (r: Option<SubStore>)
    ensures r.Some? ==> HoldsPlan(r.value.rows, pid, plan.id)
    ensures r.Some? ==> st.rows.Keys <= r.value.rows.Keys && st.next <= r.value.next
    ensures r.Some? && Allocated(st) ==> Allocated(r.value)
  {
    match FirstOpen(st.rows, pid, st.next)
    case Some(k) =>
      if SamePlan(st.rows[k], plan) then
        var rows := st.rows[k := Renew(st.rows[k], base)];
        assert rows[k].partner == pid;
        if Clashes(rows, k) then None else Some(SubStore(rows, st.next))
      else
        var r := Subscribe(SubStore(st.rows[k := Subscriptions.Cancel(st.rows[k], today)], st.next), pid, plan, blueprint, today);
        assert r.Some? ==> r.value.rows[st.next].partner == pid;
        r
    case None =>
      var r := Subscribe(st, pid, plan, blueprint, today);
      assert r.Some? ==> r.value.rows[st.next].partner == pid;
      r
  }

  /** The plan lines of an order, one after another; the first line that raises aborts. */
  function PlanLinesEffect(st: SubStore, lines: seq<OrderLine>, pid: nat, base: Date, blueprint: Option<nat>, today: Date)
    : Option<SubStore>
    decreases |lines|
  {
    if lines == [] then Some(st)
    else if lines[0].plan.None? then PlanLinesEffect(st, lines[1..], pid, base, blueprint, today)
    else match PlanLineEffect(st, pid, lines[0].plan.value, base, blueprint, today)
      case None => None
      case Some(st') => PlanLinesEffect(st', lines[1..], pid, base, blueprint, today)
  }

  /** A write to subscription `k` that `_constrain_unique_active` lets through keeps the
      one-active-plan rule. */
  lemma WriteKeepsUnique(rows: map<nat, Subscriptions.Subscription>, k: nat, s: Subscriptions.Subscription)
    requires Subscriptions.UniqueActive(rows) && !Clashes(rows[k := s], k)
    ensures Subscriptions.UniqueActive(rows[k := s])
  {
    Subscriptions.ConstraintPreservesUniqueness(rows, rows[k := s], {k});
  }

  /** A plan line that goes through keeps every partner at one active photographer plan. */
  lemma PlanLineKeepsUnique(st: SubStore, pid: nat, plan: Plan, base: Date, blueprint: Option<nat>, today: Date)
    requires Subscriptions.UniqueActive(st.rows)
    requires PlanLineEffect(st, pid, plan, base, blueprint, today).Some?
    ensures Subscriptions.UniqueActive(PlanLineEffect(st, pid, plan, base, blueprint, today).value.rows)
  {
    var newSub := Partners.NewPlanSubscription(pid, plan, today);
    match FirstOpen(st.rows, pid, st.next)
    case Some(k) =>
      if SamePlan(st.rows[k], plan) {
        WriteKeepsUnique(st.rows, k, Renew(st.rows[k], base));
      } else {
        var cancelled := Subscriptions.Cancel(st.rows[k], today);
        WriteKeepsUnique(st.rows, k, cancelled);
        WriteKeepsUnique(st.rows[k := cancelled], st.next, newSub);
      }
    case None =>
      WriteKeepsUnique(st.rows, st.next, newSub);
  }

  /** Processing all plan lines without an error keeps the one-active-plan rule. */
  lemma {:induction false} PlanLinesKeepUnique(st: SubStore, lines: seq<OrderLine>, pid: nat, base: Date,
                                               blueprint: Option<nat>, today: Date)
    requires Subscriptions.UniqueActive(st.rows)
    requires PlanLinesEffect(st, lines, pid, base, blueprint, today).Some?
    ensures Subscriptions.UniqueActive(PlanLinesEffect(st, lines, pid, base, blueprint, today).value.rows)
    decreases |lines|
  {
    if lines != [] {
      if lines[0].plan.None? {
        PlanLinesKeepUnique(st, lines[1..], pid, base, blueprint, today);
      } else {
        var st' := PlanLineEffect(st, pid, lines[0].plan.value, base, blueprint, today).value;
        PlanLineKeepsUnique(st, pid, lines[0].plan.value, base, blueprint, today);
        PlanLinesKeepUnique(st', lines[1..], pid, base, blueprint, today);
      }
    }
  }

  /** Lines without a plan leave the subscriptions alone. */
  lemma {:induction false} NoPlanLinesNoEffect(st: SubStore, lines: seq<OrderLine>, pid: nat, base: Date,
                                               blueprint: Option<nat>, today: Date)
    requires forall j :: 0 <= j < |lines| ==> lines[j].plan.None?
    ensures PlanLinesEffect(st, lines, pid, base, blueprint, today) == Some(st)
    decreases |lines|
  {
    if lines != [] {
      NoPlanLinesNoEffect(st, lines[1..], pid, base, blueprint, today);
    }
  }

  /** After a successful confirmation the partner holds the plan of the order's last plan line. */
  lemma {:induction false} LastPlanHeld(st: SubStore, lines: seq<OrderLine>, i: nat, pid: nat, base: Date,
                                        blueprint: Option<nat>, today: Date)
    requires i < |lines| && lines[i].plan.Some?
    requires forall j :: i < j < |lines| ==> lines[j].plan.None?
    requires PlanLinesEffect(st, lines, pid, base, blueprint, today).Some?
    ensures HoldsPlan(PlanLinesEffect(st, lines, pid, base, blueprint, today).value.rows, pid, lines[i].plan.value.id)
    decreases |lines|
  {
    var next := if lines[0].plan.None? then Some(st) else PlanLineEffect(st, pid, lines[0].plan.value, base, blueprint, today);
    if i == 0 {
      NoPlanLinesNoEffect(next.value, lines[1..], pid, base, blueprint, today);
    } else {
      LastPlanHeld(next.value, lines[1..], i - 1, pid, base, blueprint, today);
    }
  }

  /** One plan line on the subscription table. When the source raises the method returns false
      and the caller rolls the table back. */
  method ProcessPlanLine(subs: Orm.Table<Subscriptions.Subscription>, pid: nat, plan: Plan, base: Date,
                         blueprint: Option<nat>, today: Date) returns (ok: bool)
    requires subs.Valid()
    modifies subs
    ensures subs.Valid() && old(subs.nextId) <= subs.nextId
    ensures var r := PlanLineEffect(SubStore(old(subs.rows), old(subs.nextId)), pid, plan, base, blueprint, today);
      (ok <==> r.Some?) && (ok ==> r.value == SubStore(subs.rows, subs.nextId))
  {
    var found := FirstOpen(subs.rows, pid, subs.nextId);
    if found.Some? && SamePlan(subs.rows[found.value], plan) {
      var k := found.value;
      subs.rows := subs.rows[k := Renew(subs.rows[k], base)];
      ok := !Clashes(subs.rows, k);
      return;
    }
    if found.Some? {
      var k := found.value;
      subs.rows := subs.rows[k := Subscriptions.Cancel(subs.rows[k], today)];
    }
    var id := Partners.ActivatePhotoPlan(subs, pid, plan, blueprint, today);
    ok := id.Some?;
  }

  /** `_process_fotoapp_plan_lines` for a confirmed order: each plan line in turn, for the
      order's commercial partner; when one raises, the confirmation is rolled back. */
  method ProcessPlanLines(o: Order, subs: Orm.Table<Subscriptions.Subscription>, blueprint: Option<nat>, today: Date)
    returns (ok: bool)
    requires subs.Valid()
    modifies subs
    ensures subs.Valid() && old(subs.nextId) <= subs.nextId
    ensures var r := PlanLinesEffect(SubStore(old(subs.rows), old(subs.nextId)), o.lines, o.commercialPartner,
                                     BaseDate(o, today), blueprint, today);
      (ok <==> r.Some?) && (ok ==> r.value == SubStore(subs.rows, subs.nextId)) && (!ok ==> subs.rows == old(subs.rows))
  {
    ghost var st0 := SubStore(subs.rows, subs.nextId);
    var rows0 := subs.rows;
    var pid := o.commercialPartner;
    var base := BaseDate(o, today);
    var i := 0;
    while i < |o.lines|
      invariant i <= |o.lines| && subs.Valid() && st0.next <= subs.nextId
      invariant PlanLinesEffect(st0, o.lines, pid, base, blueprint, today)
             == PlanLinesEffect(SubStore(subs.rows, subs.nextId), o.lines[i..], pid, base, blueprint, today)
    {
      assert o.lines[i..][1..] == o.lines[i + 1..];
      if o.lines[i].plan.Some? {
        var lineOk := ProcessPlanLine(subs, pid, o.lines[i].plan.value, base, blueprint, today);
        if !lineOk {
          subs.rows := rows0;
          return false;
        }
      }
      i := i + 1;
    }
    ok := true;
  }

  /** What one plan line does to the subscription the search found: on the same plan it is
      renewed in place from `base` and nothing is created; on another plan it is cancelled today
      and a new active subscription on the line's plan is added; without one the plan is simply
      activated. */
  lemma PlanLineOutcome(st: SubStore, pid: nat, plan: Plan, base: Date, blueprint: Option<nat>, today: Date)
    requires PlanLineEffect(st, pid, plan, base, blueprint, today).Some?
    ensures var r := PlanLineEffect(st, pid, plan, base, blueprint, today).value;
      var found := FirstOpen(st.rows, pid, st.next);
      && (found.Some? && SamePlan(st.rows[found.value], plan) ==>
            r.next == st.next && r.rows.Keys == st.rows.Keys
            && r.rows[found.value].state == Subscriptions.Active
            && r.rows[found.value].nextBillingDate == Some(AddDays(base, 30)))
      && (found.Some? && !SamePlan(st.rows[found.value], plan) ==>
            r.rows[found.value].state == Subscriptions.Canceled
            && r.rows[found.value].cancellationDate == Some(today)
            && r.next == st.next + 1 && r.rows[st.next] == Partners.NewPlanSubscription(pid, plan, today))
      && (found.None? ==> r.rows == st.rows[st.next := Partners.NewPlanSubscription(pid, plan, today)])
  {
  }

  // ---------------------------------------------------------------------------------------
  // _compute_fotoapp_order_month

  /** `fotoapp_order_month`: the first day of the order date's month, unset without a date. */
  function OrderMonth(dateOrder: Option<Date>): (r: Option<Date>)
    ensures r.None? <==> dateOrder.None?
    ensures r.Some? ==> r.value.day == 1 && r.value.year == dateOrder.value.year && r.value.month == dateOrder.value.month
    ensures r.Some? ==> Le(r.value, dateOrder.value)
  {
    if dateOrder.None? then None else Some(FirstOfMonth(dateOrder.value))
  }

  /** Two orders fall in the same sales month exactly when their dates share year and month. */
  lemma SameOrderMonth(a: Date, b: Date)
    ensures OrderMonth(Some(a)) == OrderMonth(Some(b)) <==> a.year == b.year && a.month == b.month
  {
    if a.year == b.year && a.month == b.month {
      assert FirstOfMonth(a) == FirstOfMonth(b);
    }
  }

  function WithOrderMonth(o: Order): (r: Order)
    ensures r.orderMonth == OrderMonth(o.dateOrder) && r.(orderMonth := o.orderMonth) == o
  {
    o.(orderMonth := OrderMonth(o.dateOrder))
  }

  /** `_compute_fotoapp_order_month` over a recordset. */
  method ComputeOrderMonth(t: Orm.Table<Order>, ids: seq<nat>)
    requires Orm.IsRecordset(ids, t.rows)
    modifies t
    ensures t.nextId == old(t.nextId)
    ensures t.rows == Orm.Updated(old(t.rows), Orm.Members(ids), WithOrderMonth)
  {
    t.ApplyEach(ids, WithOrderMonth);
  }

  // ---------------------------------------------------------------------------------------
  // _fotoapp_ensure_download_token

  const SecondsPerDay := 86400

  /** The order has a download token whose expiry is still ahead of `now`. */
  predicate TokenLive(o: Order, now: int) {
    o.downloadToken != "" && o.tokenExpiresAt.Some? && o.tokenExpiresAt.value > now
  }

  /** `_fotoapp_ensure_download_token` on one order: a live token is kept; otherwise `token` (the
      random token the source draws) is issued for `validityDays` days and the e-mail flag is
      reset. */
  function EnsureDownloadToken(o: Order, now: int, token: string, validityDays: int): (r: Order)
    ensures TokenLive(o, now) ==> r == o
    ensures !TokenLive(o, now) ==>
      r.downloadToken == token && r.tokenExpiresAt == Some(now + validityDays * SecondsPerDay) && !r.emailSent
    ensures r.(downloadToken := o.downloadToken, tokenExpiresAt := o.tokenExpiresAt, emailSent := o.emailSent) == o
  {
    if TokenLive(o, now) then o
    else o.(downloadToken := token, tokenExpiresAt := Some(now + validityDays * SecondsPerDay), emailSent := false)
  }

  /** With a non-empty token and a positive validity, the order has a live token afterwards, and
      a second call at the same moment changes nothing. */
  lemma EnsuredTokenIsLive(o: Order, now: int, token: string, token2: string, validityDays: int)
    requires token != "" && validityDays > 0
    ensures TokenLive(EnsureDownloadToken(o, now, token, validityDays), now)
    ensures var o' := EnsureDownloadToken(o, now, token, validityDays);
      EnsureDownloadToken(o', now, token2, validityDays) == o'
  {
  }

  /** `_fotoapp_ensure_download_token` over a recordset; `tokens[i]` is the token drawn for the
      `i`-th order. */
  method EnsureDownloadTokens(t: Orm.Table<Order>, ids: seq<nat>, now: int, tokens: seq<string>, validityDays: int)
    requires Orm.IsRecordset(ids, t.rows) && |tokens| == |ids|
    modifies t
    ensures t.nextId == old(t.nextId) && t.rows.Keys == old(t.rows).Keys
    ensures forall i :: 0 <= i < |ids| ==> t.rows[ids[i]] == EnsureDownloadToken(old(t.rows)[ids[i]], now, tokens[i], validityDays)
    ensures forall k :: k in t.rows && k !in ids ==> t.rows[k] == old(t.rows)[k]
  {
    t.ApplyAt(ids, (i: nat, id: nat, o: Order) =>
      EnsureDownloadToken(o, now, if i < |tokens| then tokens[i] else "", validityDays));
  }

  // ---------------------------------------------------------------------------------------
  // _fotoapp_send_download_email

  /** The validity `_fotoapp_ensure_download_token` uses by default. */
  const DefaultValidityDays := 30

  /** Where the recipient is looked up: the `partner_email` of the order's transactions, oldest
      first, and the e-mails of the shipping, invoice and customer partners ("" when unset). */
  datatype Contacts = Contacts(txEmails: seq<string>, shipping: string, invoice: string, customer: string)

  /** Python's `a or b or ...` over strings: the first non-empty one, else "". */
  function FirstNonEmpty(xs: seq<string>): (r: string)
    ensures r == "" <==> forall i :: 0 <= i < |xs| ==> xs[i] == ""
    ensures r != "" ==> exists i :: 0 <= i < |xs| && xs[i] == r && forall j :: 0 <= j < i ==> xs[j] == ""
  {
    if xs == [] then ""
    else if xs[0] != "" then xs[0]
    else
      var r := FirstNonEmpty(xs[1..]);
      assert forall i :: 1 <= i < |xs| ==> xs[i] == xs[1..][i - 1];
      r
  }

  /** `tx_done[-1].partner_email`: the e-mail of the latest transaction that has one. */
  function LatestTxEmail(txEmails: seq<string>): (r: string)
    ensures r == "" <==> forall i :: 0 <= i < |txEmails| ==> txEmails[i] == ""
    ensures r != "" ==> exists i :: 0 <= i < |txEmails| && txEmails[i] == r && forall j :: i < j < |txEmails| ==> txEmails[j] == ""
  {
    if txEmails == [] then ""
    else if txEmails[|txEmails| - 1] != "" then txEmails[|txEmails| - 1]
    else
      var front := txEmails[..|txEmails| - 1];
      var r := LatestTxEmail(front);
      assert txEmails == front + [""];
      LatestPastEmpty(front, r);
      r
  }

  /** A transaction without an e-mail after the others leaves the latest e-mail as it was. */
  lemma LatestPastEmpty(front: seq<string>, r: string)
    requires r == "" <==> forall i :: 0 <= i < |front| ==> front[i] == ""
    requires r != "" ==> exists i :: 0 <= i < |front| && front[i] == r && forall j :: i < j < |front| ==> front[j] == ""
    ensures var xs := front + [""];
            && (r == "" <==> forall i :: 0 <= i < |xs| ==> xs[i] == "")
            && (r != "" ==> exists i :: 0 <= i < |xs| && xs[i] == r && forall j :: i < j < |xs| ==> xs[j] == "")
  {
    var xs := front + [""];
    if r != "" {
      var i :| 0 <= i < |front| && front[i] == r && forall j :: i < j < |front| ==> front[j] == "";
      assert xs[i] == r;
    }
  }

  /** `email_to`: the delivery e-mail, else the latest transaction's, else the shipping, invoice
      and customer partners' in that order; "" when there is none. */
  function Recipient(o: Order, c: Contacts): string {
    FirstNonEmpty([o.deliveryEmail, LatestTxEmail(c.txEmails), c.shipping, c.invoice, c.customer])
  }

  /** The order of precedence of the recipient, one candidate at a time. */
  lemma RecipientPrecedence(o: Order, c: Contacts)
    ensures o.deliveryEmail != "" ==> Recipient(o, c) == o.deliveryEmail
    ensures o.deliveryEmail == "" && LatestTxEmail(c.txEmails) != "" ==> Recipient(o, c) == LatestTxEmail(c.txEmails)
    ensures o.deliveryEmail == "" && LatestTxEmail(c.txEmails) == "" && c.shipping != "" ==> Recipient(o, c) == c.shipping
    ensures o.deliveryEmail == "" && LatestTxEmail(c.txEmails) == "" && c.shipping == "" && c.invoice != "" ==>
              Recipient(o, c) == c.invoice
    ensures o.deliveryEmail == "" && LatestTxEmail(c.txEmails) == "" && c.shipping == "" && c.invoice == "" ==>
              Recipient(o, c) == c.customer
  {
    var xs := [o.deliveryEmail, LatestTxEmail(c.txEmails), c.shipping, c.invoice, c.customer];
    var k := if xs[0] != "" then 0 else if xs[1] != "" then 1 else if xs[2] != "" then 2
             else if xs[3] != "" then 3 else 4;
    if xs[k] != "" {
      FirstNonEmptyAt(xs, k);
    }
  }

  /** A non-empty candidate preceded only by empty ones is the one chosen. */
  lemma FirstNonEmptyAt(xs: seq<string>, k: nat)
    requires k < |xs| && xs[k] != "" && forall j :: 0 <= j < k ==> xs[j] == ""
    ensures FirstNonEmpty(xs) == xs[k]
  {
    assert FirstNonEmpty(xs) != "";
    var i :| 0 <= i < |xs| && xs[i] == FirstNonEmpty(xs) && forall j :: 0 <= j < i ==> xs[j] == "";
    assert !(i < k) && !(k < i);
  }

  /** The result of the e-mail step for one order: the order as written and the address a mail
      went to, if one was sent. */
  datatype Delivery = Delivery(order: Order, mailTo: Option<string>)

  /** `_fotoapp_send_download_email` on one order: without a recipient nothing happens; otherwise
      the transaction's e-mail is remembered as delivery e-mail when none was set, the download
      token is ensured, and the mail goes out unless it was already sent for this token. */
  function SendDownloadEmail(o: Order, c: Contacts, now: int, token: string): (r: Delivery)
    ensures Recipient(o, c) == "" ==> r == Delivery(o, None)
    ensures r.mailTo.Some? ==> r.mailTo.value == Recipient(o, c) && r.mailTo.value != ""
    ensures r.mailTo.Some? <==> Recipient(o, c) != "" && !(o.emailSent && TokenLive(o, now))
    ensures Recipient(o, c) != "" ==> r.order.emailSent
  {
    var to := Recipient(o, c);
    if to == "" then Delivery(o, None)
    else
      var tx := LatestTxEmail(c.txEmails);
      var o1 := if o.deliveryEmail == "" && tx != "" then o.(deliveryEmail := tx) else o;
      var o2 := EnsureDownloadToken(o1, now, token, DefaultValidityDays);
      if o2.emailSent then Delivery(o2, None)
      else Delivery(o2.(emailSent := true), Some(to))
  }

  /** At most one mail per token: right after a run, a second run at the same moment sends
      nothing, whatever token it would draw. */
  lemma MailedAtMostOncePerToken(o: Order, c: Contacts, now: int, token: string, token2: string)
    requires token != ""
    ensures SendDownloadEmail(SendDownloadEmail(o, c, now, token).order, c, now, token2).mailTo.None?
  {
    var d := SendDownloadEmail(o, c, now, token);
    if Recipient(o, c) != "" {
      var tx := LatestTxEmail(c.txEmails);
      var o1 := if o.deliveryEmail == "" && tx != "" then o.(deliveryEmail := tx) else o;
      EnsuredTokenIsLive(o1, now, token, token2, DefaultValidityDays);
      assert TokenLive(d.order, now) && d.order.emailSent;
    }
  }

  /** An order with a recipient but no live token gets a new token, and the mail with it goes to
      the recipient. */
  lemma ExpiredTokenIsMailed(o: Order, c: Contacts, now: int, token: string)
    requires Recipient(o, c) != "" && !TokenLive(o, now)
    ensures var d := SendDownloadEmail(o, c, now, token);
      && d.mailTo == Some(Recipient(o, c))
      && d.order.downloadToken == token
      && d.order.tokenExpiresAt == Some(now + DefaultValidityDays * SecondsPerDay)
  {
  }

  /** The transaction's e-mail is kept as the delivery e-mail when none was set. */
  lemma DeliveryEmailRemembered(o: Order, c: Contacts, now: int, token: string)
    requires o.deliveryEmail == "" && LatestTxEmail(c.txEmails) != ""
    ensures SendDownloadEmail(o, c, now, token).order.deliveryEmail == LatestTxEmail(c.txEmails)
    ensures SendDownloadEmail(o, c, now, token).mailTo.Some? ==>
              SendDownloadEmail(o, c, now, token).mailTo.value == LatestTxEmail(c.txEmails)
  {
    RecipientPrecedence(o, c);
  }

  /** `_fotoapp_send_download_email` over a recordset: `contacts[i]` and `tokens[i]` belong to
      the `i`-th order, and `mailed[i]` is where its mail went, if anywhere. */
  method SendDownloadEmails(t: Orm.Table<Order>, ids: seq<nat>, contacts: seq<Contacts>, now: int, tokens: seq<string>)
    returns (mailed: seq<Option<string>>)
    requires Orm.IsRecordset(ids, t.rows) && |contacts| == |ids| && |tokens| == |ids|
    modifies t
    ensures t.nextId == old(t.nextId) && t.rows.Keys == old(t.rows).Keys && |mailed| == |ids|
    ensures forall i :: 0 <= i < |ids| ==>
              t.rows[ids[i]] == SendDownloadEmail(old(t.rows)[ids[i]], contacts[i], now, tokens[i]).order
              && mailed[i] == SendDownloadEmail(old(t.rows)[ids[i]], contacts[i], now, tokens[i]).mailTo
    ensures forall k :: k in t.rows && k !in ids ==> t.rows[k] == old(t.rows)[k]
  {
    mailed := t.ApplyCollect(ids, (j: nat, o: Order) =>
      var d := if j < |contacts| && j < |tokens| then SendDownloadEmail(o, contacts[j], now, tokens[j]) else Delivery(o, None);
      (d.order, d.mailTo));
  }
}
