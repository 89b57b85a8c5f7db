/** Milestone payments (`project.milestone` in the project-bonuses addon): the start payment that
    becomes due at a progress threshold, the early-completion bonus, and the rule that a status
    marked paid is never recomputed. Dates are calendar dates; `today` is a parameter. */
module Milestones {
  import opened Wrappers
  import Dates
  import Arith
  import Orm
  import Tasks

  /** `payment_status`: `draft`, `to_pay`, `paid`. */
  datatype PaymentStatus = Draft | ToPay | Paid

  /** `bonus_payment_status`: `draft`, `to_pay`, `paid`, `not_eligible`. */
  datatype BonusStatus = BonusDraft | BonusToPay | BonusPaid | NotEligible

  /** One milestone. `plannedHours`, `effectiveHours` and `progress` are the stored results of
      `_compute_hours_and_progress`. */
  datatype Milestone = Milestone(
    amount: real,
    bonusPercentage: real,
    requiredProgress: real,
    isReached: bool,
    deadline: Option<Dates.Date>,
    plannedStart: Option<Dates.Date>,
    plannedEnd: Option<Dates.Date>,
    paymentStatus: PaymentStatus,
    bonusStatus: BonusStatus,
    plannedHours: real,
    effectiveHours: real,
    progress: real)

  /** `_compute_bonus_amount`: the bonus is `bonus_percentage` percent of the milestone amount. */
  function BonusAmount(m: Milestone): (r: real)
    ensures r * 100.0 == m.amount * m.bonusPercentage
  {
    m.amount * (m.bonusPercentage / 100.0)
  }

  /** `_compute_total_cost`: the amount, plus the bonus once the bonus is paid. */
  function TotalCost(m: Milestone): (r: real)
    ensures m.bonusStatus == BonusPaid ==> r - m.amount == BonusAmount(m)
    ensures m.bonusStatus != BonusPaid ==> r == m.amount
  {
    if m.bonusStatus == BonusPaid then m.amount + BonusAmount(m) else m.amount
  }

  /** The progress percentage: effective over planned hours, 0 when nothing is planned. */
  function Progress(planned: real, effective: real): (r: real)
    ensures planned > 0.0 ==> r * planned == effective * 100.0
    ensures planned <= 0.0 ==> r == 0.0
  {
    if planned > 0.0 then (effective / planned) * 100.0 else 0.0
  }

  /** With hours planned, the progress reaches 100 exactly when the effective hours reach the
      planned ones. */
  lemma FullProgressIffHoursSpent(planned: real, effective: real)
    requires planned > 0.0
    ensures Progress(planned, effective) >= 100.0 <==> effective >= planned
  {
    var p := Progress(planned, effective);
    if p >= 100.0 {
      assert p * planned >= 100.0 * planned;
    }
    if effective >= planned {
      if p < 100.0 {
        assert p * planned < 100.0 * planned;
      }
    }
  }

  /** The start-payment rule: a paid status stays paid; otherwise the payment is due exactly
      when the progress reaches the required percentage. */
  function StartStatus(status: PaymentStatus, progress: real, required: real): (r: PaymentStatus)
    ensures status == Paid ==> r == Paid
    ensures status != Paid ==> r != Paid && (r == ToPay <==> progress >= required)
  {
    if status != Paid then (if progress >= required then ToPay else Draft) else status
  }

  /** Re-evaluating the start payment twice gives what re-evaluating once gives. */
  lemma StartStatusIdempotent(status: PaymentStatus, progress: real, required: real)
    ensures StartStatus(StartStatus(status, progress, required), progress, required)
         == StartStatus(status, progress, required)
  {
  }

  function AllocatedHours(ts: seq<Tasks.Task>): (r: seq<real>)
    ensures |r| == |ts| && forall i :: 0 <= i < |ts| ==> r[i] == ts[i].allocatedHours
  {
    seq(|ts|, i requires 0 <= i < |ts| => ts[i].allocatedHours)
  }

  function SpentHours(ts: seq<Tasks.Task>): (r: seq<real>)
    ensures |r| == |ts| && forall i :: 0 <= i < |ts| ==> r[i] == ts[i].effectiveHours
  {
    seq(|ts|, i requires 0 <= i < |ts| => ts[i].effectiveHours)
  }

  /** One milestone after `_compute_hours_and_progress` over its tasks `ts`: the hour totals,
      the progress, and the start payment re-evaluated against it. */
  function Recomputed(m: Milestone, ts: seq<Tasks.Task>): (r: Milestone)
    ensures r.plannedHours == Arith.Sum(AllocatedHours(ts)) && r.effectiveHours == Arith.Sum(SpentHours(ts))
    ensures r.progress == Progress(r.plannedHours, r.effectiveHours)
    ensures r.paymentStatus == StartStatus(m.paymentStatus, r.progress, m.requiredProgress)
    ensures r.(plannedHours := m.plannedHours, effectiveHours := m.effectiveHours, progress := m.progress,
               paymentStatus := m.paymentStatus) == m
  {
    var planned := Arith.Sum(AllocatedHours(ts));
    var effective := Arith.Sum(SpentHours(ts));
    var progress := Progress(planned, effective);
    m.(plannedHours := planned, effectiveHours := effective, progress := progress,
       paymentStatus := StartStatus(m.paymentStatus, progress, m.requiredProgress))
  }

  /** `_compute_hours_and_progress` on the milestones `ids`; `order` lists the tasks in their
      default order. */
  method ComputeHoursAndProgress(milestones: Orm.Table<Milestone>, ids: seq<nat>,
                                 tasks: map<nat, Tasks.Task>, order: seq<nat>)
    requires Orm.IsRecordset(ids, milestones.rows)
    modifies milestones
    ensures milestones.nextId == old(milestones.nextId) && milestones.rows.Keys == old(milestones.rows).Keys
    ensures forall i :: 0 <= i < |ids| ==>
      milestones.rows[ids[i]] == Recomputed(old(milestones.rows)[ids[i]], Tasks.MilestoneTasks(tasks, order, ids[i]))
    ensures forall k :: k in milestones.rows && k !in ids ==> milestones.rows[k] == old(milestones.rows)[k]
  {
    milestones.ApplyAt(ids, (i: nat, id: nat, m: Milestone) => Recomputed(m, Tasks.MilestoneTasks(tasks, order, id)));
  }

  /** The early-completion bonus rule: a paid bonus stays paid; a reached milestone earns it
      when it was completed (its deadline, or today) on or before the planned end, and is out
      of time otherwise; a milestone not reached goes back to draft. */
  function BonusStatusAfter(status: BonusStatus, isReached: bool, deadline: Option<Dates.Date>,
                            plannedEnd: Option<Dates.Date>, today: Dates.Date): (r: BonusStatus)
    ensures status == BonusPaid ==> r == BonusPaid
    ensures status != BonusPaid ==>
      var completion := if deadline.Some? then deadline.value else today;
      && (r == BonusToPay <==> isReached && plannedEnd.Some? && Dates.Le(completion, plannedEnd.value))
      && (r == NotEligible <==> isReached && !(plannedEnd.Some? && Dates.Le(completion, plannedEnd.value)))
      && (r == BonusDraft <==> !isReached)
  {
    if isReached then
      var completion := if deadline.Some? then deadline.value else today;
      if plannedEnd.Some? && Dates.Le(completion, plannedEnd.value) then
        (if status != BonusPaid then BonusToPay else status)
      else
        (if status != BonusPaid then NotEligible else status)
    else
      (if status != BonusPaid then BonusDraft else status)
  }

  /** The values of a `write`: `None` for a field not written. */
  datatype MilestoneVals = MilestoneVals(
    amount: Option<real>,
    bonusPercentage: Option<real>,
    requiredProgress: Option<real>,
    isReached: Option<bool>,
    deadline: Option<Option<Dates.Date>>,
    plannedStart: Option<Option<Dates.Date>>,
    plannedEnd: Option<Option<Dates.Date>>,
    paymentStatus: Option<PaymentStatus>,
    bonusStatus: Option<BonusStatus>)

  function Pick<T>(v: Option<T>, old_: T): T {
    if v.Some? then v.value else old_
  }

  /** The plain write of `vals` (`super().write(vals)`). */
  function Written(m: Milestone, v: MilestoneVals): Milestone {
    m.(amount := Pick(v.amount, m.amount),
       bonusPercentage := Pick(v.bonusPercentage, m.bonusPercentage),
       requiredProgress := Pick(v.requiredProgress, m.requiredProgress),
       isReached := Pick(v.isReached, m.isReached),
       deadline := Pick(v.deadline, m.deadline),
       plannedStart := Pick(v.plannedStart, m.plannedStart),
       plannedEnd := Pick(v.plannedEnd, m.plannedEnd),
       paymentStatus := Pick(v.paymentStatus, m.paymentStatus),
       bonusStatus := Pick(v.bonusStatus, m.bonusStatus))
  }

  /** The bonus is re-evaluated when the write touches `is_reached`, `deadline` or a planned
      date. */
  predicate TouchesBonus(v: MilestoneVals) {
    v.isReached.Some? || v.deadline.Some? || v.plannedStart.Some? || v.plannedEnd.Some?
  }

  /** One milestone after the overridden `write`: the values are written, then the start payment
      is re-evaluated when the required percentage was written, and the bonus when a field it
      depends on was written. */
  function Rewritten(m: Milestone, v: MilestoneVals, today: Dates.Date): (r: Milestone)
    ensures var w := Written(m, v);
      && r.(paymentStatus := w.paymentStatus, bonusStatus := w.bonusStatus) == w
      && r.paymentStatus == (if v.requiredProgress.Some? then StartStatus(w.paymentStatus, w.progress, w.requiredProgress)
                             else w.paymentStatus)
      && r.bonusStatus == (if TouchesBonus(v) then BonusStatusAfter(w.bonusStatus, w.isReached, w.deadline, w.plannedEnd, today)
                           else w.bonusStatus)
  {
    var w := Written(m, v);
    var afterStart := if v.requiredProgress.Some? then
        w.(paymentStatus := StartStatus(w.paymentStatus, w.progress, w.requiredProgress))
      else w;
    if TouchesBonus(v) then
      afterStart.(bonusStatus := BonusStatusAfter(afterStart.bonusStatus, afterStart.isReached, afterStart.deadline,
                                                  afterStart.plannedEnd, today))
    else afterStart
  }

  /** Neither re-evaluation touches a paid status unless the write itself sets the status. */
  lemma PaidStatusesAreFinal(m: Milestone, v: MilestoneVals, today: Dates.Date, ts: seq<Tasks.Task>)
    ensures m.paymentStatus == Paid && v.paymentStatus.None? ==> Rewritten(m, v, today).paymentStatus == Paid
    ensures m.bonusStatus == BonusPaid && v.bonusStatus.None? ==> Rewritten(m, v, today).bonusStatus == BonusPaid
    ensures m.paymentStatus == Paid ==> Recomputed(m, ts).paymentStatus == Paid
  {
  }

  /** Writing the same values twice on the same day gives what writing them once gives. */
  lemma RewriteIdempotent(m: Milestone, v: MilestoneVals, today: Dates.Date)
    ensures Rewritten(Rewritten(m, v, today), v, today) == Rewritten(m, v, today)
  {
    var r := Rewritten(m, v, today);
    assert Written(r, v).(paymentStatus := r.paymentStatus, bonusStatus := r.bonusStatus) == r;
  }

  /** `write` on the milestones `ids`. */
  method Write(milestones: Orm.Table<Milestone>, ids: seq<nat>, v: MilestoneVals, today: Dates.Date)
    requires Orm.IsRecordset(ids, milestones.rows)
    modifies milestones
    ensures milestones.nextId == old(milestones.nextId)
    ensures milestones.rows == Orm.Updated(old(milestones.rows), (set k | k in ids), m => Rewritten(m, v, today))
  {
    milestones.ApplyEach(ids, m => Rewritten(m, v, today));
  }

  /** `action_mark_start_payment_paid` on one milestone. */
  method MarkStartPaymentPaid(milestones: Orm.Table<Milestone>, id: nat)
    requires id in milestones.rows
    modifies milestones
    ensures milestones.nextId == old(milestones.nextId)
    ensures milestones.rows == old(milestones.rows)[id := old(milestones.rows)[id].(paymentStatus := Paid)]
  {
    milestones.rows := milestones.rows[id := milestones.rows[id].(paymentStatus := Paid)];
  }

  /** `action_mark_bonus_payment_paid` on one milestone. */
  method MarkBonusPaymentPaid(milestones: Orm.Table<Milestone>, id: nat)
    requires id in milestones.rows
    modifies milestones
    ensures milestones.nextId == old(milestones.nextId)
    ensures milestones.rows == old(milestones.rows)[id := old(milestones.rows)[id].(bonusStatus := BonusPaid)]
  {
    milestones.rows := milestones.rows[id := milestones.rows[id].(bonusStatus := BonusPaid)];
  }

  /** Marking the bonus paid adds the bonus to the milestone's cost, once. */
  lemma MarkingBonusPaidAddsBonus(m: Milestone)
    ensures var p := m.(bonusStatus := BonusPaid);
      TotalCost(p) == m.amount + BonusAmount(m)
      && (m.bonusStatus != BonusPaid ==> TotalCost(p) - TotalCost(m) == BonusAmount(m))
  {
  }

  /** The start-payment scenario: 10 hours planned; 0.5 hours spent is 5% and stays draft
      under a 10% requirement, 1 hour spent is 10% and makes the payment due. */
  lemma StartPaymentScenario(m: Milestone, t: Tasks.Task)
    requires m.paymentStatus == Draft && m.requiredProgress == 10.0 && t.allocatedHours == 10.0
    ensures var low := Recomputed(m, [t.(effectiveHours := 0.5)]);
      low.progress == 5.0 && low.paymentStatus == Draft
    ensures var high := Recomputed(m, [t.(effectiveHours := 1.0)]);
      high.progress == 10.0 && high.paymentStatus == ToPay
  {
    var lowTasks, highTasks := [t.(effectiveHours := 0.5)], [t.(effectiveHours := 1.0)];
    assert AllocatedHours(lowTasks)[..0] == [] && SpentHours(lowTasks)[..0] == [];
    assert AllocatedHours(highTasks)[..0] == [] && SpentHours(highTasks)[..0] == [];
    assert Arith.Sum(AllocatedHours(lowTasks)) == 10.0 && Arith.Sum(SpentHours(lowTasks)) == 0.5;
    assert Arith.Sum(AllocatedHours(highTasks)) == 10.0 && Arith.Sum(SpentHours(highTasks)) == 1.0;
  }
}
