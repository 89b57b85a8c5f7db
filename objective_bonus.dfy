/** The objective bonus of the second project-bonuses addon (`_compute_bonus_status` on
    `project.milestone`): the objective is worth the sum of its tasks' values and qualifies for
    the bonus when every task is closed no later than the planned start. */
module ObjectiveBonus {
  import opened Wrappers
  import Arith
  import Tasks

  /** `x_bonus_status`: `pending`, `qualified`, `failed`. */
  datatype ObjectiveStatus = Pending | Qualified | Failed

  /** The three computed fields: `x_total_objective_value`, `x_bonus_status`,
      `x_total_bonus_payout`. */
  datatype Bonus = Bonus(total: real, status: ObjectiveStatus, payout: real)

  function Values(ts: seq<Tasks.Task>): (r: seq<real>)
    ensures |r| == |ts| && forall i :: 0 <= i < |ts| ==> r[i] == ts[i].value
  {
    seq(|ts|, i requires 0 <= i < |ts| => ts[i].value)
  }

  /** A task is closed when it is done or cancelled. */
  predicate Closed(t: Tasks.Task) {
    t.state == Tasks.Done || t.state == Tasks.Canceled
  }

  /** The latest `date_last_stage_update` of the tasks. */
  function LastUpdate(ts: seq<Tasks.Task>): (r: int)
    requires ts != []
    ensures forall i :: 0 <= i < |ts| ==> ts[i].lastStageUpdate <= r
    ensures exists i :: 0 <= i < |ts| && ts[i].lastStageUpdate == r
  {
    if |ts| == 1 then ts[0].lastStageUpdate
    else
      var rest := LastUpdate(ts[1..]);
      assert forall i :: 1 <= i < |ts| ==> ts[i] == ts[1..][i - 1];
      Arith.Max(ts[0].lastStageUpdate, rest)
  }

  /** The objective's bonus for its tasks `ts`, its planned start and its percentage. */
  function BonusOf(ts: seq<Tasks.Task>, plannedStart: Option<int>, pct: real): (r: Bonus)
    ensures r.total == Arith.Sum(Values(ts))
    ensures ts == [] || plannedStart.None? ==> r.status == Pending
    ensures ts != [] && plannedStart.Some? ==>
      (r.status == Pending <==> exists i :: 0 <= i < |ts| && !Closed(ts[i]))
    ensures r.status == Qualified <==>
      && ts != [] && plannedStart.Some?
      && (forall i :: 0 <= i < |ts| ==> Closed(ts[i]))
      && (forall i :: 0 <= i < |ts| ==> ts[i].lastStageUpdate <= plannedStart.value)
    ensures r.status == Qualified ==> r.payout == r.total * (pct / 100.0)
    ensures r.status != Qualified ==> r.payout == 0.0
  {
    var total := Arith.Sum(Values(ts));
    if ts == [] || plannedStart.None? then Bonus(total, Pending, 0.0)
    else if !(forall i :: 0 <= i < |ts| ==> Closed(ts[i])) then Bonus(total, Pending, 0.0)
    else if LastUpdate(ts) <= plannedStart.value then Bonus(total, Qualified, total * (pct / 100.0))
    else Bonus(total, Failed, 0.0)
  }

  /** A payout is owed only for a qualified objective. */
  lemma PayoutOnlyWhenQualified(ts: seq<Tasks.Task>, plannedStart: Option<int>, pct: real)
    ensures BonusOf(ts, plannedStart, pct).payout != 0.0 ==> BonusOf(ts, plannedStart, pct).status == Qualified
  {
  }

  /** An objective with every task closed fails exactly when some task was closed after the
      planned start. */
  lemma FailedIffLateTask(ts: seq<Tasks.Task>, start: int, pct: real)
    requires ts != [] && forall i :: 0 <= i < |ts| ==> Closed(ts[i])
    ensures BonusOf(ts, Some(start), pct).status == Failed <==>
      exists i :: 0 <= i < |ts| && ts[i].lastStageUpdate > start
  {
  }
}
