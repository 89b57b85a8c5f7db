/** The task side of the objective bonus (`project.task` in the second project-bonuses addon):
    each task's share of the bonus and the paid flag the team toggles. */
module TaskBonus {
  import opened Wrappers
  import Arith
  import Orm
  import Tasks
  import ObjectiveBonus

  /** `_compute_individual_payout`: the task's value times its objective's percentage when the
      objective qualifies, else nothing. */
  function IndividualPayout(t: Tasks.Task, status: ObjectiveBonus.ObjectiveStatus, pct: real): (r: real)
    ensures status == ObjectiveBonus.Qualified ==> r == t.value * (pct / 100.0)
    ensures status != ObjectiveBonus.Qualified ==> r == 0.0
  {
    if status == ObjectiveBonus.Qualified then t.value * (pct / 100.0) else 0.0
  }

  function Payouts(ts: seq<Tasks.Task>, status: ObjectiveBonus.ObjectiveStatus, pct: real): (r: seq<real>)
    ensures |r| == |ts| && forall i :: 0 <= i < |ts| ==> r[i] == IndividualPayout(ts[i], status, pct)
  {
    seq(|ts|, i requires 0 <= i < |ts| => IndividualPayout(ts[i], status, pct))
  }

  /** Summing the individual payouts of tasks under one objective status. */
  lemma SumOfPayouts(ts: seq<Tasks.Task>, status: ObjectiveBonus.ObjectiveStatus, pct: real)
    ensures Arith.Sum(Payouts(ts, status, pct)) ==
      (if status == ObjectiveBonus.Qualified then Arith.Sum(ObjectiveBonus.Values(ts)) * (pct / 100.0) else 0.0)
  {
    var k := if status == ObjectiveBonus.Qualified then pct / 100.0 else 0.0;
    Arith.SumScaled(ObjectiveBonus.Values(ts), k, Payouts(ts, status, pct));
  }

  /** The tasks' individual payouts add up to the objective's payout. */
  lemma PayoutsAddUp(ts: seq<Tasks.Task>, plannedStart: Option<int>, pct: real)
    ensures var b := ObjectiveBonus.BonusOf(ts, plannedStart, pct);
      Arith.Sum(Payouts(ts, b.status, pct)) == b.payout
  {
    var b := ObjectiveBonus.BonusOf(ts, plannedStart, pct);
    SumOfPayouts(ts, b.status, pct);
  }

  function Toggled(t: Tasks.Task): (r: Tasks.Task)
    ensures r.bonusPaid == !t.bonusPaid && r.(bonusPaid := t.bonusPaid) == t
  {
    t.(bonusPaid := !t.bonusPaid)
  }

  /** `action_toggle_bonus_paid`: every task of the set has its paid flag flipped. */
  method ToggleBonusPaid(tasks: Orm.Table<Tasks.Task>, ids: seq<nat>)
    requires Orm.IsRecordset(ids, tasks.rows)
    modifies tasks
    ensures tasks.nextId == old(tasks.nextId)
    ensures tasks.rows == Orm.Updated(old(tasks.rows), (set k | k in ids), Toggled)
  {
    tasks.ApplyEach(ids, Toggled);
  }

  /** Toggling the same tasks twice restores every flag. */
  lemma ToggleTwiceRestores(rows: map<nat, Tasks.Task>, ids: set<nat>)
    ensures Orm.Updated(Orm.Updated(rows, ids, Toggled), ids, Toggled) == rows
  {
    var twice := Orm.Updated(Orm.Updated(rows, ids, Toggled), ids, Toggled);
    forall k | k in rows
      ensures twice[k] == rows[k]
    {
      if k in ids {
        assert Toggled(Toggled(rows[k])) == rows[k];
      }
    }
  }
}
