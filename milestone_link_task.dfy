/** The wizard that links tasks to a milestone (`project.milestone.link.task`): the warning it
    shows for tasks already under another milestone, and the link it writes. */
module MilestoneLinkWizard {
  import opened Wrappers
  import Orm
  import Tasks

  const WarningHeader :=
    "<p class='text-warning'><strong>¡Atención!</strong> Las siguientes tareas ya están asignadas a otro objetivo y serán movidas:</p><ul>"
  const WarningFooter := "</ul>"

  /** The list item for one task and the name of its current milestone. */
  function Entry(taskName: string, milestoneName: string): string {
    "<li>" + taskName + " (Objetivo actual: " + milestoneName + ")</li>"
  }

  /** The selected tasks that already have a milestone, in the selection's order. */
  function AlreadyLinked(tasks: map<nat, Tasks.Task>, ids: seq<nat>): (r: seq<nat>)
    requires forall i :: 0 <= i < |ids| ==> ids[i] in tasks
    ensures |r| <= |ids| && forall i :: 0 <= i < |r| ==> r[i] in tasks
    ensures forall k :: k in r <==> k in ids && tasks[k].milestone.Some?
  {
    Orm.Filter(ids, tasks, (t: Tasks.Task) => t.milestone.Some?)
  }

  /** The name of the task's milestone as the f-string prints it (`False` for none). */
  function MilestoneName(t: Tasks.Task, names: map<nat, string>): string {
    if t.milestone.Some? && t.milestone.value in names then names[t.milestone.value] else "False"
  }

  /** The list items for the tasks `linked`, one per task, in their order. */
  function Entries(tasks: map<nat, Tasks.Task>, names: map<nat, string>, linked: seq<nat>): (r: string)
    requires forall i :: 0 <= i < |linked| ==> linked[i] in tasks
  {
    if linked == [] then ""
    else
      var n := |linked| - 1;
      var t := tasks[linked[n]];
      Entries(tasks, names, linked[..n]) + Entry(t.name, MilestoneName(t, names))
  }

  /** The warning for the selection `ids`: empty, or the header, one item per task that already
      has a milestone, and the footer. */
  function Warning(tasks: map<nat, Tasks.Task>, names: map<nat, string>, ids: seq<nat>): string
    requires forall i :: 0 <= i < |ids| ==> ids[i] in tasks
  {
    var linked := AlreadyLinked(tasks, ids);
    if linked == [] then "" else WarningHeader + Entries(tasks, names, linked) + WarningFooter
  }

  lemma AppendAssociates(a: string, b: string, c: string)
    ensures (a + b) + c == a + (b + c)
  {
  }

  /** Appending the next item to a message that ends with the first `i` items. */
  lemma EntriesStep(head: string, tasks: map<nat, Tasks.Task>, names: map<nat, string>, linked: seq<nat>, i: nat)
    requires i < |linked| && forall j :: 0 <= j < |linked| ==> linked[j] in tasks
    ensures var t := tasks[linked[i]];
      head + Entries(tasks, names, linked[..i + 1]) == head + Entries(tasks, names, linked[..i]) + Entry(t.name, MilestoneName(t, names))
  {
    assert linked[..i + 1][..i] == linked[..i];
    var t := tasks[linked[i]];
    AppendAssociates(head, Entries(tasks, names, linked[..i]), Entry(t.name, MilestoneName(t, names)));
  }

  /** `_compute_warning_message`: the message built item by item. */
  method ComputeWarning(tasks: map<nat, Tasks.Task>, names: map<nat, string>, ids: seq<nat>) returns (msg: string)
    requires forall i :: 0 <= i < |ids| ==> ids[i] in tasks
    ensures msg == Warning(tasks, names, ids)
  {
    msg := "";
    var linked := AlreadyLinked(tasks, ids);
    if linked != [] {
      msg := AppendEntries(WarningHeader, tasks, names, linked);
      msg := msg + WarningFooter;
    }
  }

  /** The loop of `_compute_warning_message`: one item per task appended to `head`. */
  method AppendEntries(head: string, tasks: map<nat, Tasks.Task>, names: map<nat, string>, linked: seq<nat>)
    returns (msg: string)
    requires forall i :: 0 <= i < |linked| ==> linked[i] in tasks
    ensures msg == head + Entries(tasks, names, linked)
  {
    msg := head;
    var i := 0;
    while i < |linked|
      invariant 0 <= i <= |linked|
      invariant msg == head + Entries(tasks, names, linked[..i])
    {
      var t := tasks[linked[i]];
      var entry := Entry(t.name, MilestoneName(t, names));
      EntriesStep(head, tasks, names, linked, i);
      msg := msg + entry;
      i := i + 1;
    }
    assert linked[..i] == linked;
  }

  /** The warning is empty exactly when no selected task has a milestone yet. */
  lemma WarningEmptyIff(tasks: map<nat, Tasks.Task>, names: map<nat, string>, ids: seq<nat>)
    requires forall i :: 0 <= i < |ids| ==> ids[i] in tasks
    ensures Warning(tasks, names, ids) == "" <==> forall i :: 0 <= i < |ids| ==> tasks[ids[i]].milestone.None?
  {
    var linked := AlreadyLinked(tasks, ids);
    if linked != [] {
      assert |WarningHeader + Entries(tasks, names, linked) + WarningFooter| > 0;
      assert linked[0] in linked;
    } else {
      forall i | 0 <= i < |ids|
        ensures tasks[ids[i]].milestone.None?
      {
        assert ids[i] !in linked;
      }
    }
  }

  /** The items are the entries of the already-linked tasks, one each, in the selection's
      order. */
  lemma {:induction false} EntriesOnePerTask(tasks: map<nat, Tasks.Task>, names: map<nat, string>, linked: seq<nat>)
    requires forall i :: 0 <= i < |linked| ==> linked[i] in tasks
    ensures Entries(tasks, names, linked) == ConcatEntries(tasks, names, linked, 0)
    decreases |linked|
  {
    if linked != [] {
      var n := |linked| - 1;
      EntriesOnePerTask(tasks, names, linked[..n]);
      ConcatEntriesSnoc(tasks, names, linked, 0);
    }
  }

  /** The entries of `linked[from..]`, concatenated from the front. */
  function ConcatEntries(tasks: map<nat, Tasks.Task>, names: map<nat, string>, linked: seq<nat>, from: nat): string
    requires forall i :: 0 <= i < |linked| ==> linked[i] in tasks
    decreases |linked| - from
  {
    if from >= |linked| then ""
    else
      var t := tasks[linked[from]];
      Entry(t.name, MilestoneName(t, names)) + ConcatEntries(tasks, names, linked, from + 1)
  }

  lemma {:induction false} ConcatEntriesSnoc(tasks: map<nat, Tasks.Task>, names: map<nat, string>, linked: seq<nat>, from: nat)
    requires forall i :: 0 <= i < |linked| ==> linked[i] in tasks
    requires from < |linked|
    ensures var n := |linked| - 1; var t := tasks[linked[n]];
      ConcatEntries(tasks, names, linked, from) == ConcatEntries(tasks, names, linked[..n], from) + Entry(t.name, MilestoneName(t, names))
    decreases |linked| - from
  {
    if from + 1 < |linked| {
      ConcatEntriesSnoc(tasks, names, linked, from + 1);
    }
  }

  /** `action_link_tasks`: with tasks selected, each of them is moved to the wizard's
      milestone; with none, nothing is written. */
  method LinkTasks(tasks: Orm.Table<Tasks.Task>, ids: seq<nat>, milestone: nat)
    requires Orm.IsRecordset(ids, tasks.rows)
    modifies tasks
    ensures tasks.nextId == old(tasks.nextId)
    ensures ids == [] ==> tasks.rows == old(tasks.rows)
    ensures tasks.rows == Orm.Updated(old(tasks.rows), (set k | k in ids), (t: Tasks.Task) => t.(milestone := Some(milestone)))
  {
    if ids != [] {
      tasks.ApplyEach(ids, (t: Tasks.Task) => t.(milestone := Some(milestone)));
    } else {
      assert (set k | k in ids) == {};
    }
  }

  /** After linking, every selected task is under the wizard's milestone and keeps its other
      fields, and every other task is untouched. */
  lemma LinkedTasksMoved(rows: map<nat, Tasks.Task>, ids: seq<nat>, milestone: nat)
    requires Orm.IsRecordset(ids, rows)
    ensures var after := Orm.Updated(rows, (set k | k in ids), (t: Tasks.Task) => t.(milestone := Some(milestone)));
      && (forall i :: 0 <= i < |ids| ==>
            after[ids[i]].milestone == Some(milestone) && after[ids[i]].(milestone := rows[ids[i]].milestone) == rows[ids[i]])
      && (forall k :: k in rows && k !in ids ==> after[k] == rows[k])
  {
  }
}
