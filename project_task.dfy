/** Project tasks (`project.task`) as the project addons read and write them: the hours that
    drive a milestone's progress, the value and closing data that drive the objective bonus,
    and the fields a template task passes on to the tasks created from it. */
module Tasks {
  import opened Wrappers

  /** The task's `state`: `01_in_progress`, `02_changes_requested`, `03_approved`,
      `04_waiting_normal`, `1_done`, `1_canceled`. */
  datatype TaskState = InProgress | ChangesRequested | Approved | Waiting | Done | Canceled

  /** One task. Datetimes (`date_deadline`, `date_last_stage_update`) are seconds. */
  datatype Task = Task(
    name: string,
    description: string,
    project: nat,
    milestone: Option<nat>,
    userIds: seq<nat>,
    tagIds: seq<nat>,
    priority: string,
    stage: Option<nat>,
    kanbanState: string,
    deadline: Option<int>,
    sequence: int,
    allocatedHours: real,
    effectiveHours: real,
    value: real,
    state: TaskState,
    lastStageUpdate: int,
    bonusPaid: bool)

  /** The tasks of `order` that belong to the milestone `m` (its `task_ids`), in that order. */
  function MilestoneTasks(tasks: map<nat, Task>, order: seq<nat>, m: nat): (r: seq<Task>)
    ensures |r| <= |order|
    ensures forall t :: t in r <==> exists k :: k in order && k in tasks && tasks[k].milestone == Some(m) && t == tasks[k]
  {
    if order == [] then []
    else
      var n := |order| - 1;
      var rest := MilestoneTasks(tasks, order[..n], m);
      assert forall k :: k in order[..n] <==> k in order && (k != order[n] || order[n] in order[..n]);
      if order[n] in tasks && tasks[order[n]].milestone == Some(m) then rest + [tasks[order[n]]] else rest
  }
}
