/** Copying a template project's tasks into a new project (`_create_template_tasks` on
    `project.project`), with no limit on how many tasks are copied. */
module TemplateTasks {
  import opened Wrappers
  import Orm
  import Tasks

  /** The task created from template task `tpl` in project `project` at time `now`: the copied
      fields come from the template, the rest take their defaults. */
  function FromTemplate(tpl: Tasks.Task, project: nat, now: int): (r: Tasks.Task)
    ensures && r.name == tpl.name && r.description == tpl.description && r.userIds == tpl.userIds
            && r.tagIds == tpl.tagIds && r.priority == tpl.priority && r.stage == tpl.stage
            && r.kanbanState == tpl.kanbanState && r.deadline == tpl.deadline && r.sequence == tpl.sequence
    ensures r.project == project
    ensures r.milestone.None? && r.allocatedHours == 0.0 && r.effectiveHours == 0.0 && r.value == 0.0
            && r.state == Tasks.InProgress && r.lastStageUpdate == now && !r.bonusPaid
  {
    Tasks.Task(tpl.name, tpl.description, project, None, tpl.userIds, tpl.tagIds, tpl.priority, tpl.stage,
               tpl.kanbanState, tpl.deadline, tpl.sequence, 0.0, 0.0, 0.0, Tasks.InProgress, now, false)
  }

  /** `_create_template_tasks(project_id)` for the template tasks `template` (the template
      project's `template_task_ids`, in order): one new task per template task, in the same
      order; nothing when there are none. */
  method CreateTemplateTasks(tasks: Orm.Table<Tasks.Task>, template: seq<nat>, project: nat, now: int)
    returns (created: seq<nat>)
    requires tasks.Valid() && forall i :: 0 <= i < |template| ==> template[i] in tasks.rows
    modifies tasks
    ensures tasks.Valid() && |created| == |template|
    ensures Orm.IsRecordset(created, tasks.rows) && Orm.Extends(old(tasks.rows), tasks.rows)
    ensures tasks.rows.Keys == old(tasks.rows).Keys + Orm.Members(created)
    ensures forall i :: 0 <= i < |template| ==>
      created[i] !in old(tasks.rows) && tasks.rows[created[i]] == FromTemplate(old(tasks.rows)[template[i]], project, now)
    ensures template == [] ==> tasks.rows == old(tasks.rows)
  {
    if template == [] {
      return [];
    }
    var rows := tasks.rows;
    var values := seq(|template|, i requires 0 <= i < |template| => rows[template[i]]);
    created := tasks.CreateEach(values, (tpl: Tasks.Task, id: nat) => FromTemplate(tpl, project, now));
  }
}
