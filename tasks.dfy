/** The query and mutation handlers of convex/tasks.ts. */
module Tasks {
  import opened Schema
  import opened Tables
  import opened Database

  /** `list`: nothing without a project id, otherwise that project's tasks in table order. */
  method List(db: Db, projectId: Option<ProjectId>) returns (r: seq<Task>)
    ensures projectId.None? ==> r == []
    ensures projectId.Some? ==> r == TasksOf(db.tasks, projectId.value)
  {
    if projectId.None? {
      return [];
    }
    r := TasksOf(db.tasks, projectId.value);
  }

  /**
   * `create`: inserts one task; an omitted status is stored as TODO. The
   * project id is not checked against the projects table.
   */
  method Create(db: Db, projectId: ProjectId, title: string, status: Option<Status>) returns (id: TaskId)
    requires db.Valid()
    modifies db
    ensures db.Valid()
    ensures id == old(db.nextId) && db.nextId == old(db.nextId) + 1
    ensures forall t :: t in old(db.tasks) ==> t.id != id
    ensures status.None? ==> db.tasks == old(db.tasks) + [Task(id, projectId, title, Todo)]
    ensures status.Some? ==> db.tasks == old(db.tasks) + [Task(id, projectId, title, status.value)]
    ensures db.projects == old(db.projects) && db.messages == old(db.messages)
  {
    var stored := if status.Some? then status.value else Todo;
    id := db.InsertTask(projectId, title, stored);
  }

  /** `updateStatus`: patches the status of the task with this id and nothing else. */
  method UpdateStatus(db: Db, id: TaskId, status: Status)
    requires db.Valid()
    modifies db
    ensures db.Valid()
    ensures db.tasks == SetStatus(old(db.tasks), id, status)
    ensures db.projects == old(db.projects) && db.messages == old(db.messages)
    ensures db.nextId == old(db.nextId)
  {
    db.PatchTaskStatus(id, status);
  }

  /** `remove`: deletes the task with this id and no other row. */
  method Remove(db: Db, id: TaskId)
    requires db.Valid()
    modifies db
    ensures db.Valid()
    ensures db.tasks == Drop(old(db.tasks), {id})
    ensures db.projects == old(db.projects) && db.messages == old(db.messages)
    ensures db.nextId == old(db.nextId)
  {
    db.DeleteTask(id);
  }
}
