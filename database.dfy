/**
 * The hosted document store behind `ctx.db`: three tables kept in
 * insertion order and an id allocator. Each method is one `ctx.db`
 * primitive (insert, delete, patch) on one table; the queries are the pure
 * functions of module Tables applied to the fields.
 */
module Database {
  import opened Schema
  import opened Tables

  class Db {
    var projects: seq<Project>
    var tasks: seq<Task>
    var messages: seq<Message>
    /** Every id below this one has been handed out; none at or above it. */
    var nextId: nat

    ghost predicate Valid()
      reads this
    {
      && (forall p :: p in projects ==> p.id < nextId)
      && (forall t :: t in tasks ==> t.id < nextId)
      && (forall m :: m in messages ==> m.id < nextId)
      && UniqueProjectIds(projects)
      && UniqueTaskIds(tasks)
      && UniqueMessageIds(messages)
    }

    constructor ()
      ensures Valid()
      ensures projects == [] && tasks == [] && messages == []
    {
      projects, tasks, messages := [], [], [];
      nextId := 0;
    }

    /** Hands out an id that no row of any table carries. */
    method FreshId() returns (id: nat)
      requires Valid()
      modifies this`nextId
      ensures Valid()
      ensures id == old(nextId) && nextId == id + 1
      ensures forall p :: p in projects ==> p.id != id
      ensures forall t :: t in tasks ==> t.id != id
      ensures forall m :: m in messages ==> m.id != id
    {
      id := nextId;
      nextId := nextId + 1;
    }

    /** `ctx.db.insert("projects", { name, description })`. */
    method InsertProject(name: string, description: string) returns (id: ProjectId)
      requires Valid()
      modifies this
      ensures Valid()
      ensures id == old(nextId) && nextId == old(nextId) + 1
      ensures forall p :: p in old(projects) ==> p.id != id
      ensures projects == old(projects) + [Project(id, name, description)]
      ensures tasks == old(tasks) && messages == old(messages)
    {
      id := FreshId();
      projects := projects + [Project(id, name, description)];
    }

    /** `ctx.db.delete(id)` on the projects table; a missing id deletes nothing. */
    method DeleteProject(id: ProjectId)
      requires Valid()
      modifies this`projects
      ensures Valid()
      ensures projects == WithoutProject(old(projects), id)
    {
      projects := WithoutProject(projects, id);
    }

    /** `ctx.db.insert("tasks", { projectId, title, status })`. */
    method InsertTask(projectId: ProjectId, title: string, status: Status) returns (id: TaskId)
      requires Valid()
      modifies this
      ensures Valid()
      ensures id == old(nextId) && nextId == old(nextId) + 1
      ensures forall t :: t in old(tasks) ==> t.id != id
      ensures tasks == old(tasks) + [Task(id, projectId, title, status)]
      ensures projects == old(projects) && messages == old(messages)
    {
      id := FreshId();
      tasks := tasks + [Task(id, projectId, title, status)];
    }

    /** `ctx.db.patch(id, { status })`; a missing id patches nothing. */
    method PatchTaskStatus(id: TaskId, status: Status)
      requires Valid()
      modifies this`tasks
      ensures Valid()
      ensures tasks == SetStatus(old(tasks), id, status)
    {
      SetStatusKeepsIds(tasks, id, status, nextId);
      tasks := SetStatus(tasks, id, status);
    }

    /** `ctx.db.delete(id)` on the tasks table; a missing id deletes nothing. */
    method DeleteTask(id: TaskId)
      requires Valid()
      modifies this`tasks
      ensures Valid()
      ensures tasks == Drop(old(tasks), {id})
    {
      tasks := Drop(tasks, {id});
    }

    /** `ctx.db.insert("messages", { projectId, role, text, isError })`. */
    method InsertMessage(projectId: ProjectId, role: Role, text: string, isError: Option<bool>)
      returns (id: MessageId)
      requires Valid()
      modifies this
      ensures Valid()
      ensures id == old(nextId) && nextId == old(nextId) + 1
      ensures forall m :: m in old(messages) ==> m.id != id
      ensures messages == old(messages) + [Message(id, projectId, role, text, isError)]
      ensures projects == old(projects) && tasks == old(tasks)
    {
      id := FreshId();
      messages := messages + [Message(id, projectId, role, text, isError)];
    }
  }
}
