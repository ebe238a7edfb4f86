/**
 * The documents of the three tables declared in convex/schema.ts, with the
 * field shapes of types.ts. Document ids are opaque in Convex; here
 * they are natural numbers handed out by the store (see Database.Db), and
 * `_creationTime` is replaced by the order of rows in their table.
 */
module Schema {

  datatype Option<+T> = None | Some(value: T)

  type ProjectId = nat
  type TaskId = nat
  type MessageId = nat

  /** The three literals of the `status` union; no other value can be stored. */
  datatype Status = Todo | InProgress | Done

  /** The two literals of the `role` union. */
  datatype Role = User | Model

  datatype Project = Project(id: ProjectId, name: string, description: string)

  datatype Task = Task(id: TaskId, projectId: ProjectId, title: string, status: Status)

  /** `isError` is optional in the schema: None is an absent field. */
  datatype Message = Message(id: MessageId, projectId: ProjectId, role: Role, text: string, isError: Option<bool>)
}
