/**
 * The query and mutation handlers of convex/messages.ts. The file defines
 * no update and no delete: the messages table only grows.
 */
module Messages {
  import opened Schema
  import opened Tables
  import opened Database

  /** `list`: nothing without a project id, otherwise that project's messages in insertion order. */
  method List(db: Db, projectId: Option<ProjectId>) returns (r: seq<Message>)
    ensures projectId.None? ==> r == []
    ensures projectId.Some? ==> r == MessagesOf(db.messages, projectId.value)
  {
    if projectId.None? {
      return [];
    }
    r := MessagesOf(db.messages, projectId.value);
  }

  /** `send`: appends one message carrying exactly the given fields, and returns its fresh id. */
  method Send(db: Db, projectId: ProjectId, role: Role, text: string, isError: Option<bool>)
    returns (id: MessageId)
    requires db.Valid()
    modifies db
    ensures db.Valid()
    ensures id == old(db.nextId) && db.nextId == old(db.nextId) + 1
    ensures forall m :: m in old(db.messages) ==> m.id != id
    ensures db.messages == old(db.messages) + [Message(id, projectId, role, text, isError)]
    ensures db.projects == old(db.projects) && db.tasks == old(db.tasks)
  {
    id := db.InsertMessage(projectId, role, text, isError);
  }

  /**
   * After a send, the project's listing grows by exactly the new message,
   * at its end; every other project's listing is unchanged.
   */
  lemma SendGrowsListing(ms: seq<Message>, m: Message, q: ProjectId)
    ensures MessagesOf(ms + [m], m.projectId) == MessagesOf(ms, m.projectId) + [m]
    ensures q != m.projectId ==> MessagesOf(ms + [m], q) == MessagesOf(ms, q)
  {
    MessagesOfAppend(ms, [m], m.projectId);
    MessagesOfAppend(ms, [m], q);
    assert [m][1..] == [];
  }
}
