/** The query and mutation handlers of convex/projects.ts. */
module Projects {
  import opened Schema
  import opened Tables
  import opened Database

  /** `list`: every project in the table, unfiltered, in table order. */
  method List(db: Db) returns (r: seq<Project>)
    ensures r == db.projects
  {
    r := db.projects;
  }

  /** `create`: inserts one project and returns its fresh id. */
  method Create(db: Db, name: string, description: string) returns (id: ProjectId)
    requires db.Valid()
    modifies db
    ensures db.Valid()
    ensures id == old(db.nextId) && db.nextId == old(db.nextId) + 1
    ensures forall p :: p in old(db.projects) ==> p.id != id
    ensures db.projects == old(db.projects) + [Project(id, name, description)]
    ensures db.tasks == old(db.tasks) && db.messages == old(db.messages)
  {
    id := db.InsertProject(name, description);
  }

  /**
   * `remove`: deletes the project, then looks up its tasks through the
   * by_projectId index and deletes them one by one. The tasks of every
   * other project, and all messages (including the project's own), stay.
   */
  method Remove(db: Db, id: ProjectId)
    requires db.Valid()
    modifies db
    ensures db.Valid()
    ensures db.projects == WithoutProject(old(db.projects), id)
    ensures db.tasks == OtherTasks(old(db.tasks), id)
    ensures db.messages == old(db.messages) && db.nextId == old(db.nextId)
  {
    db.DeleteProject(id);
    var owned := TasksOf(db.tasks, id);
    CascadeRemovesExactlyOwned(db.tasks, id);
    DeleteEach(db, owned);
  }

  /** The loop of `remove`: one `ctx.db.delete` per listed task. */
  method DeleteEach(db: Db, owned: seq<Task>)
    requires db.Valid()
    modifies db`tasks
    ensures db.Valid()
    ensures db.tasks == Drop(old(db.tasks), IdSet(owned))
  {
    ghost var before := db.tasks;
    DropNothing(before);
    assert IdSet(owned[..0]) == {};
    for i := 0 to |owned|
      invariant db.Valid()
      invariant db.tasks == Drop(before, IdSet(owned[..i]))
    {
      db.DeleteTask(owned[i].id);
      DropTwice(before, IdSet(owned[..i]), {owned[i].id});
      assert owned[..i + 1] == owned[..i] + [owned[i]];
      IdSetSnoc(owned[..i], owned[i]);
    }
    assert owned[..|owned|] == owned;
  }
}
