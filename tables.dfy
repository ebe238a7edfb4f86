/**
 * Pure functions over the rows of the three tables: the `by_projectId`
 * index lookups, deletion by id, and the single-field status patch. The
 * store (Database.Db) and the mutation handlers are specified with them.
 */
module Tables {
  import opened Schema

  /** No two different rows of a table share an id. */
  ghost predicate UniqueProjectIds(ps: seq<Project>) {
    forall a, b :: a in ps && b in ps && a.id == b.id ==> a == b
  }

  ghost predicate UniqueTaskIds(ts: seq<Task>) {
    forall a, b :: a in ts && b in ts && a.id == b.id ==> a == b
  }

  ghost predicate UniqueMessageIds(ms: seq<Message>) {
    forall a, b :: a in ms && b in ms && a.id == b.id ==> a == b
  }

  // ---------------------------------------------------------------------
  // The by_projectId index (convex/schema.ts:18, :25)
  // ---------------------------------------------------------------------

  /** `query("tasks").withIndex("by_projectId", eq projectId p).collect()`. */
  function TasksOf(ts: seq<Task>, p: ProjectId): (r: seq<Task>)
    ensures |r| <= |ts|
    ensures forall t :: t in r <==> t in ts && t.projectId == p
  {
    if ts == [] then []
    else (if ts[0].projectId == p then [ts[0]] else []) + TasksOf(ts[1..], p)
  }

  /** The index keeps table order: listing a concatenation lists each part in turn. */
  lemma {:induction false} TasksOfAppend(a: seq<Task>, b: seq<Task>, p: ProjectId)
    ensures TasksOf(a + b, p) == TasksOf(a, p) + TasksOf(b, p)
  {
    if a == [] {
      assert a + b == b;
    } else {
      assert (a + b)[0] == a[0];
      assert (a + b)[1..] == a[1..] + b;
      TasksOfAppend(a[1..], b, p);
    }
  }

  /** A table whose rows all belong to p is listed whole, in order. */
  lemma {:induction false} TasksOfOwned(ts: seq<Task>, p: ProjectId)
    requires forall i :: 0 <= i < |ts| ==> ts[i].projectId == p
    ensures TasksOf(ts, p) == ts
  {
    if ts != [] {
      TasksOfOwned(ts[1..], p);
    }
  }

  /** `query("messages").withIndex("by_projectId", eq projectId p).collect()`. */
  function MessagesOf(ms: seq<Message>, p: ProjectId): (r: seq<Message>)
    ensures |r| <= |ms|
    ensures forall m :: m in r <==> m in ms && m.projectId == p
  {
    if ms == [] then []
    else (if ms[0].projectId == p then [ms[0]] else []) + MessagesOf(ms[1..], p)
  }

  lemma {:induction false} MessagesOfAppend(a: seq<Message>, b: seq<Message>, p: ProjectId)
    ensures MessagesOf(a + b, p) == MessagesOf(a, p) + MessagesOf(b, p)
  {
    if a == [] {
      assert a + b == b;
    } else {
      assert (a + b)[0] == a[0];
      assert (a + b)[1..] == a[1..] + b;
      MessagesOfAppend(a[1..], b, p);
    }
  }

  // ---------------------------------------------------------------------
  // Deletion
  // ---------------------------------------------------------------------

  /** The projects table after `ctx.db.delete(id)`. */
  function WithoutProject(ps: seq<Project>, id: ProjectId): (r: seq<Project>)
    ensures |r| <= |ps|
    ensures forall p :: p in r <==> p in ps && p.id != id
  {
    if ps == [] then []
    else (if ps[0].id != id then [ps[0]] else []) + WithoutProject(ps[1..], id)
  }

  /** The tasks table with every row whose id is in `ids` deleted. */
  function Drop(ts: seq<Task>, ids: set<TaskId>): (r: seq<Task>)
    ensures |r| <= |ts|
    ensures forall t :: t in r <==> t in ts && t.id !in ids
  {
    if ts == [] then []
    else (if ts[0].id !in ids then [ts[0]] else []) + Drop(ts[1..], ids)
  }

  /** Deleting no ids leaves the table as it is. */
  lemma DropNothing(ts: seq<Task>)
    ensures Drop(ts, {}) == ts
  {
    if ts != [] {
      DropNothing(ts[1..]);
    }
  }

  /** Deleting one batch of ids after another deletes their union. */
  lemma {:induction false} DropTwice(ts: seq<Task>, a: set<TaskId>, b: set<TaskId>)
    ensures Drop(Drop(ts, a), b) == Drop(ts, a + b)
  {
    if ts != [] {
      DropTwice(ts[1..], a, b);
      var rest := Drop(ts[1..], a);
      if ts[0].id !in a {
        var kept := Drop(ts, a);
        assert kept == [ts[0]] + rest;
        assert kept[0] == ts[0] && kept[1..] == rest;
        assert Drop(kept, b) == (if ts[0].id !in b then [ts[0]] else []) + Drop(rest, b);
      } else {
        assert Drop(ts, a) == rest;
      }
      assert Drop(ts, a + b) == (if ts[0].id !in a + b then [ts[0]] else []) + Drop(ts[1..], a + b);
    }
  }

  /** The tasks table restricted to the rows of projects other than p. */
  function OtherTasks(ts: seq<Task>, p: ProjectId): (r: seq<Task>)
    ensures |r| <= |ts|
    ensures forall t :: t in r <==> t in ts && t.projectId != p
  {
    if ts == [] then []
    else (if ts[0].projectId != p then [ts[0]] else []) + OtherTasks(ts[1..], p)
  }

  /**
   * After the cascade, listing the deleted project's tasks finds nothing,
   * and every other project's listing is what it was.
   */
  lemma {:induction false} OtherTasksListing(ts: seq<Task>, p: ProjectId, q: ProjectId)
    ensures TasksOf(OtherTasks(ts, p), p) == []
    ensures q != p ==> TasksOf(OtherTasks(ts, p), q) == TasksOf(ts, q)
  {
    if ts != [] {
      OtherTasksListing(ts[1..], p, q);
      var head := if ts[0].projectId != p then [ts[0]] else [];
      assert OtherTasks(ts, p) == head + OtherTasks(ts[1..], p);
      TasksOfAppend(head, OtherTasks(ts[1..], p), p);
      TasksOfAppend(head, OtherTasks(ts[1..], p), q);
    }
  }

  /** The ids of a sequence of task rows. */
  function IdSet(ts: seq<Task>): (r: set<TaskId>)
    ensures forall t :: t in ts ==> t.id in r
    ensures forall id :: id in r ==> exists t :: t in ts && t.id == id
  {
    set t | t in ts :: t.id
  }

  lemma IdSetSnoc(ts: seq<Task>, t: Task)
    ensures IdSet(ts + [t]) == IdSet(ts) + {t.id}
  {
    var l, r := IdSet(ts + [t]), IdSet(ts) + {t.id};
    forall id | id in l ensures id in r {
      var u :| u in ts + [t] && u.id == id;
    }
    forall id | id in r ensures id in l {
      if id != t.id {
        var u :| u in ts && u.id == id;
        assert u in ts + [t];
      }
    }
  }

  /** Deleting by a set of ids that picks out exactly p's rows leaves the other projects' rows. */
  lemma {:induction false} DropExactlyOwned(ts: seq<Task>, ids: set<TaskId>, p: ProjectId)
    requires forall t :: t in ts ==> (t.id in ids <==> t.projectId == p)
    ensures Drop(ts, ids) == OtherTasks(ts, p)
  {
    if ts != [] {
      assert ts[0] in ts;
      assert forall t :: t in ts[1..] ==> t in ts;
      DropExactlyOwned(ts[1..], ids, p);
    }
  }

  /**
   * Deleting, one id at a time, the rows the index returned for p removes
   * exactly p's tasks: with unique ids no row of another project shares an
   * id with one of p's rows.
   */
  lemma CascadeRemovesExactlyOwned(ts: seq<Task>, p: ProjectId)
    requires UniqueTaskIds(ts)
    ensures Drop(ts, IdSet(TasksOf(ts, p))) == OtherTasks(ts, p)
  {
    var owned := TasksOf(ts, p);
    forall t | t in ts
      ensures t.id in IdSet(owned) <==> t.projectId == p
    {
      if t.id in IdSet(owned) {
        var u :| u in owned && u.id == t.id;
        assert u == t;
      }
    }
    DropExactlyOwned(ts, IdSet(owned), p);
  }

  // ---------------------------------------------------------------------
  // Patch
  // ---------------------------------------------------------------------

  /** The tasks table after `ctx.db.patch(id, { status: s })`. */
  function SetStatus(ts: seq<Task>, id: TaskId, s: Status): (r: seq<Task>)
    ensures |r| == |ts|
    ensures forall i :: 0 <= i < |ts| ==>
      r[i].id == ts[i].id && r[i].projectId == ts[i].projectId && r[i].title == ts[i].title
    ensures forall i :: 0 <= i < |ts| ==>
      r[i].status == (if ts[i].id == id then s else ts[i].status)
  {
    if ts == [] then []
    else [if ts[0].id == id then ts[0].(status := s) else ts[0]] + SetStatus(ts[1..], id, s)
  }

  /** A later patch of the same field overrides an earlier one. */
  lemma SetStatusOverwrite(ts: seq<Task>, id: TaskId, a: Status, b: Status)
    ensures SetStatus(SetStatus(ts, id, a), id, b) == SetStatus(ts, id, b)
  {
  }

  /** Patching a row with the status it already has changes nothing. */
  lemma SetStatusIdle(ts: seq<Task>, t: Task)
    requires t in ts && UniqueTaskIds(ts)
    ensures SetStatus(ts, t.id, t.status) == ts
  {
    var r := SetStatus(ts, t.id, t.status);
    forall i | 0 <= i < |ts| ensures r[i] == ts[i] {
      if ts[i].id == t.id {
        assert ts[i] in ts;
      }
    }
  }

  /** A patch keeps every row's id, so it keeps ids unique and bounded. */
  lemma SetStatusKeepsIds(ts: seq<Task>, id: TaskId, s: Status, bound: nat)
    requires UniqueTaskIds(ts)
    requires forall t :: t in ts ==> t.id < bound
    ensures UniqueTaskIds(SetStatus(ts, id, s))
    ensures forall t :: t in SetStatus(ts, id, s) ==> t.id < bound
  {
    var r := SetStatus(ts, id, s);
    forall a, b | a in r && b in r && a.id == b.id ensures a == b {
      var i :| 0 <= i < |r| && r[i] == a;
      var j :| 0 <= j < |r| && r[j] == b;
      assert ts[i] in ts && ts[j] in ts;
      assert ts[i] == ts[j];
    }
    forall t | t in r ensures t.id < bound {
      var i :| 0 <= i < |r| && r[i] == t;
      assert ts[i] in ts;
    }
  }
}
