/**
 * The application controller of App.tsx as a state machine over the store.
 * Each handler runs as one sequential step: the values a handler reads
 * from its render (the project list, the active project, its tasks and
 * messages, the form buffers) are those of the state it starts in. The
 * assistant gateway is an oracle passed in by the caller, and
 * `window.confirm` is a boolean parameter.
 */
module App {
  import opened Schema
  import opened Tables
  import opened Database
  import opened Text
  import opened Gateway
  import Projects
  import Tasks
  import Messages
  import TaskBoard

  /** The fixed text of the model message stored when a chat call fails. */
  const ChatErrorText: string := "\U{05E9}\U{05D2}\U{05D9}\U{05D0}\U{05D4}"

  /** `projects.find(p => p._id === activeProjectId)`: the first project with that id, if any. */
  function FindProject(ps: seq<Project>, id: Option<ProjectId>): (r: Option<Project>)
    ensures r.Some? ==> id.Some? && r.value in ps && r.value.id == id.value
    ensures r.None? ==> id.None? || forall p :: p in ps ==> p.id != id.value
  {
    if id.None? || ps == [] then None
    else if ps[0].id == id.value then Some(ps[0])
    else FindProject(ps[1..], id)
  }

  /** The effect at App.tsx:19-23: pick the first project while none is active. */
  function AutoSelect(active: Option<ProjectId>, ps: seq<Project>): (r: Option<ProjectId>)
    ensures active.Some? ==> r == active
    ensures active.None? && |ps| > 0 ==> r == Some(ps[0].id)
    ensures active.None? && ps == [] ==> r == None
  {
    if active.None? && |ps| > 0 then Some(ps[0].id) else active
  }

  /** Running the effect again, with nothing else changed, changes nothing. */
  lemma AutoSelectIdempotent(active: Option<ProjectId>, ps: seq<Project>)
    ensures AutoSelect(AutoSelect(active, ps), ps) == AutoSelect(active, ps)
  {
  }

  /** The tasks a batch of generated titles becomes: one TODO task per title, in order, with consecutive ids. */
  function NewTodoTasks(first: nat, p: ProjectId, titles: seq<string>): (r: seq<Task>)
    ensures |r| == |titles|
    ensures forall k :: 0 <= k < |titles| ==> r[k] == Task(first + k, p, titles[k], Todo)
  {
    seq(|titles|, k requires 0 <= k < |titles| => Task(first + k, p, titles[k], Todo))
  }

  /** A generated batch shows up at the end of its project's task listing, whole and unreordered. */
  lemma GeneratedTasksListed(ts: seq<Task>, first: nat, p: ProjectId, titles: seq<string>)
    ensures TasksOf(ts + NewTodoTasks(first, p, titles), p) == TasksOf(ts, p) + NewTodoTasks(first, p, titles)
  {
    TasksOfAppend(ts, NewTodoTasks(first, p, titles), p);
    TasksOfOwned(NewTodoTasks(first, p, titles), p);
  }

  /** The rows the AI batch of a handler adds: the titles of an Ok answer, nothing for Fail. */
  function AiBatch(p: ProjectId, first: nat, reply: Reply<seq<string>>): (r: seq<Task>)
    ensures |r| == if reply.Ok? then |reply.value| else 0
    ensures forall k :: 0 <= k < |r| ==> r[k].id == first + k && r[k].projectId == p && r[k].status == Todo
    ensures reply.Ok? ==> forall k :: 0 <= k < |r| ==> r[k].title == reply.value[k]
  {
    if reply.Ok? then NewTodoTasks(first, p, reply.value) else []
  }

  /** The model message stored for a chat answer: the reply, or the fixed error text flagged as an error. */
  function ModelMessage(id: MessageId, p: ProjectId, reply: Reply<string>): (m: Message)
    ensures m.role == Model && m.projectId == p && m.id == id
    ensures reply.Ok? <==> m.isError.None?
    ensures reply.Fail? <==> m.isError == Some(true)
    ensures reply.Ok? ==> m.text == reply.value
    ensures reply.Fail? ==> m.text == ChatErrorText
  {
    if reply.Ok? then Message(id, p, Model, reply.value, None)
    else Message(id, p, Model, ChatErrorText, Some(true))
  }

  /**
   * Three clicks on a task's status button (each on the re-rendered row)
   * put the tasks table back as it was.
   */
  lemma ThreeClicksRestore(ts: seq<Task>, t: Task)
    requires t in ts && UniqueTaskIds(ts)
    ensures
      var once := SetStatus(ts, t.id, TaskBoard.Next(t.status));
      var twice := SetStatus(once, t.id, TaskBoard.Next(TaskBoard.Next(t.status)));
      SetStatus(twice, t.id, TaskBoard.Next(TaskBoard.Next(TaskBoard.Next(t.status)))) == ts
  {
    var a := TaskBoard.Next(t.status);
    var b := TaskBoard.Next(a);
    var c := TaskBoard.Next(b);
    SetStatusOverwrite(ts, t.id, a, b);
    SetStatusOverwrite(ts, t.id, b, c);
    TaskBoard.NextPeriod(t.status);
    SetStatusIdle(ts, t);
  }

  /** The controller's UI-local state, all in one value. */
  datatype UiState = UiState(
    activeProjectId: Option<ProjectId>,
    showNewProjectModal: bool,
    newProjectName: string,
    newProjectDesc: string,
    newTaskTitle: string,
    isGeneratingTasks: bool,
    isChatLoading: bool)

  class Controller {
    const db: Db
    var activeProjectId: Option<ProjectId>
    var showNewProjectModal: bool
    var newProjectName: string
    var newProjectDesc: string
    var newTaskTitle: string
    var isGeneratingTasks: bool
    var isChatLoading: bool

    ghost predicate Valid()
      reads this, db
    {
      db.Valid()
    }

    function Ui(): UiState
      reads this
    {
      UiState(activeProjectId, showNewProjectModal, newProjectName, newProjectDesc,
              newTaskTitle, isGeneratingTasks, isChatLoading)
    }

    /** The initial `useState` values, over an existing store. */
    constructor (db: Db)
      requires db.Valid()
      ensures Valid() && this.db == db
      ensures Ui() == UiState(None, false, [], [], [], false, false)
    {
      this.db := db;
      activeProjectId := None;
      showNewProjectModal := false;
      newProjectName, newProjectDesc, newTaskTitle := [], [], [];
      isGeneratingTasks, isChatLoading := false, false;
    }

    /** The auto-select effect, run after a render. */
    method SyncActiveProject()
      modifies this`activeProjectId
      ensures activeProjectId == AutoSelect(old(activeProjectId), db.projects)
    {
      if activeProjectId.None? && |db.projects| > 0 {
        activeProjectId := Some(db.projects[0].id);
      }
    }

    /** `onSelectProject={setActiveProjectId}`. */
    method SelectProject(id: ProjectId)
      modifies this`activeProjectId
      ensures activeProjectId == Some(id)
    {
      activeProjectId := Some(id);
    }

    /** `onAddProject` and the modal's cancel button. */
    method SetNewProjectModal(show: bool)
      modifies this`showNewProjectModal
      ensures showNewProjectModal == show
    {
      showNewProjectModal := show;
    }

    /** The `onChange` handlers of the three inputs. */
    method EditNewProjectName(s: string)
      modifies this`newProjectName
      ensures newProjectName == s
    {
      newProjectName := s;
    }

    method EditNewProjectDesc(s: string)
      modifies this`newProjectDesc
      ensures newProjectDesc == s
    {
      newProjectDesc := s;
    }

    method EditNewTaskTitle(s: string)
      modifies this`newTaskTitle
      ensures newTaskTitle == s
    {
      newTaskTitle := s;
    }

    /** The `for ... await createTask({ projectId, title, status: 'TODO' })` loop. */
    method InsertTodoTasks(p: ProjectId, titles: seq<string>)
      requires db.Valid()
      modifies db
      ensures db.Valid()
      ensures db.tasks == old(db.tasks) + NewTodoTasks(old(db.nextId), p, titles)
      ensures db.nextId == old(db.nextId) + |titles|
      ensures db.projects == old(db.projects) && db.messages == old(db.messages)
    {
      for i := 0 to |titles|
        invariant db.Valid()
        invariant db.tasks == old(db.tasks) + NewTodoTasks(old(db.nextId), p, titles[..i])
        invariant db.nextId == old(db.nextId) + i
        invariant db.projects == old(db.projects) && db.messages == old(db.messages)
      {
        var _ := Tasks.Create(db, p, titles[i], Some(Todo));
        assert NewTodoTasks(old(db.nextId), p, titles[..i + 1])
            == NewTodoTasks(old(db.nextId), p, titles[..i]) + [Task(old(db.nextId) + i, p, titles[i], Todo)];
      }
      assert titles[..|titles|] == titles;
    }

    /**
     * The `try { generateProjectTasks ...; for ... createTask } finally`
     * block both AI handlers share: `isGeneratingTasks` is held while the
     * gateway runs and released on every exit; `failed` is the catch branch.
     */
    method GenerateTasks(p: ProjectId, name: string, desc: string, generate: TaskGenerator)
      returns (failed: bool)
      requires Valid()
      modifies this`isGeneratingTasks, db
      ensures Valid()
      ensures !isGeneratingTasks
      ensures failed == generate(name, desc).Fail?
      ensures db.tasks == old(db.tasks) + AiBatch(p, old(db.nextId), generate(name, desc))
      ensures db.projects == old(db.projects) && db.messages == old(db.messages)
    {
      isGeneratingTasks := true;
      var reply := generate(name, desc);
      if reply.Ok? {
        InsertTodoTasks(p, reply.value);
        failed := false;
      } else {
        failed := true;
      }
      isGeneratingTasks := false;
    }

    /**
     * `handleCreateProject`. A blank name stops it before any store call.
     * Otherwise the project is inserted and made active, the modal closes
     * and both buffers are cleared; the name and description used
     * afterwards are the ones the handler started with. Only a non-blank
     * description asks the gateway for titles, and `isGeneratingTasks` is
     * false again however that call ends.
     */
    method HandleCreateProject(generate: TaskGenerator)
      requires Valid()
      modifies this, db
      ensures Valid()
      ensures IsBlank(old(newProjectName)) ==> unchanged(this, db)
      ensures !IsBlank(old(newProjectName)) ==>
        var id := old(db.nextId);
        var name, desc := old(newProjectName), old(newProjectDesc);
        && db.projects == old(db.projects) + [Project(id, name, desc)]
        && db.tasks == old(db.tasks) + (if IsBlank(desc) then [] else AiBatch(id, id + 1, generate(name, desc)))
        && db.messages == old(db.messages)
        && Ui() == old(Ui()).(activeProjectId := Some(id), showNewProjectModal := false,
                              newProjectName := [], newProjectDesc := [],
                              isGeneratingTasks := if IsBlank(desc) then old(isGeneratingTasks) else false)
    {
      if IsBlank(newProjectName) {
        return;
      }
      var name, desc := newProjectName, newProjectDesc;
      var projectId := OpenProject(name, desc);
      MaybeGenerate(projectId, name, desc, generate);
    }

    /** Lines 52-60 of `handleCreateProject`: store the project, select it, close the modal, clear the buffers. */
    method OpenProject(name: string, desc: string) returns (id: ProjectId)
      requires Valid()
      modifies this, db
      ensures Valid()
      ensures id == old(db.nextId) && db.nextId == id + 1
      ensures db.projects == old(db.projects) + [Project(id, name, desc)]
      ensures db.tasks == old(db.tasks) && db.messages == old(db.messages)
      ensures Ui() == old(Ui()).(activeProjectId := Some(id), showNewProjectModal := false,
                                 newProjectName := [], newProjectDesc := [])
    {
      id := Projects.Create(db, name, desc);
      activeProjectId := Some(id);
      showNewProjectModal := false;
      newProjectName := [];
      newProjectDesc := [];
    }

    /** The `if (newProjectDesc.trim())` part of `handleCreateProject`; a failure is only logged. */
    method MaybeGenerate(p: ProjectId, name: string, desc: string, generate: TaskGenerator)
      requires Valid()
      modifies this`isGeneratingTasks, db
      ensures Valid()
      ensures isGeneratingTasks == if IsBlank(desc) then old(isGeneratingTasks) else false
      ensures db.tasks == old(db.tasks) + (if IsBlank(desc) then [] else AiBatch(p, old(db.nextId), generate(name, desc)))
      ensures db.projects == old(db.projects) && db.messages == old(db.messages)
    {
      if !IsBlank(desc) {
        var _ := GenerateTasks(p, name, desc, generate);
      }
    }

    /**
     * `handleAddTask`: with a non-blank title and an active project, one
     * TODO task with that title under that project, and the input cleared;
     * otherwise nothing at all.
     */
    method HandleAddTask()
      requires Valid()
      modifies this, db
      ensures Valid()
      ensures IsBlank(old(newTaskTitle)) || old(activeProjectId).None? ==> unchanged(this, db)
      ensures !IsBlank(old(newTaskTitle)) && old(activeProjectId).Some? ==>
        && db.tasks == old(db.tasks) + [Task(old(db.nextId), old(activeProjectId).value, old(newTaskTitle), Todo)]
        && db.projects == old(db.projects) && db.messages == old(db.messages)
        && Ui() == old(Ui()).(newTaskTitle := [])
    {
      if IsBlank(newTaskTitle) || activeProjectId.None? {
        return;
      }
      var _ := Tasks.Create(db, activeProjectId.value, newTaskTitle, Some(Todo));
      newTaskTitle := [];
    }

    /**
     * `handleDeleteProject`: without confirmation nothing changes. With it,
     * the project goes with all its tasks (its messages stay), and the
     * selection is cleared exactly when it was the deleted project.
     */
    method HandleDeleteProject(id: ProjectId, confirmed: bool)
      requires Valid()
      modifies this, db
      ensures Valid()
      ensures !confirmed ==> unchanged(this, db)
      ensures confirmed ==>
        && db.projects == WithoutProject(old(db.projects), id)
        && db.tasks == OtherTasks(old(db.tasks), id)
        && db.messages == old(db.messages)
        && Ui() == old(Ui()).(activeProjectId := if old(activeProjectId) == Some(id) then None else old(activeProjectId))
    {
      if confirmed {
        Projects.Remove(db, id);
        if activeProjectId == Some(id) {
          activeProjectId := None;
        }
      }
    }

    /**
     * `handleGenerateAI`: nothing without an active project in the list.
     * Otherwise each title the gateway returns becomes a TODO task of that
     * project, a failure raises the alert, and `isGeneratingTasks` ends false.
     */
    method HandleGenerateAI(generate: TaskGenerator) returns (alerted: bool)
      requires Valid()
      modifies this, db
      ensures Valid()
      ensures old(FindProject(db.projects, activeProjectId)).None? ==> unchanged(this, db) && !alerted
      ensures old(FindProject(db.projects, activeProjectId)).Some? ==>
        var p := old(FindProject(db.projects, activeProjectId)).value;
        var reply := generate(p.name, p.description);
        && db.tasks == old(db.tasks) + AiBatch(p.id, old(db.nextId), reply)
        && alerted == reply.Fail?
        && db.projects == old(db.projects) && db.messages == old(db.messages)
        && Ui() == old(Ui()).(isGeneratingTasks := false)
    {
      var project := FindProject(db.projects, activeProjectId);
      if project.None? {
        return false;
      }
      var p := project.value;
      alerted := GenerateTasks(p.id, p.name, p.description, generate);
    }

    /**
     * `handleChatMessage`: nothing without an active project in the list.
     * Otherwise the user's message is stored first and then exactly one
     * model message: the gateway's reply, or the fixed error text with the
     * error flag. The gateway sees the messages loaded before the call as
     * history, and the project's tasks; `isChatLoading` ends false.
     */
    method HandleChatMessage(text: string, chat: ChatResponder)
      requires Valid()
      modifies this, db
      ensures Valid()
      ensures old(activeProjectId).None? || old(FindProject(db.projects, activeProjectId)).None? ==>
        unchanged(this, db)
      ensures old(activeProjectId).Some? && old(FindProject(db.projects, activeProjectId)).Some? ==>
        var p := old(activeProjectId).value;
        var history := History(MessagesOf(old(db.messages), p));
        var reply := chat(history, text, old(FindProject(db.projects, activeProjectId)).value, TasksOf(old(db.tasks), p));
        && db.messages == old(db.messages) + [Message(old(db.nextId), p, User, text, None),
                                              ModelMessage(old(db.nextId) + 1, p, reply)]
        && db.projects == old(db.projects) && db.tasks == old(db.tasks)
        && Ui() == old(Ui()).(isChatLoading := false)
    {
      var project := FindProject(db.projects, activeProjectId);
      if activeProjectId.None? || project.None? {
        return;
      }
      Converse(activeProjectId.value, project.value, text, chat);
    }

    /**
     * The chat handler past its guard. `chatMessages` and `tasks` are the
     * listings the handler's render saw, taken before the user's message
     * is stored.
     */
    method Converse(p: ProjectId, project: Project, text: string, chat: ChatResponder)
      requires Valid()
      modifies this`isChatLoading, db
      ensures Valid()
      ensures
        var history := History(MessagesOf(old(db.messages), p));
        var reply := chat(history, text, project, TasksOf(old(db.tasks), p));
        db.messages == old(db.messages) + [Message(old(db.nextId), p, User, text, None),
                                           ModelMessage(old(db.nextId) + 1, p, reply)]
      ensures !isChatLoading
      ensures db.projects == old(db.projects) && db.tasks == old(db.tasks)
    {
      var chatMessages := MessagesOf(db.messages, p);
      var tasks := TasksOf(db.tasks, p);
      var _ := Messages.Send(db, p, User, text, None);
      isChatLoading := true;
      var history := History(chatMessages);
      var reply := chat(history, text, project, tasks);
      StoreReply(p, reply);
      isChatLoading := false;
    }

    /** The `try { sendMessage(reply) } catch { sendMessage(error text, isError) }` of the chat handler. */
    method StoreReply(p: ProjectId, reply: Reply<string>)
      requires db.Valid()
      modifies db
      ensures db.Valid()
      ensures db.nextId == old(db.nextId) + 1
      ensures db.messages == old(db.messages) + [ModelMessage(old(db.nextId), p, reply)]
      ensures db.projects == old(db.projects) && db.tasks == old(db.tasks)
    {
      if reply.Ok? {
        var _ := Messages.Send(db, p, Model, reply.value, None);
      } else {
        var _ := Messages.Send(db, p, Model, ChatErrorText, Some(true));
      }
    }

    /** A click on a task's status button, through `onStatusChange` to `updateStatus`. */
    method HandleStatusClick(t: Task)
      requires Valid()
      modifies db
      ensures Valid()
      ensures db.tasks == SetStatus(old(db.tasks), t.id, TaskBoard.Next(t.status))
      ensures db.projects == old(db.projects) && db.messages == old(db.messages)
    {
      var change := TaskBoard.Click(t);
      Tasks.UpdateStatus(db, change.taskId, change.status);
    }

    /** `onDeleteTask`, through to the tasks' `remove`. */
    method HandleDeleteTask(id: TaskId)
      requires Valid()
      modifies db
      ensures Valid()
      ensures db.tasks == Drop(old(db.tasks), {id})
      ensures db.projects == old(db.projects) && db.messages == old(db.messages)
    {
      Tasks.Remove(db, id);
    }
  }
}
