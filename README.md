# Project board with an AI assistant: a Dafny model of its data and control core

The application keeps projects, their tasks and a per-project chat with a
language model in a hosted Convex document store, and drives them from one
React controller (`App.tsx`). This project models:

- the three tables of `convex/schema.ts` (`projects`, `tasks` indexed by
  `projectId`, `messages` indexed by `projectId`) as the class `Database.Db`.
  The three tables are sequences in insertion order. Ids come from a counter
  and are never reused. `Db.FreshId` is that allocator; each other method
  of `Db` is one `ctx.db` primitive (insert, delete, patch).
- the Convex query and mutation handlers of `convex/projects.ts`,
  `convex/tasks.ts` and `convex/messages.ts` as module-level methods
  (`Projects.Remove(db, id)`, `Tasks.Create(db, …)`, …). The project's
  cascade delete keeps the source's loop. Each handler's `ensures` ties the
  new tables to pure functions of the old ones, and those functions are in
  module `Tables` with their lemmas.
- the logic of `components/TaskBoard.tsx`: the three-state successor of
  the status button, the "done / total" counter, and the label and icon
  mappings.
- the controller of `App.tsx` as the class `App.Controller`. Its fields are
  `activeProjectId`, the modal flag, the three form buffers and the two
  loading flags. Each handler is one sequential step over the store. The
  AI gateway is an oracle passed in as a function parameter that answers
  `Ok(…)` or `Fail`, where `Fail` stands for an exception. `window.confirm`
  is a boolean parameter.
- `String.prototype.trim` as the guards use it (`!s.trim()`), module `Text`.

Module layout: `Schema` (documents), `Tables` (pure table functions),
`Database` (the store), `Projects`, `Tasks`, `Messages` (handlers),
`TaskBoard`, `Gateway` (oracle types and chat history), `Text`, `App`.

Points to know when reading the model against the source:

- A task's status can only be one of the three literals. The datatype
  `Schema.Status` enforces this, so no invariant is needed for it.
- `handleCreateProject` calls the buffer setters and then reads
  `newProjectName`/`newProjectDesc` again. A React closure still holds the
  values from the render, so the model captures both strings before it
  clears the buffers.
- Every handler reads the rendered snapshot: the project list, the active
  project's tasks, and its messages. In `handleChatMessage` the history
  comes from the messages loaded *before* the user's message is stored.
- `tasks.create` does not check that the project exists, and the model does
  not either.
- The store's behaviour on a missing id is not visible in the source. The
  model treats `delete` and `patch` on a missing id as doing nothing.
- `handleDeleteProject` asks `window.confirm` directly (App.tsx:93). There is
  no pending-delete state in the code, and the model has none.
- Deleting a project removes its tasks but not its messages, as in the
  code. `Projects.Remove` states that the messages table is unchanged.

## Model

| member | source | states |
|---|---|---|
| Tables.TasksOf | convex/tasks.ts:11-14 | the index lookup returns exactly the tasks of the table whose `projectId` is p, never more rows than the table |
| Tables.TasksOfAppend | convex/tasks.ts:11-14 | the lookup keeps table order: the listing of a concatenation is the concatenation of the listings |
| Tables.TasksOfOwned | convex/tasks.ts:11-14 | a table whose rows all belong to p is listed whole and in order |
| Tables.MessagesOf | convex/messages.ts:11-14 | the index lookup returns exactly the messages whose `projectId` is p |
| Tables.MessagesOfAppend | convex/messages.ts:11-14 | the message lookup keeps insertion order across concatenation |
| Tables.WithoutProject | convex/projects.ts:27 | after the delete, the projects left are exactly those whose id differs from the deleted one |
| Tables.Drop | convex/tasks.ts:58 | deleting by a set of ids leaves exactly the rows whose id is outside the set |
| Tables.DropNothing | convex/projects.ts:35-37 | deleting no ids leaves the table unchanged (the loop's start) |
| Tables.DropTwice | convex/projects.ts:35-37 | one delete after another deletes the union of their ids (one loop step) |
| Tables.OtherTasks | convex/projects.ts:30-37 | the rows of projects other than p are exactly the table's rows with a different `projectId` |
| Tables.OtherTasksListing | convex/projects.ts:30-37 | after the cascade the deleted project lists no task, and every other project lists what it listed before |
| Tables.IdSet | convex/projects.ts:35-36 | the id set holds each listed row's id and only those ids |
| Tables.IdSetSnoc | convex/projects.ts:35-36 | one more listed row adds exactly its id to the set |
| Tables.DropExactlyOwned | convex/projects.ts:30-37 | deleting by ids that pick out exactly p's rows leaves exactly the other projects' rows, in order |
| Tables.CascadeRemovesExactlyOwned | convex/projects.ts:30-37 | with unique ids, deleting the ids of the rows the index returned for p leaves exactly the other projects' tasks |
| Tables.SetStatus | convex/tasks.ts:48-50 | the patch keeps length, every row's id, `projectId` and title; it sets the status of the row with that id and keeps every other status |
| Tables.SetStatusOverwrite | convex/tasks.ts:48-50 | a second patch of the same row overrides the first |
| Tables.SetStatusIdle | convex/tasks.ts:48-50 | patching a row with its current status changes nothing |
| Tables.SetStatusKeepsIds | convex/tasks.ts:48-50 | a patch keeps ids unique and below the allocator's bound |
| Database.Db.constructor | convex/schema.ts:4-26 | a new store has three empty tables and satisfies its invariant |
| Database.Db.FreshId | convex/projects.ts:17 | ids handed out are new: no row of any table carries one |
| Database.Db.InsertProject | convex/projects.ts:17 | one project with the given fields is appended under a fresh id; the other tables stay |
| Database.Db.DeleteProject | convex/projects.ts:27 | the projects table loses exactly the rows with that id |
| Database.Db.InsertTask | convex/tasks.ts:31-35 | one task with the given fields is appended under a fresh id |
| Database.Db.PatchTaskStatus | convex/tasks.ts:49 | the tasks table becomes the single-field patch of the old one |
| Database.Db.DeleteTask | convex/tasks.ts:58 | the tasks table loses exactly the rows with that id |
| Database.Db.InsertMessage | convex/messages.ts:26 | one message with the given fields is appended under a fresh id |
| Projects.List | convex/projects.ts:6-8 | returns every project in the store, in store order, unfiltered |
| Projects.Create | convex/projects.ts:16-19 | appends exactly one project with the given name and description under a fresh id; the existing projects, tasks and messages are unchanged |
| Projects.Remove | convex/projects.ts:26-38 | afterwards no project has that id, the tasks are exactly the other projects' tasks in their old order, and the messages table is untouched |
| Projects.DeleteEach | convex/projects.ts:35-37 | the loop deletes exactly the ids of the listed tasks |
| Tasks.List | convex/tasks.ts:8-15 | no project id gives the empty sequence whatever the store holds; a project id gives exactly that project's tasks in store order |
| Tasks.Create | convex/tasks.ts:30-36 | appends exactly one task with the given project and title under a fresh id; status TODO when omitted, the given status otherwise |
| Tasks.UpdateStatus | convex/tasks.ts:48-50 | only the status of the task with that id changes; titles, projects, other tasks and other tables stay |
| Tasks.Remove | convex/tasks.ts:57-59 | deletes only the task with that id |
| Messages.List | convex/messages.ts:8-15 | no project id gives the empty sequence; a project id gives exactly that project's messages in insertion order |
| Messages.Send | convex/messages.ts:25-27 | appends exactly one message with the given project, role, text and `isError`, under a fresh id; existing messages are kept as a prefix |
| Messages.SendGrowsListing | convex/messages.ts:11-14 | after a send the project's listing grows by the new message, last; every other listing is unchanged |
| TaskBoard.Next | components/TaskBoard.tsx:69-71 | the successor status is never the status itself |
| TaskBoard.NextSteps | components/TaskBoard.tsx:69-71 | TODO goes to IN_PROGRESS, IN_PROGRESS to DONE, DONE to TODO |
| TaskBoard.NextPeriod | components/TaskBoard.tsx:69-71 | three steps return to the start and two never do: period exactly three |
| TaskBoard.Click | components/TaskBoard.tsx:68-73 | a click reports the clicked task's id with a status different from the current one, and two further steps of the cycle lead back to the current one |
| TaskBoard.DoneCount | components/TaskBoard.tsx:40 | the numerator of the counter is at most the total, and positive exactly when some task is DONE |
| TaskBoard.DoneTasks | components/TaskBoard.tsx:40 | the filter keeps exactly the DONE tasks |
| TaskBoard.DoneCountRange | components/TaskBoard.tsx:40 | the done counter is at most the total; it equals the total exactly when all tasks are done, and is zero exactly when none is |
| TaskBoard.DoneCountAppend | components/TaskBoard.tsx:40 | one more task raises the counter by one exactly when it is DONE |
| TaskBoard.StatusText | components/TaskBoard.tsx:27-33 | each status gets its own label: the DONE label exactly for DONE, the in-progress label exactly for IN_PROGRESS, the to-do label exactly for TODO |
| TaskBoard.StatusTextInjective | components/TaskBoard.tsx:27-33 | the three labels are distinct; TODO is the `default` branch |
| TaskBoard.StatusIcon | components/TaskBoard.tsx:19-25 | CheckCircle2 exactly for DONE, Clock exactly for IN_PROGRESS, Circle exactly for TODO |
| TaskBoard.StatusIconInjective | components/TaskBoard.tsx:19-25 | the three icons are distinct; TODO is the `default` branch |
| Text.TrimStartSpec | App.tsx:50 | trimming the start keeps a suffix that does not start with whitespace and drops only whitespace |
| Text.TrimEndSpec | App.tsx:50 | trimming the end keeps a prefix that does not end with whitespace and drops only whitespace |
| Text.Trim | App.tsx:50 | the trimmed string is no longer than the input, and neither end of a non-empty result is whitespace |
| Text.TrimEmptyIffAllWhitespace | App.tsx:50 | a string trims to empty exactly when every character is whitespace |
| Text.IsBlank | App.tsx:50 | the `!s.trim()` guard holds exactly when every character is whitespace, so whitespace-only names, descriptions and titles count as blank |
| Text.TrimIdempotent | App.tsx:63 | trimming twice gives the same as trimming once |
| Gateway.History | App.tsx:122-125 | the history has one turn per loaded message, in the same order, each with that message's role and text |
| App.FindProject | App.tsx:29 | finds a project with the active id when the list has one, and nothing when no id is active or no project has it |
| App.AutoSelect | App.tsx:19-23 | a set selection is kept; with none, the first project is picked if there is one |
| App.AutoSelectIdempotent | App.tsx:19-23 | running the effect again changes nothing |
| App.NewTodoTasks | App.tsx:67-69 | one TODO task per generated title, in title order, under the given project, with consecutive fresh ids |
| App.AiBatch | App.tsx:66-69 | a failed generation adds no rows; a successful one adds one row per returned title, in order, each a TODO task of the project with consecutive ids from the given first id |
| App.GeneratedTasksListed | App.tsx:67-69 | a generated batch appears at the end of its project's task listing, whole and in order |
| App.ModelMessage | App.tsx:130-134 | the model message carries the reply with no error flag, or the fixed error text with `isError` true |
| App.ThreeClicksRestore | components/TaskBoard.tsx:68-73 | three clicks on the same task's status button restore the tasks table |
| App.Controller.constructor | App.tsx:16-45 | the initial state: nothing selected, modal closed, buffers empty, both flags false |
| App.Controller.SyncActiveProject | App.tsx:19-23 | the selection becomes the auto-select of the old selection over the current projects |
| App.Controller.SelectProject | App.tsx:174 | clicking a project makes it active |
| App.Controller.SetNewProjectModal | App.tsx:175 | the modal is shown or hidden as asked |
| App.Controller.EditNewProjectName | App.tsx:256 | the name input sets the name buffer |
| App.Controller.EditNewProjectDesc | App.tsx:266 | the description input sets the description buffer |
| App.Controller.EditNewTaskTitle | App.tsx:209 | the task input sets the title buffer |
| App.Controller.InsertTodoTasks | App.tsx:67-69 | the loop inserts one TODO task per title under the project, in order, and touches nothing else |
| App.Controller.GenerateTasks | App.tsx:101-111 | the tasks grow by the gateway's titles, or by nothing on failure; `isGeneratingTasks` is false on every exit, and `failed` reports the failure |
| App.Controller.HandleCreateProject | App.tsx:49-76 | a blank name changes nothing. Otherwise one project with the captured name and description is stored and made active, the modal closes, both buffers are empty, only a non-blank description adds the generated TODO tasks, and `isGeneratingTasks` ends false whenever generation ran |
| App.Controller.OpenProject | App.tsx:52-60 | stores the project, selects it, closes the modal and clears both buffers, and changes nothing else |
| App.Controller.MaybeGenerate | App.tsx:63-75 | generation runs only for a non-blank description; a failure is swallowed and the flag is released |
| App.Controller.HandleAddTask | App.tsx:78-89 | a blank title or no active project changes nothing; otherwise exactly one TODO task with that title is added under the active project and the buffer is cleared |
| App.Controller.HandleDeleteProject | App.tsx:91-97 | without confirmation nothing changes; with it the project and its tasks go, messages stay, and the selection becomes none exactly when it was the deleted id |
| App.Controller.HandleGenerateAI | App.tsx:99-112 | without an active project in the list nothing changes; otherwise each returned title becomes a TODO task under that project, a failure raises the alert, and `isGeneratingTasks` ends false |
| App.Controller.HandleChatMessage | App.tsx:114-138 | without an active project nothing changes. Otherwise the user message is stored, then exactly one model message: the reply, or the error text with `isError` set. `isChatLoading` ends false, and the gateway gets the loaded messages as history, in order |
| App.Controller.Converse | App.tsx:117-137 | stores the user and model messages in that order, with the history and tasks taken before the first store, and releases `isChatLoading` |
| App.Controller.StoreReply | App.tsx:130-134 | appends exactly one model message for the gateway's answer |
| App.Controller.HandleStatusClick | components/TaskBoard.tsx:68-73 | one click patches that task's status to its successor and nothing else |
| App.Controller.HandleDeleteTask | App.tsx:221 | the task delete button removes exactly the task with that id |

## Left out

- JSX rendering, styling, `components/AIChat.tsx`, `components/ProjectList.tsx` and `index.tsx` are markup. The send guard of `AIChat.tsx:25` (no send while the input is blank or a reply is loading) is not modelled. `HandleChatMessage` accepts any text.
- `services/gemini.ts` makes network calls, builds prompts and parses JSON, so the model reduces it to the two oracles of module `Gateway`. The real functions throw only when the API key is missing. On other errors they return `[]` or a fallback string. An oracle's `Fail` covers the throw.
- The task-status context block that `chatWithProject` builds for the prompt is not modelled. It is the oracle's business.
- `lib/convexClient.ts` is deployment configuration.
- Live-query push and `useQuery`/`useMutation` plumbing are not modelled. Reads are snapshots of the store at the start of a handler, and the auto-select effect is a method the caller runs after a step.
- Async interleaving is not modelled. This covers the un-awaited mutations at App.tsx:82 and App.tsx:94, a double click that starts two generations, and the lack of cancellation. Each handler is one sequential step, so a store call never fails in the model.
- `_creationTime` and locale date formatting are left out. Insertion order takes the place of creation time.
- The Hebrew UI texts, the `alert` and `console.error` calls are left out. The chat error text and the three status labels are kept as opaque constants. The alert is the `alerted` result of `HandleGenerateAI`.
- Convex id formats are not modelled. Ids are natural numbers from one counter shared by all tables.
