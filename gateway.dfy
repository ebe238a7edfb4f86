/**
 * The assistant gateway (services/gemini.ts) as seen by the controller.
 * Its two calls are oracles supplied by the caller: each answers either
 * with a value or with Fail, which stands for a thrown exception.
 */
module Gateway {
  import opened Schema

  datatype Reply<+T> = Ok(value: T) | Fail

  /** One history entry `{ role, parts: [{ text }] }`. */
  datatype Turn = Turn(role: Role, parts: seq<string>)

  /** `generateProjectTasks(projectName, description)`. */
  type TaskGenerator = (string, string) -> Reply<seq<string>>

  /** `chatWithProject(history, currentMessage, project, tasks)`. */
  type ChatResponder = (seq<Turn>, string, Project, seq<Task>) -> Reply<string>

  /**
   * `chatMessages.map(m => ({ role: m.role, parts: [{ text: m.text }] }))`:
   * one turn per message, same order, nothing filtered out (error replies included).
   */
  function History(ms: seq<Message>): (h: seq<Turn>)
    ensures |h| == |ms|
    ensures forall i :: 0 <= i < |ms| ==> h[i] == Turn(ms[i].role, [ms[i].text])
  {
    if ms == [] then [] else [Turn(ms[0].role, [ms[0].text])] + History(ms[1..])
  }
}
