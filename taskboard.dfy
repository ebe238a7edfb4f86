/**
 * The logic of components/TaskBoard.tsx: the status button's successor,
 * the "done / total" counter, and the status label and icon mappings.
 */
module TaskBoard {
  import opened Schema

  /** The status button's next status: TODO, then IN_PROGRESS, then DONE, then TODO again. */
  function Next(s: Status): (r: Status)
    ensures r != s
  {
    if s == Todo then InProgress
    else if s == InProgress then Done
    else Todo
  }

  lemma NextSteps()
    ensures Next(Todo) == InProgress && Next(InProgress) == Done && Next(Done) == Todo
  {
  }

  /** The cycle has period exactly three. */
  lemma NextPeriod(s: Status)
    ensures Next(Next(Next(s))) == s
    ensures Next(Next(s)) != s
  {
  }

  /** What one click on a task's status button emits through `onStatusChange`. */
  datatype StatusChange = StatusChange(taskId: TaskId, status: Status)

  /** A click names the clicked task and always asks for a different status; two more clicks would come back. */
  function Click(t: Task): (c: StatusChange)
    ensures c.taskId == t.id && c.status != t.status
    ensures Next(Next(c.status)) == t.status
  {
    StatusChange(t.id, Next(t.status))
  }

  // ---------------------------------------------------------------------
  // The counter `tasks.filter(t => t.status === DONE).length / tasks.length`
  // ---------------------------------------------------------------------

  function DoneTasks(ts: seq<Task>): (r: seq<Task>)
    ensures |r| <= |ts|
    ensures forall t :: t in r <==> t in ts && t.status == Done
  {
    if ts == [] then []
    else (if ts[0].status == Done then [ts[0]] else []) + DoneTasks(ts[1..])
  }

  /** The numerator of the counter: at most the total, and positive exactly when some task is done. */
  function DoneCount(ts: seq<Task>): (n: nat)
    ensures n <= |ts|
    ensures n > 0 <==> exists i :: 0 <= i < |ts| && ts[i].status == Done
  {
    var r := DoneTasks(ts);
    assert r != [] ==> r[0] in r;
    |r|
  }

  /**
   * The counter never exceeds the total; it equals the total exactly when
   * every task is done, and is zero exactly when none is.
   */
  lemma {:induction false} DoneCountRange(ts: seq<Task>)
    ensures DoneCount(ts) <= |ts|
    ensures DoneCount(ts) == |ts| <==> forall i :: 0 <= i < |ts| ==> ts[i].status == Done
    ensures DoneCount(ts) == 0 <==> forall i :: 0 <= i < |ts| ==> ts[i].status != Done
  {
    if ts != [] {
      DoneCountRange(ts[1..]);
      assert forall i :: 1 <= i < |ts| ==> ts[i] == ts[1..][i - 1];
    }
  }

  /** Adding one task raises the counter by one exactly when that task is done. */
  lemma {:induction false} DoneCountAppend(ts: seq<Task>, t: Task)
    ensures DoneCount(ts + [t]) == DoneCount(ts) + (if t.status == Done then 1 else 0)
  {
    if ts == [] {
      assert ts + [t] == [t];
    } else {
      assert (ts + [t])[1..] == ts[1..] + [t];
      DoneCountAppend(ts[1..], t);
    }
  }

  // ---------------------------------------------------------------------
  // getStatusText and getStatusIcon
  // ---------------------------------------------------------------------

  /** The Hebrew labels of the three statuses. */
  const DoneLabel: string := "\U{05D4}\U{05D5}\U{05E9}\U{05DC}\U{05DD}"
  const InProgressLabel: string := "\U{05D1}\U{05D1}\U{05D9}\U{05E6}\U{05D5}\U{05E2}"
  const TodoLabel: string := "\U{05DC}\U{05D1}\U{05D9}\U{05E6}\U{05D5}\U{05E2}"

  /** TODO falls to the `default` branch of the switch. */
  function StatusText(s: Status): (r: string)
    ensures r == DoneLabel <==> s == Done
    ensures r == InProgressLabel <==> s == InProgress
    ensures r == TodoLabel <==> s == Todo
  {
    assert DoneLabel[0] != InProgressLabel[0] && DoneLabel[0] != TodoLabel[0];
    assert InProgressLabel[0] != TodoLabel[0];
    match s
    case Done => DoneLabel
    case InProgress => InProgressLabel
    case _ => TodoLabel
  }

  /** Different statuses get different labels. */
  lemma StatusTextInjective(a: Status, b: Status)
    ensures StatusText(a) == StatusText(b) ==> a == b
  {
    assert DoneLabel[0] != InProgressLabel[0] && DoneLabel[0] != TodoLabel[0];
    assert InProgressLabel[0] != TodoLabel[0];
  }

  /** The three lucide-react icons the button shows. */
  datatype Icon = CheckCircle2 | Clock | Circle

  function StatusIcon(s: Status): (i: Icon)
    ensures i == CheckCircle2 <==> s == Done
    ensures i == Clock <==> s == InProgress
    ensures i == Circle <==> s == Todo
  {
    match s
    case Done => CheckCircle2
    case InProgress => Clock
    case _ => Circle
  }

  lemma StatusIconInjective(a: Status, b: Status)
    ensures StatusIcon(a) == StatusIcon(b) ==> a == b
  {
  }
}
