/**
 * The Kanban board: five fixed status columns, each showing the tasks of
 * its status in input order, and the status update a card drop emits.
 */
module KanbanView {
  import opened Common
  import opened Entities

  datatype Column = Column(id: TaskStatus, title: string, color: string)

  /** The columns, left to right. */
  const Columns: seq<Column> := [
    Column(Todo, "To Do", "bg-gray-100 dark:bg-gray-700"),
    Column(InProgress, "In Progress", "bg-blue-100 dark:bg-blue-900"),
    Column(Review, "Review", "bg-yellow-100 dark:bg-yellow-900"),
    Column(Done, "Done", "bg-green-100 dark:bg-green-900"),
    Column(Blocked, "Blocked", "bg-red-100 dark:bg-red-900")
  ]

  predicate HasColumn(s: TaskStatus)
  {
    exists i :: 0 <= i < |Columns| && Columns[i].id == s
  }

  /** Every status has exactly one column. */
  lemma ColumnsCoverStatuses()
    ensures forall s: TaskStatus :: HasColumn(s)
    ensures forall i, j :: 0 <= i < j < |Columns| ==> Columns[i].id != Columns[j].id
  {
    forall s: TaskStatus ensures HasColumn(s) {
      match s
      case Todo => assert Columns[0].id == s;
      case InProgress => assert Columns[1].id == s;
      case Review => assert Columns[2].id == s;
      case Done => assert Columns[3].id == s;
      case Blocked => assert Columns[4].id == s;
    }
  }

  function HasStatus(status: TaskStatus): Task -> bool
  {
    (t: Task) => t.status == status
  }

  /** Exactly the tasks with this status, in input order. */
  function GetTasksByStatus(tasks: seq<Task>, status: TaskStatus): (r: seq<Task>)
    ensures forall i :: 0 <= i < |r| ==> r[i] in tasks && r[i].status == status
    ensures forall j :: 0 <= j < |tasks| && tasks[j].status == status ==> tasks[j] in r
    ensures IsSubsequence(r, tasks)
  {
    Filter(HasStatus(status), tasks)
  }

  datatype ColumnWithTasks = ColumnWithTasks(column: Column, columnTasks: seq<Task>)

  /** The columns in their fixed order, each with its tasks. */
  function ColumnsWithTasks(tasks: seq<Task>): (r: seq<ColumnWithTasks>)
    ensures |r| == |Columns|
    ensures forall i :: 0 <= i < |r| ==>
      r[i].column == Columns[i] && r[i].columnTasks == GetTasksByStatus(tasks, Columns[i].id)
  {
    MapSeq((c: Column) => ColumnWithTasks(c, GetTasksByStatus(tasks, c.id)), Columns)
  }

  /** Every task is on exactly one column: the columns together hold each task as often as the input does. */
  lemma BoardPartitionsTasks(tasks: seq<Task>)
    ensures var r := ColumnsWithTasks(tasks);
      multiset(r[0].columnTasks) + multiset(r[1].columnTasks) + multiset(r[2].columnTasks)
      + multiset(r[3].columnTasks) + multiset(r[4].columnTasks) == multiset(tasks)
  {
    var r := ColumnsWithTasks(tasks);
    var all := multiset(r[0].columnTasks) + multiset(r[1].columnTasks) + multiset(r[2].columnTasks)
               + multiset(r[3].columnTasks) + multiset(r[4].columnTasks);
    forall x: Task ensures all[x] == multiset(tasks)[x] {
      FilterMultiset(HasStatus(Todo), tasks, x);
      FilterMultiset(HasStatus(InProgress), tasks, x);
      FilterMultiset(HasStatus(Review), tasks, x);
      FilterMultiset(HasStatus(Done), tasks, x);
      FilterMultiset(HasStatus(Blocked), tasks, x);
    }
    assert all == multiset(tasks);
  }

  /** The column sizes add up to the number of tasks. */
  lemma ColumnSizesSum(tasks: seq<Task>)
    ensures var r := ColumnsWithTasks(tasks);
      |r[0].columnTasks| + |r[1].columnTasks| + |r[2].columnTasks| + |r[3].columnTasks| + |r[4].columnTasks| == |tasks|
  {
    var r := ColumnsWithTasks(tasks);
    BoardPartitionsTasks(tasks);
    assert |multiset(tasks)| == |tasks|;
  }

  /** The update a drop emits: the dragged task's id and a change of its status only. */
  datatype StatusUpdate = StatusUpdate(taskId: string, status: TaskStatus)

  function HandleDrop(draggedId: string, newStatus: TaskStatus): StatusUpdate
  {
    StatusUpdate(draggedId, newStatus)
  }

  /** `{ ...task, ...updates }` for the task the update names; every other task is left alone. */
  function ApplyUpdate(tasks: seq<Task>, u: StatusUpdate): seq<Task>
  {
    MapSeq((t: Task) => if t.id == u.taskId then t.(status := u.status) else t, tasks)
  }

  /** After a drop is applied, the dragged tasks sit in the target column and nothing but their status changed. */
  lemma DropMovesCard(tasks: seq<Task>, draggedId: string, newStatus: TaskStatus)
    ensures var after := ApplyUpdate(tasks, HandleDrop(draggedId, newStatus));
      |after| == |tasks|
      && (forall i :: 0 <= i < |tasks| && tasks[i].id == draggedId ==>
            after[i] == tasks[i].(status := newStatus) && after[i] in GetTasksByStatus(after, newStatus))
      && (forall i :: 0 <= i < |tasks| && tasks[i].id != draggedId ==> after[i] == tasks[i])
  {
  }
}
