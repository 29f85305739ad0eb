/**
 * The task table: the column sort toggle and the comparator the rows are
 * sorted with.
 *
 * A task's sortable value is a string (title, status, priority, assignee)
 * or a number (the due date); strings compare code unit by code unit, as
 * JavaScript's `<` does. The engine's sort algorithm is not specified, so
 * the copy is sorted here by a stable insertion sort with the same
 * comparator.
 */
module TableView {
  import opened Common
  import opened Entities

  datatype SortField = Title | Status | PriorityField | Assignee | DueDate
  datatype Direction = Asc | Desc
  datatype TaskSort = TaskSort(field: SortField, direction: Direction)

  /** The sort the table starts with: due date, ascending. */
  const InitialSort: TaskSort := TaskSort(DueDate, Asc)

  datatype Value = Str(s: string) | Num(n: int)

  /** The task's value in the column, absent when the property is undefined. */
  function FieldValue(t: Task, f: SortField): Option<Value>
  {
    match f
    case Title => Some(Str(t.title))
    case Status => Some(Str(TaskStatusName(t.status)))
    case PriorityField => Some(Str(PriorityName(t.priority)))
    case Assignee => if t.assignee.Some? then Some(Str(t.assignee.value)) else None
    case DueDate => if t.dueDate.Some? then Some(Num(t.dueDate.value)) else None
  }

  /** Lexicographic order on strings: a proper prefix comes first. */
  predicate StrLess(a: string, b: string)
    decreases |a|
  {
    if a == [] then b != []
    else if b == [] then false
    else if a[0] != b[0] then a[0] < b[0]
    else StrLess(a[1..], b[1..])
  }

  /** JavaScript's `<` on two values of one column (mixed kinds do not occur within a column). */
  predicate Less(a: Value, b: Value)
  {
    if a.Num? && b.Num? then a.n < b.n
    else if a.Str? && b.Str? then StrLess(a.s, b.s)
    else a.Num? && b.Str?
  }

  lemma {:induction false} StrLessIrreflexive(a: string)
    ensures !StrLess(a, a)
    decreases |a|
  {
    if a != [] {
      StrLessIrreflexive(a[1..]);
    }
  }

  lemma {:induction false} StrLessTotal(a: string, b: string)
    ensures StrLess(a, b) || a == b || StrLess(b, a)
    ensures !(StrLess(a, b) && StrLess(b, a))
    decreases |a|
  {
    if a != [] && b != [] && a[0] == b[0] {
      StrLessTotal(a[1..], b[1..]);
      if a[1..] == b[1..] {
        assert a == [a[0]] + a[1..] && b == [b[0]] + b[1..];
      }
    }
  }

  lemma {:induction false} StrLessTransitive(a: string, b: string, c: string)
    requires StrLess(a, b) && StrLess(b, c)
    ensures StrLess(a, c)
    decreases |a|
  {
    if a != [] && a[0] == b[0] && b[0] == c[0] {
      StrLessTransitive(a[1..], b[1..], c[1..]);
    }
  }

  /** `<` on column values is a strict total order. */
  lemma LessIsStrictTotalOrder(a: Value, b: Value, c: Value)
    ensures Less(a, b) || a == b || Less(b, a)
    ensures !(Less(a, b) && Less(b, a))
    ensures Less(a, b) && Less(b, c) ==> Less(a, c)
  {
    if a.Str? {
      StrLessIrreflexive(a.s);
    }
    if a.Str? && b.Str? {
      StrLessTotal(a.s, b.s);
      if c.Str? && StrLess(a.s, b.s) && StrLess(b.s, c.s) {
        StrLessTransitive(a.s, b.s, c.s);
      }
    }
  }

  /** The three-way comparison of two present values, ascending. */
  function Comparison(a: Value, b: Value): int
  {
    if Less(b, a) then 1 else if Less(a, b) then -1 else 0
  }

  /**
   * The comparator: a task without a value sorts after every other task,
   * whichever the direction (and reports "after" even against another
   * task without one); two present values compare ascending, negated for
   * descending.
   */
  function Compare(a: Task, b: Task, sort: TaskSort): (r: int)
    ensures r in {-1, 0, 1}
    ensures FieldValue(a, sort.field).None? ==> r == 1
    ensures FieldValue(a, sort.field).Some? && FieldValue(b, sort.field).None? ==> r == -1
    ensures FieldValue(a, sort.field).Some? && FieldValue(b, sort.field).Some? ==>
      r == (if sort.direction == Desc then -1 else 1)
           * Comparison(FieldValue(a, sort.field).value, FieldValue(b, sort.field).value)
  {
    var aValue := FieldValue(a, sort.field);
    var bValue := FieldValue(b, sort.field);
    if aValue.None? then 1
    else if bValue.None? then -1
    else
      var comparison := Comparison(aValue.value, bValue.value);
      if sort.direction == Desc then -comparison else comparison
  }

  /** For present values the descending comparator is the negated ascending one, and each is antisymmetric. */
  lemma DescendingNegatesAscending(a: Task, b: Task, f: SortField)
    requires FieldValue(a, f).Some? && FieldValue(b, f).Some?
    ensures Compare(a, b, TaskSort(f, Desc)) == -Compare(a, b, TaskSort(f, Asc))
    ensures Compare(a, b, TaskSort(f, Asc)) == -Compare(b, a, TaskSort(f, Asc))
  {
    LessIsStrictTotalOrder(FieldValue(a, f).value, FieldValue(b, f).value, FieldValue(b, f).value);
  }

  /** `a` may stand before `b` in a sorted table: the comparator does not put it after, or neither has a value. */
  predicate Ordered(a: Task, b: Task, sort: TaskSort)
  {
    Compare(a, b, sort) <= 0 || (FieldValue(a, sort.field).None? && FieldValue(b, sort.field).None?)
  }

  predicate SortedBy(s: seq<Task>, sort: TaskSort)
  {
    forall i, j :: 0 <= i < j < |s| ==> Ordered(s[i], s[j], sort)
  }

  /** `Ordered` is a total preorder, so sorting by it is well defined up to ties. */
  lemma OrderedTotalPreorder(a: Task, b: Task, c: Task, sort: TaskSort)
    ensures Ordered(a, b, sort) || Ordered(b, a, sort)
    ensures Ordered(a, b, sort) && Ordered(b, c, sort) ==> Ordered(a, c, sort)
  {
    var f := sort.field;
    if FieldValue(a, f).Some? && FieldValue(b, f).Some? && FieldValue(c, f).Some? {
      var x, y, z := FieldValue(a, f).value, FieldValue(b, f).value, FieldValue(c, f).value;
      LessIsStrictTotalOrder(x, y, z);
      LessIsStrictTotalOrder(y, z, x);
      LessIsStrictTotalOrder(z, x, y);
      LessIsStrictTotalOrder(z, y, x);
      LessIsStrictTotalOrder(y, x, z);
      LessIsStrictTotalOrder(x, z, y);
    } else if FieldValue(a, f).Some? && FieldValue(b, f).Some? {
      LessIsStrictTotalOrder(FieldValue(a, f).value, FieldValue(b, f).value, FieldValue(b, f).value);
    }
  }

  /** Inserts `x` before the first element the comparator does not put it after. */
  function Insert(x: Task, s: seq<Task>, sort: TaskSort): seq<Task>
  {
    if s == [] then [x]
    else if Compare(x, s[0], sort) > 0 then [s[0]] + Insert(x, s[1..], sort)
    else [x] + s
  }

  /** `[...tasks].sort(comparator)`: a fresh sorted copy; the input is a value and is left as it was. */
  function SortedTasks(tasks: seq<Task>, sort: TaskSort): seq<Task>
  {
    if tasks == [] then [] else Insert(tasks[0], SortedTasks(tasks[1..], sort), sort)
  }

  lemma {:induction false} InsertPermutes(x: Task, s: seq<Task>, sort: TaskSort)
    ensures multiset(Insert(x, s, sort)) == multiset(s) + multiset{x}
  {
    if s != [] {
      assert s == [s[0]] + s[1..];
      if Compare(x, s[0], sort) > 0 {
        InsertPermutes(x, s[1..], sort);
      }
    }
  }

  lemma InsertElements(x: Task, s: seq<Task>, sort: TaskSort)
    ensures forall y :: y in Insert(x, s, sort) ==> y == x || y in s
  {
    InsertPermutes(x, s, sort);
    forall y | y in Insert(x, s, sort) ensures y == x || y in s {
      assert y in multiset(Insert(x, s, sort));
    }
  }

  lemma {:induction false} InsertSorted(x: Task, s: seq<Task>, sort: TaskSort)
    requires SortedBy(s, sort)
    ensures SortedBy(Insert(x, s, sort), sort)
  {
    if s != [] {
      if Compare(x, s[0], sort) > 0 {
        var tail := Insert(x, s[1..], sort);
        InsertSorted(x, s[1..], sort);
        InsertElements(x, s[1..], sort);
        OrderedTotalPreorder(s[0], x, x, sort);
        forall j | 0 <= j < |tail| ensures Ordered(s[0], tail[j], sort) {
          assert tail[j] in tail;
          if tail[j] != x {
            assert tail[j] in s[1..];
            var k :| 0 <= k < |s[1..]| && s[1..][k] == tail[j];
            assert s[k + 1] == tail[j];
          }
        }
        assert Insert(x, s, sort) == [s[0]] + tail;
      } else {
        forall j | 0 < j < |s| ensures Ordered(x, s[j], sort) {
          OrderedTotalPreorder(x, s[0], s[j], sort);
        }
        assert Insert(x, s, sort) == [x] + s;
      }
    }
  }

  /** The sorted copy is sorted by the comparator and holds exactly the input's tasks. */
  lemma {:induction false} SortedTasksCorrect(tasks: seq<Task>, sort: TaskSort)
    ensures SortedBy(SortedTasks(tasks, sort), sort)
    ensures multiset(SortedTasks(tasks, sort)) == multiset(tasks)
    ensures |SortedTasks(tasks, sort)| == |tasks|
  {
    if tasks != [] {
      SortedTasksCorrect(tasks[1..], sort);
      InsertSorted(tasks[0], SortedTasks(tasks[1..], sort), sort);
      InsertPermutes(tasks[0], SortedTasks(tasks[1..], sort), sort);
      assert tasks == [tasks[0]] + tasks[1..];
      assert |multiset(SortedTasks(tasks, sort))| == |multiset(tasks)|;
    }
  }

  /** Tasks without a value come after every task with one, in either direction. */
  lemma MissingValuesLast(tasks: seq<Task>, sort: TaskSort)
    ensures var r := SortedTasks(tasks, sort);
      forall i, j :: 0 <= i < j < |r| && FieldValue(r[i], sort.field).None? ==> FieldValue(r[j], sort.field).None?
  {
    SortedTasksCorrect(tasks, sort);
  }

  /** The next sort after a header click: the same ascending column turns descending, anything else ascending. */
  function ToggleSort(prev: TaskSort, field: SortField): (r: TaskSort)
    ensures r.field == field
    ensures r.direction == Desc <==> prev.field == field && prev.direction == Asc
  {
    TaskSort(field, if prev.field == field && prev.direction == Asc then Desc else Asc)
  }

  /** Clicking the current column twice restores its direction. */
  lemma ToggleTwice(prev: TaskSort)
    ensures ToggleSort(ToggleSort(prev, prev.field), prev.field) == prev
  {
  }

  class TableViewState {
    var sort: TaskSort

    constructor ()
      ensures sort == InitialSort
    {
      sort := InitialSort;
    }

    method HandleSort(field: SortField)
      modifies this
      ensures sort == ToggleSort(old(sort), field)
    {
      sort := TaskSort(field, if sort.field == field && sort.direction == Asc then Desc else Asc);
    }

    /** The rows shown: the tasks sorted by the current sort, a permutation of them. */
    function Rows(tasks: seq<Task>): (r: seq<Task>)
      reads this
      ensures SortedBy(r, sort) && multiset(r) == multiset(tasks)
    {
      SortedTasksCorrect(tasks, sort);
      SortedTasks(tasks, sort)
    }
  }
}
