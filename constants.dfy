/**
 * The board's shared vocabulary: the closed set of columns with their wire
 * keys, titles and display order, the page size, the query-cache keys, and
 * the Task and task-form records.
 */
module Constants {
  import opened Wrappers

  /** The four columns of the board. */
  datatype Column = Backlog | InProgress | Review | Done

  /** The wire value of a column (`COLUMNS`), as sent to and read from the REST API. */
  function Key(c: Column): string {
    match c
    case Backlog => "backlog"
    case InProgress => "in_progress"
    case Review => "review"
    case Done => "done"
  }

  /** The heading shown for a column (`COLUMN_TITLES`). */
  function Title(c: Column): string {
    match c
    case Backlog => "Backlog"
    case InProgress => "In Progress"
    case Review => "Review"
    case Done => "Done"
  }

  /** The column whose wire key is `s`, if any. */
  function ParseColumn(s: string): (r: Option<Column>)
    ensures r.Some? ==> Key(r.value) == s
    ensures forall c :: Key(c) == s ==> r == Some(c)
  {
    if s == "backlog" then Some(Backlog)
    else if s == "in_progress" then Some(InProgress)
    else if s == "review" then Some(Review)
    else if s == "done" then Some(Done)
    else None
  }

  /** `COLUMN_ORDER`: the left-to-right order of the board. */
  const ColumnOrder: seq<Column> := [Backlog, InProgress, Review, Done]

  /** Where a column stands in `ColumnOrder`. */
  function Position(c: Column): (i: nat)
    ensures i < |ColumnOrder| && ColumnOrder[i] == c
    ensures forall j :: 0 <= j < |ColumnOrder| && ColumnOrder[j] == c ==> j == i
  {
    match c
    case Backlog => 0
    case InProgress => 1
    case Review => 2
    case Done => 3
  }

  /** `ColumnOrder` lists every column exactly once. */
  lemma ColumnOrderIsEnumeration()
    ensures |ColumnOrder| == 4
    ensures forall c: Column :: multiset(ColumnOrder)[c] == 1
  {
    forall c: Column ensures multiset(ColumnOrder)[c] == 1 {
      var i := Position(c);
      var before, after := ColumnOrder[..i], ColumnOrder[i + 1..];
      assert ColumnOrder == before + [c] + after;
      assert c !in before && c !in after;
    }
  }

  /** Each column is one of the four. */
  lemma EveryColumnIsListed(c: Column)
    ensures c == Backlog || c == InProgress || c == Review || c == Done
  {
  }

  /** Different columns have different wire keys and different titles. */
  lemma KeysAndTitlesDistinct(c: Column, d: Column)
    requires c != d
    ensures Key(c) != Key(d) && Title(c) != Title(d)
  {
  }

  /** `PAGE_SIZE`: tasks fetched per page of a column. */
  const PageSize: nat := 10

  /** `QUERY_KEYS`: the two roots of the query cache. */
  const TasksQueryKey: string := "tasks"
  const TasksByColumnQueryKey: string := "tasksByColumn"

  lemma QueryKeysDistinct()
    ensures TasksQueryKey != TasksByColumnQueryKey
  {
  }

  /** Milliseconds in a minute, an hour and a day: the units of the "time ago" labels. */
  const MinuteMs: int := 60000
  const HourMs: int := 3600000
  const DayMs: int := 86400000

  /** A task as the REST resource stores it. */
  datatype Task = Task(
    id: int,
    title: string,
    description: string,
    column: Column,
    createdAt: string,
    updatedAt: string)

  /** The fields a user edits in the task form. */
  datatype TaskFormData = TaskFormData(title: string, description: string, column: Column)
}
