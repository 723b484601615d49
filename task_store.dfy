/**
 * The process-wide UI store of the board: the search text, one page cursor
 * per column, the task being dragged and the task form's open/edit state.
 * Every change goes through one named mutator; each mutator replaces the
 * fields it names and leaves the others as they were.
 */
module TaskStore {
  import opened Wrappers
  import opened Constants

  /** A snapshot of every field of the store. */
  datatype StoreState = StoreState(
    searchQuery: string,
    currentPage: map<Column, int>,
    pageSize: int,
    draggedTask: Option<Task>,
    isTaskFormOpen: bool,
    editingTask: Option<Task>)

  /** Every column on page 1. */
  function FirstPages(): (m: map<Column, int>)
    ensures forall c: Column :: c in m && m[c] == 1
  {
    var m := map[Backlog := 1, InProgress := 1, Review := 1, Done := 1];
    assert forall c: Column :: c in m by {
      forall c: Column ensures c in m {
        EveryColumnIsListed(c);
      }
    }
    m
  }

  /** Every column has a page cursor. */
  ghost predicate HasAllCursors(m: map<Column, int>) {
    forall c: Column :: c in m
  }

  /** The state the store is created in. */
  function Initial(): (s: StoreState)
    ensures s.searchQuery == "" && s.pageSize == PageSize
    ensures forall c: Column :: c in s.currentPage && s.currentPage[c] == 1
    ensures s.draggedTask == None && !s.isTaskFormOpen && s.editingTask == None
  {
    StoreState("", FirstPages(), 10, None, false, None)
  }

  // The transitions, one per mutator, on snapshots.

  function WithSearchQuery(s: StoreState, query: string): (r: StoreState)
    ensures r.searchQuery == query && r.(searchQuery := s.searchQuery) == s
  {
    s.(searchQuery := query)
  }

  function WithPage(s: StoreState, column: Column, page: int): (r: StoreState)
    ensures column in r.currentPage && r.currentPage[column] == page
    ensures forall c :: c != column && c in s.currentPage ==> c in r.currentPage && r.currentPage[c] == s.currentPage[c]
    ensures r.currentPage.Keys == s.currentPage.Keys + {column}
    ensures r.(currentPage := s.currentPage) == s
  {
    s.(currentPage := s.currentPage[column := page])
  }

  function WithDraggedTask(s: StoreState, task: Option<Task>): (r: StoreState)
    ensures r.draggedTask == task && r.(draggedTask := s.draggedTask) == s
  {
    s.(draggedTask := task)
  }

  /** `openTaskForm(task = null)`: `task` is `None` for a new task. */
  function FormOpened(s: StoreState, task: Option<Task>): (r: StoreState)
    ensures r.isTaskFormOpen && r.editingTask == task
    ensures r.(isTaskFormOpen := s.isTaskFormOpen, editingTask := s.editingTask) == s
  {
    s.(isTaskFormOpen := true, editingTask := task)
  }

  function FormClosed(s: StoreState): (r: StoreState)
    ensures !r.isTaskFormOpen && r.editingTask == None
    ensures r.(isTaskFormOpen := s.isTaskFormOpen, editingTask := s.editingTask) == s
  {
    s.(isTaskFormOpen := false, editingTask := None)
  }

  function PaginationReset(s: StoreState): (r: StoreState)
    ensures forall c: Column :: c in r.currentPage && r.currentPage[c] == 1
    ensures r.(currentPage := s.currentPage) == s
  {
    s.(currentPage := FirstPages())
  }

  /** Resetting pagination twice is resetting it once. */
  lemma PaginationResetIdempotent(s: StoreState)
    ensures PaginationReset(PaginationReset(s)) == PaginationReset(s)
  {
  }

  /** Resetting pagination erases every earlier page move: the result does not depend on the cursors. */
  lemma PaginationResetForgetsPages(s: StoreState, column: Column, page: int)
    ensures PaginationReset(WithPage(s, column, page)) == PaginationReset(s)
  {
  }

  /** Setting the search text alone leaves the page cursors where they were. */
  lemma SearchQueryKeepsPages(s: StoreState, query: string)
    ensures WithSearchQuery(s, query).currentPage == s.currentPage
  {
  }

  /** The store object (`useTaskStore`). */
  class Store {
    var searchQuery: string
    var currentPage: map<Column, int>
    var pageSize: int
    var draggedTask: Option<Task>
    var isTaskFormOpen: bool
    var editingTask: Option<Task>

    function State(): StoreState
      reads this
    {
      StoreState(searchQuery, currentPage, pageSize, draggedTask, isTaskFormOpen, editingTask)
    }

    /** Every column has a cursor. */
    ghost predicate Valid()
      reads this
    {
      HasAllCursors(currentPage)
    }

    /** The page cursor of `column`. */
    function Page(column: Column): int
      reads this
      requires Valid()
    {
      currentPage[column]
    }

    constructor ()
      ensures Valid() && State() == Initial()
    {
      searchQuery := "";
      currentPage := FirstPages();
      pageSize := 10;
      draggedTask := None;
      isTaskFormOpen := false;
      editingTask := None;
    }

    method SetSearchQuery(query: string)
      requires Valid()
      modifies this
      ensures Valid() && State() == WithSearchQuery(old(State()), query)
    {
      searchQuery := query;
    }

    method SetCurrentPage(column: Column, page: int)
      requires Valid()
      modifies this
      ensures Valid() && State() == WithPage(old(State()), column, page)
    {
      currentPage := currentPage[column := page];
    }

    method SetDraggedTask(task: Option<Task>)
      requires Valid()
      modifies this
      ensures Valid() && State() == WithDraggedTask(old(State()), task)
    {
      draggedTask := task;
    }

    method OpenTaskForm(task: Option<Task>)
      requires Valid()
      modifies this
      ensures Valid() && State() == FormOpened(old(State()), task)
    {
      isTaskFormOpen := true;
      editingTask := task;
    }

    method CloseTaskForm()
      requires Valid()
      modifies this
      ensures Valid() && State() == FormClosed(old(State()))
    {
      isTaskFormOpen := false;
      editingTask := None;
    }

    method ResetPagination()
      requires Valid()
      modifies this
      ensures Valid() && State() == PaginationReset(old(State()))
    {
      currentPage := FirstPages();
    }
  }
}
