/**
 * One column of the board: which query it renders, how the rendered tasks,
 * the total and "has more" are derived from the answer, when "load more"
 * advances the column's page cursor, the drop affordance shown while a task
 * is dragged, and the button/infinite scroll switch.
 */
module ColumnComponent {
  import opened Wrappers
  import opened Constants
  import opened JsText
  import opened Seqs
  import opened TaskStore
  import opened TaskService

  /** Search mode is on when the query is not blank once trimmed. */
  predicate IsSearching(searchQuery: string) {
    Trim(searchQuery) != []
  }

  /** A query made only of white space does not put the column in search mode. */
  lemma SearchingIffNonBlank(searchQuery: string)
    ensures IsSearching(searchQuery) <==> exists i :: 0 <= i < |searchQuery| && !IsSpace(searchQuery[i])
  {
  }

  /** The page size of the search query, which reads all matches at once. */
  const SearchLimit: int := 100

  /** The request whose answer the column renders. */
  function ActiveQuery(columnKey: Column, page: int, searchQuery: string): (p: ListParams)
    ensures IsSearching(searchQuery) ==> p == ListParams(ByText(Trim(searchQuery)), 1, SearchLimit)
    ensures !IsSearching(searchQuery) ==> p == ListParams(ByColumn(columnKey), page, PageSize)
  {
    if IsSearching(searchQuery) then ListParams(ByText(Trim(searchQuery)), 1, SearchLimit)
    else ListParams(ByColumn(columnKey), page, PageSize)
  }

  /** What a column renders. */
  datatype View = View(tasks: seq<Task>, total: int, hasMore: bool)

  function OnColumn(c: Column): Task -> bool {
    (t: Task) => t.column == c
  }

  /**
   * The column's view of the active query's answer `data` (`None` while it
   * has not arrived). In search mode the column shows the results that
   * belong to it and never offers more; otherwise it shows its page and
   * offers more while the pages seen so far hold fewer tasks than the total.
   */
  function DeriveView(columnKey: Column, page: int, searchQuery: string, data: Option<PageResult>): (v: View)
    ensures data.None? ==> v == View([], 0, false)
    ensures data.Some? && IsSearching(searchQuery) ==>
      && !v.hasMore && v.total == |v.tasks|
      && (forall i :: 0 <= i < |v.tasks| ==> v.tasks[i].column == columnKey && v.tasks[i] in data.value.data)
      && (forall i :: 0 <= i < |data.value.data| && data.value.data[i].column == columnKey ==> data.value.data[i] in v.tasks)
      && (forall t :: multiset(v.tasks)[t] == if t.column == columnKey then multiset(data.value.data)[t] else 0)
    ensures data.Some? && !IsSearching(searchQuery) ==>
      && v.tasks == data.value.data
      && v.total == (if data.value.total.Some? then data.value.total.value else 0)
      && (v.hasMore <==> page * PageSize < v.total)
  {
    if data.None? then View([], 0, false)
    else if IsSearching(searchQuery) then
      FilterMultiset(OnColumn(columnKey), data.value.data);
      var tasks := Filter(OnColumn(columnKey), data.value.data);
      View(tasks, |tasks|, false)
    else
      var total := data.value.total.GetOr(0);
      View(data.value.data, total, page * PageSize < total)
  }

  /** In search mode the column's tasks keep the order of the search results. */
  lemma SearchKeepsResultOrder(columnKey: Column, page: int, searchQuery: string, data: PageResult)
    requires IsSearching(searchQuery)
    ensures IsSubsequence(DeriveView(columnKey, page, searchQuery, Some(data)).tasks, data.data)
  {
    FilterIsSubsequence(OnColumn(columnKey), data.data);
  }

  /** The number of pages a total of `total` tasks spans. */
  function PageCount(total: nat): (n: nat)
    ensures n * PageSize >= total && (n == 0 || (n - 1) * PageSize < total)
  {
    (total + PageSize - 1) / PageSize
  }

  /** Outside search mode, "has more" holds on exactly the pages before the last one. */
  lemma {:induction false} HasMoreBeforeLastPage(columnKey: Column, page: nat, searchQuery: string, data: PageResult)
    requires !IsSearching(searchQuery) && data.total.Some? && data.total.value >= 0
    ensures DeriveView(columnKey, page, searchQuery, Some(data)).hasMore <==> page < PageCount(data.total.value)
  {
    var total: nat := data.total.value;
    var n := PageCount(total);
    if page < n {
      assert page <= n - 1;
      assert page * PageSize <= (n - 1) * PageSize;
    } else {
      assert page * PageSize >= n * PageSize;
    }
  }

  /** Twelve tasks in a column: page 1 offers more, page 2 does not. */
  lemma TwelveTasksScenario(columnKey: Column, data: PageResult)
    requires data.total == Some(12)
    ensures DeriveView(columnKey, 1, "", Some(data)).hasMore
    ensures !DeriveView(columnKey, 2, "", Some(data)).hasMore
  {
  }

  /** The dragged task lies in this column. */
  predicate IsDraggedTaskInColumn(draggedTask: Option<Task>, columnKey: Column) {
    draggedTask.Some? && draggedTask.value.column == columnKey
  }

  /** The column is hovered by a dragged task from another column. */
  predicate CanDrop(isOver: bool, draggedTask: Option<Task>, columnKey: Column) {
    isOver && draggedTask.Some? && draggedTask.value.column != columnKey
  }

  /**
   * The two affordances exclude each other, and while a task is dragged every
   * hovered column shows exactly one of them.
   */
  lemma DropAffordances(isOver: bool, draggedTask: Option<Task>, columnKey: Column)
    ensures !(IsDraggedTaskInColumn(draggedTask, columnKey) && CanDrop(isOver, draggedTask, columnKey))
    ensures isOver && draggedTask.Some? ==>
      (IsDraggedTaskInColumn(draggedTask, columnKey) || CanDrop(isOver, draggedTask, columnKey))
  {
  }

  /** How further pages are requested. */
  datatype ScrollMode = ButtonMode | InfiniteMode

  function Toggled(mode: ScrollMode): (r: ScrollMode)
    ensures r != mode
  {
    if mode == ButtonMode then InfiniteMode else ButtonMode
  }

  /** Toggling twice restores the mode. */
  lemma ToggledTwice(mode: ScrollMode)
    ensures Toggled(Toggled(mode)) == mode
  {
  }

  /** A rendered column with its local state. */
  class ColumnPanel {
    const columnKey: Column
    const store: Store
    var scrollMode: ScrollMode
    var isHovered: bool

    constructor (columnKey: Column, store: Store)
      ensures this.columnKey == columnKey && this.store == store
      ensures scrollMode == ButtonMode && !isHovered
    {
      this.columnKey := columnKey;
      this.store := store;
      scrollMode := ButtonMode;
      isHovered := false;
    }

    /** The view of this column for the active query's answer `data`, in the current store state. */
    function CurrentView(data: Option<PageResult>): View
      reads store
      requires store.Valid()
    {
      DeriveView(columnKey, store.Page(columnKey), store.searchQuery, data)
    }

    /**
     * `handleLoadMore`: advances this column's cursor by one page, and only
     * when no request is loading and the current view offers more.
     */
    method HandleLoadMore(isLoading: bool, data: Option<PageResult>)
      requires store.Valid()
      modifies store
      ensures store.Valid()
      ensures !isLoading && old(CurrentView(data)).hasMore ==>
        store.State() == WithPage(old(store.State()), columnKey, old(store.Page(columnKey)) + 1)
      ensures isLoading || !old(CurrentView(data)).hasMore ==> store.State() == old(store.State())
    {
      var hasMore := CurrentView(data).hasMore;
      if !isLoading && hasMore {
        store.SetCurrentPage(columnKey, store.Page(columnKey) + 1);
      }
    }

    method ToggleScrollMode()
      modifies this
      ensures scrollMode == Toggled(old(scrollMode)) && isHovered == old(isHovered)
    {
      scrollMode := Toggled(scrollMode);
    }
  }
}
