/**
 * The search bar: its handlers write the search text to the store and keep a
 * column filter of their own; changing the text or the filter through the
 * main controls sends every column back to page 1, while the small clear
 * icon and the chips' delete buttons do not.
 */
module SearchBarComponent {
  import opened Wrappers
  import opened Constants
  import opened TaskStore
  import opened JsText
  import ColumnComponent

  /** The column filter select: "all" or one column. */
  datatype ColumnFilter = AllColumns | OnlyColumn(column: Column)

  /** `hasActiveFilters`: some search text (not trimmed) or a column filter. */
  predicate ActiveFilters(searchQuery: string, filter: ColumnFilter) {
    |searchQuery| > 0 || filter != AllColumns
  }

  /**
   * A query of white space alone counts as an active filter here, although
   * no column treats it as a search.
   */
  lemma BlankQueryIsActiveButNotSearch(q: string)
    requires |q| > 0 && forall i :: 0 <= i < |q| ==> IsSpace(q[i])
    ensures ActiveFilters(q, AllColumns) && !ColumnComponent.IsSearching(q)
  {
  }

  class SearchBar {
    const store: Store
    var filterColumn: ColumnFilter

    constructor (store: Store)
      ensures this.store == store && filterColumn == AllColumns
    {
      this.store := store;
      filterColumn := AllColumns;
    }

    predicate HasActiveFilters()
      reads this, store
    {
      ActiveFilters(store.searchQuery, filterColumn)
    }

    /** Typing in the search box: the new text, then every column back to page 1. */
    method HandleSearchChange(value: string)
      requires store.Valid()
      modifies store
      ensures store.Valid()
      ensures store.State() == PaginationReset(WithSearchQuery(old(store.State()), value))
    {
      store.SetSearchQuery(value);
      store.ResetPagination();
    }

    /** The "Clear" button: no text, no column filter, every column on page 1. */
    method HandleClearSearch()
      requires store.Valid()
      modifies this, store
      ensures store.Valid() && filterColumn == AllColumns
      ensures store.State() == PaginationReset(WithSearchQuery(old(store.State()), ""))
      ensures !HasActiveFilters()
    {
      store.SetSearchQuery("");
      filterColumn := AllColumns;
      store.ResetPagination();
    }

    /** Choosing a column in the filter select, then every column back to page 1. */
    method HandleFilterChange(filter: ColumnFilter)
      requires store.Valid()
      modifies this, store
      ensures store.Valid() && filterColumn == filter
      ensures store.State() == PaginationReset(old(store.State()))
    {
      filterColumn := filter;
      store.ResetPagination();
    }

    /** The clear icon in the search box and the delete button of the search chip: the text only. */
    method ClearQueryOnly()
      requires store.Valid()
      modifies store
      ensures store.Valid() && store.State() == WithSearchQuery(old(store.State()), "")
    {
      store.SetSearchQuery("");
    }

    /** The delete button of the column chip: the filter only, pages untouched. */
    method DeleteColumnChip()
      modifies this
      ensures filterColumn == AllColumns
    {
      filterColumn := AllColumns;
    }

    /** The "new task" button. */
    method HandleCreateTask()
      requires store.Valid()
      modifies store
      ensures store.Valid() && store.State() == FormOpened(old(store.State()), None)
    {
      store.OpenTaskForm(None);
    }
  }
}
