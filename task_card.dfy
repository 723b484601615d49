/**
 * A task card: its menu and keyboard handlers, which open the form on the
 * card's task or delete it after confirmation, and the "created" label that
 * buckets a task's age in whole days.
 */
module TaskCardComponent {
  import opened Wrappers
  import opened Constants
  import opened JsText
  import opened TaskStore

  /**
   * The card's "created" label for a task created `diffMs` milliseconds ago
   * (negative for a date in the future); `localeDate` is the browser's
   * locale rendering of the date, used from a week on.
   */
  function FormatRelativeTime(diffMs: int, localeDate: string): (r: string)
    ensures 0 <= diffMs < DayMs ==> r == "Today"
    ensures DayMs <= diffMs < 2 * DayMs ==> r == "Yesterday"
    ensures 2 * DayMs <= diffMs < 7 * DayMs || diffMs < 0 ==>
      exists d: int :: d * DayMs <= diffMs < (d + 1) * DayMs && r == IntToString(d) + " days ago"
    ensures 7 * DayMs <= diffMs ==> r == localeDate
  {
    var diffDays := diffMs / DayMs;
    if diffDays == 0 then "Today"
    else if diffDays == 1 then "Yesterday"
    else if diffDays < 7 then IntToString(diffDays) + " days ago"
    else localeDate
  }

  /** A date in the future is reported some number of days ago, the number being negative. */
  lemma FutureDateSaysNegativeDays(diffMs: int, localeDate: string)
    requires diffMs < 0
    ensures exists d: int :: d < 0 && FormatRelativeTime(diffMs, localeDate) == IntToString(d) + " days ago"
  {
    var d := diffMs / DayMs;
    assert d < 0;
    assert FormatRelativeTime(diffMs, localeDate) == IntToString(d) + " days ago";
  }

  class TaskCard {
    const task: Task
    const store: Store
    /** The card's menu is open (`anchorEl` is set). */
    var menuOpen: bool

    constructor (task: Task, store: Store)
      ensures this.task == task && this.store == store && !menuOpen
    {
      this.task := task;
      this.store := store;
      menuOpen := false;
    }

    method HandleMenuOpen()
      modifies this
      ensures menuOpen
    {
      menuOpen := true;
    }

    method HandleMenuClose()
      modifies this
      ensures !menuOpen
    {
      menuOpen := false;
    }

    /** `handleEdit`: the form opens on this card's task and the menu closes. */
    method HandleEdit()
      requires store.Valid()
      modifies this, store
      ensures store.Valid() && !menuOpen
      ensures store.State() == FormOpened(old(store.State()), Some(task))
    {
      store.OpenTaskForm(Some(task));
      HandleMenuClose();
    }

    /**
     * `handleDelete`: `confirmed` is the user's answer to the confirmation
     * dialog; the result is the id handed to the delete mutation, if any.
     */
    method HandleDelete(confirmed: bool) returns (deleted: Option<int>)
      modifies this
      ensures !menuOpen
      ensures deleted == if confirmed then Some(task.id) else None
    {
      deleted := None;
      if confirmed {
        deleted := Some(task.id);
      }
      HandleMenuClose();
    }

    /**
     * `handleKeyDown`: Enter or space edits, Delete deletes (after the
     * confirmation `confirmed`), any other key does nothing.
     */
    method HandleKeyDown(key: string, confirmed: bool) returns (deleted: Option<int>)
      requires store.Valid()
      modifies this, store
      ensures store.Valid()
      ensures key == "Enter" || key == " " ==>
        !menuOpen && deleted == None && store.State() == FormOpened(old(store.State()), Some(task))
      ensures key == "Delete" ==>
        !menuOpen && store.State() == old(store.State())
        && deleted == if confirmed then Some(task.id) else None
      ensures key != "Enter" && key != " " && key != "Delete" ==>
        menuOpen == old(menuOpen) && deleted == None && store.State() == old(store.State())
    {
      deleted := None;
      if key == "Enter" || key == " " {
        HandleEdit();
      }
      if key == "Delete" {
        deleted := HandleDelete(confirmed);
      }
    }
  }
}
