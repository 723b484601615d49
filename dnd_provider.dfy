/**
 * The drag-and-drop controller: drag start records the dragged task, drag
 * end clears it and decides whether to move the task, and to which column.
 */
module DnDComponent {
  import opened Wrappers
  import opened Constants
  import opened TaskStore
  import opened TaskService
  import ColumnComponent

  /**
   * What the element under the mouse carries: a column drop zone carries
   * its column, a task card carries its task; `None` where it carries none.
   */
  datatype DropTarget = DropTarget(column: Option<Column>, task: Option<Task>)

  /** The argument of the move mutation. */
  datatype MoveRequest = MoveRequest(id: int, newColumn: Column)

  /** The column a drop on `target` aims at: the zone's column first, then the hovered task's, else `current`. */
  function Destination(current: Column, target: DropTarget): (c: Column)
    ensures target.column.Some? ==> c == target.column.value
    ensures target.column.None? && target.task.Some? ==> c == target.task.value.column
    ensures target.column.None? && target.task.None? ==> c == current
  {
    if target.column.Some? then target.column.value
    else if target.task.Some? then target.task.value.column
    else current
  }

  /**
   * The move a drag end dispatches, if any: `active` is the dragged task the
   * event reports and `over` the drop target, `None` outside any target.
   */
  function DragEndMove(active: Option<Task>, over: Option<DropTarget>): (m: Option<MoveRequest>)
    ensures active.None? || over.None? ==> m.None?
    ensures active.Some? && over.Some? ==>
      (m.Some? <==> Destination(active.value.column, over.value) != active.value.column)
    ensures m.Some? ==> m.value.id == active.value.id && m.value.newColumn != active.value.column
    ensures m.Some? && over.value.column.Some? ==> m.value.newColumn == over.value.column.value
    ensures m.Some? && over.value.column.None? ==> over.value.task.Some? && m.value.newColumn == over.value.task.value.column
  {
    if over.None? || active.None? then None
    else
      var newColumn := Destination(active.value.column, over.value);
      if newColumn != active.value.column then Some(MoveRequest(active.value.id, newColumn)) else None
  }

  /** A drop on the dragged task's own column, or on a task of that column, moves nothing. */
  lemma DropOnOwnColumnMovesNothing(task: Task, over: DropTarget)
    requires over.column == Some(task.column) || (over.column.None? && over.task.Some? && over.task.value.column == task.column)
    ensures DragEndMove(Some(task), Some(over)) == None
  {
  }

  /**
   * A column that shows the "can drop" affordance receives the task when the
   * drop lands on it, whatever task lies under the mouse there.
   */
  lemma CanDropThenMoves(task: Task, columnKey: Column, overTask: Option<Task>)
    requires ColumnComponent.CanDrop(true, Some(task), columnKey)
    ensures DragEndMove(Some(task), Some(DropTarget(Some(columnKey), overTask))) == Some(MoveRequest(task.id, columnKey))
  {
  }

  /** The dispatched move writes the task back with the destination column and nothing else changed but the stamp. */
  lemma DispatchedMoveRequest(active: Task, over: DropTarget, fetched: Task, stamp: string)
    requires DragEndMove(Some(active), Some(over)).Some?
    ensures var m := DragEndMove(Some(active), Some(over)).value;
      var r := MoveTask(m.id, m.newColumn, fetched, stamp);
      r.taskId == active.id && r.task.column == Destination(active.column, over) && r.task.column != active.column
  {
  }

  class DnDProvider {
    const store: Store
    var activeTask: Option<Task>

    constructor (store: Store)
      ensures this.store == store && activeTask == None
    {
      this.store := store;
      activeTask := None;
    }

    /** `handleDragStart`: the same task becomes the overlay's task and the store's dragged task. */
    method HandleDragStart(task: Option<Task>)
      requires store.Valid()
      modifies this, store
      ensures store.Valid()
      ensures activeTask == task && store.State() == WithDraggedTask(old(store.State()), task)
      ensures store.draggedTask == activeTask
    {
      activeTask := task;
      store.SetDraggedTask(task);
    }

    /** `handleDragEnd`: both records are cleared first, then the move, if any, is dispatched. */
    method HandleDragEnd(active: Option<Task>, over: Option<DropTarget>) returns (move: Option<MoveRequest>)
      requires store.Valid()
      modifies this, store
      ensures store.Valid()
      ensures activeTask == None && store.State() == WithDraggedTask(old(store.State()), None)
      ensures move == DragEndMove(active, over)
    {
      activeTask := None;
      store.SetDraggedTask(None);
      if over.None? || active.None? {
        return None;
      }
      var task := active.value;
      var newColumn := task.column;
      if over.value.column.Some? {
        newColumn := over.value.column.value;
      } else if over.value.task.Some? {
        newColumn := over.value.task.value.column;
      }
      move := if newColumn != task.column then Some(MoveRequest(task.id, newColumn)) else None;
    }
  }
}
