# Kanban board client — a Dafny model of its logic

The board is a React client for a task REST resource. Tasks sit in four
columns: backlog, in progress, review and done. Each column pages through its
tasks ten at a time, or, while a search text is entered, shows the matches
that belong to it. Tasks move between columns by drag and drop, and are
created or edited in a form dialog. Toasts report what happened.

This project models the logic behind that, one Dafny module per source file:

- `Constants` models `src/utils/constants.js`: the closed `Column` type, its wire keys, titles and order, the page size, the query keys, and the `Task` and form records.
- `TaskStore` models `src/store/taskStore.js`.
  - The store is a class with the source's fields.
  - Each mutator ensures that the new snapshot `State()` is a pure transition of the old one.
  - Each transition states that it changes its own fields and nothing else.
- `SearchBarComponent`, `ColumnComponent`, `DnDComponent`, `TaskCardComponent` and `TaskFormComponent` model the event handlers of the five components.
  - Each handler is a method on a class that holds the component's local state.
  - A handler changes the store only through the store's own mutators.
  - The pure decisions inside the handlers are functions. Examples are the view a column derives, the move a drop dispatches, the errors the form records and the submission it routes.
- `TaskService` models `src/services/taskService.js`. The network is a parameter:
  - a listing takes the server's answer as a function of the request;
  - a write returns the request it sends;
  - clock readings are arguments.
- `Notifications` models `src/store/notificationStore.js`, a class over a list of toasts. `UseNotification` models the input builders of `src/hooks/useNotification.js`.
- `Performance` models the pure helpers of `src/utils/performance.js`.
- `JsText`, `Seqs` and `Wrappers` model the JavaScript built-ins the logic relies on:
  - `trim`, `toLowerCase`, `includes`, `parseInt` and `${n}`;
  - `Array.prototype.filter`;
  - `null`/`undefined` as `Option`.

## Model

| member | source | states |
|---|---|---|
| `JsText.Trim` | src/components/Column/Column.jsx:39 | the trimmed text neither starts nor ends with white space, and is empty exactly when the text is all white space |
| `JsText.TrimIsInfix` | src/components/Column/Column.jsx:39 | the trimmed text equals, character for character, the slice of the input that starts where its leading white space ends, and only white space follows that slice |
| `JsText.Lower` | src/utils/performance.js:22 | each character of the result is the lower-case form of the input's character at the same index, so the length is kept and no upper-case ASCII letter is left |
| `JsText.LowerIdempotent` | src/utils/performance.js:22-26 | lower-casing twice is lower-casing once |
| `JsText.IncludesIffOccurs` | src/utils/performance.js:25-26 | `includes` holds exactly when the query occurs at some position of the text |
| `JsText.Includes` | src/utils/performance.js:25-26 | `includes`: the query is a prefix of the text or of one of its suffixes |
| `JsText.NatToString` | src/components/Task/TaskCard.jsx:95 | the rendering of a natural number is a non-empty string of decimal digits with no leading zero |
| `JsText.DigitsValueOfNumeral` | src/components/Task/TaskCard.jsx:95 | the decimal digits rendered for a natural number have that number as their value |
| `JsText.IntToString` | src/components/Task/TaskCard.jsx:95 | the rendering of an integer is non-empty and starts with a digit or a minus sign |
| `JsText.ParseInt` | src/services/taskService.js:19 | `parseInt` is NaN exactly when no digit follows the leading white space and sign |
| `JsText.ParseIntOfIntToString` | src/services/taskService.js:19 | parsing the decimal rendering of any integer gives that integer back |
| `JsText.ParseIntOfBlank` | src/services/taskService.js:19 | a text of white space alone parses to NaN |
| `Seqs.Filter` | src/components/Column/Column.jsx:52 | the kept elements satisfy the predicate and come from the input, and every input element that satisfies it is kept |
| `Seqs.FilterCount` | src/components/Column/Column.jsx:52 | filtering keeps every copy of an element that passes and no copy of one that fails |
| `Seqs.FilterMultiset` | src/components/Column/Column.jsx:52 | the same count fact for every element at once |
| `Seqs.FilterIsSubsequence` | src/components/Column/Column.jsx:52 | filtering keeps the input's order |
| `Seqs.FilterAppend` | src/store/notificationStore.js:19-36 | filtering a concatenation filters each part |
| `Seqs.FilterKeepsAll` | src/store/notificationStore.js:34 | a filter every element passes returns the input itself |
| `Seqs.FilterFilter` | src/utils/performance.js:23-34 | two filters in a row are one filter on the conjunction |
| `Constants.ParseColumn` | src/utils/constants.js:3-8 | a wire key names at most one column, and each column is found from its key |
| `Constants.Key` | src/utils/constants.js:3-8 | the wire key of each column |
| `Constants.Title` | src/utils/constants.js:10-15 | the heading of each column |
| `Constants.Position` | src/utils/constants.js:17-22 | each column stands at exactly one index of the column order |
| `Constants.ColumnOrderIsEnumeration` | src/utils/constants.js:17-22 | the column order has four entries and lists every column exactly once |
| `Constants.EveryColumnIsListed` | src/utils/constants.js:3-8 | a column is one of backlog, in progress, review and done |
| `Constants.KeysAndTitlesDistinct` | src/utils/constants.js:3-15 | different columns have different keys and different titles |
| `Constants.QueryKeysDistinct` | src/utils/constants.js:26-29 | the two query keys differ |
| `TaskStore.FirstPages` | src/store/taskStore.js:8-13 | every column's cursor is page 1 |
| `TaskStore.Initial` | src/store/taskStore.js:7-17 | the store starts with an empty query, every cursor on page 1, page size 10, no dragged task, and the form closed with no task |
| `TaskStore.WithSearchQuery` | src/store/taskStore.js:19 | only the search text changes |
| `TaskStore.WithPage` | src/store/taskStore.js:21-27 | only the given column's cursor changes, to the given page; the other cursors and fields are kept |
| `TaskStore.WithDraggedTask` | src/store/taskStore.js:29 | only the dragged task changes |
| `TaskStore.FormOpened` | src/store/taskStore.js:31-35 | the form opens on the given task, or on none for a new task; nothing else changes |
| `TaskStore.FormClosed` | src/store/taskStore.js:37-41 | the form closes and forgets its task; nothing else changes |
| `TaskStore.PaginationReset` | src/store/taskStore.js:43-51 | every cursor goes back to page 1 whatever it was; nothing else changes |
| `TaskStore.PaginationResetIdempotent` | src/store/taskStore.js:43-51 | resetting twice is resetting once |
| `TaskStore.PaginationResetForgetsPages` | src/store/taskStore.js:43-51 | a reset erases any earlier cursor move |
| `TaskStore.SearchQueryKeepsPages` | src/store/taskStore.js:19 | setting the search text does not by itself reset pagination |
| `TaskStore.Store.constructor` | src/store/taskStore.js:7-17 | a new store is in the initial state |
| `TaskStore.Store.SetSearchQuery` | src/store/taskStore.js:19 | the store takes the search-text transition |
| `TaskStore.Store.SetCurrentPage` | src/store/taskStore.js:21-27 | the store takes the one-cursor transition, and every column keeps a cursor |
| `TaskStore.Store.SetDraggedTask` | src/store/taskStore.js:29 | the store takes the dragged-task transition |
| `TaskStore.Store.OpenTaskForm` | src/store/taskStore.js:31-35 | the store takes the form-opened transition |
| `TaskStore.Store.CloseTaskForm` | src/store/taskStore.js:37-41 | the store takes the form-closed transition |
| `TaskStore.Store.ResetPagination` | src/store/taskStore.js:43-51 | the store takes the pagination-reset transition |
| `TaskService.TotalFromHeader` | src/services/taskService.js:19 | an absent or empty total header counts as a total of 0 |
| `TaskService.TotalFromNumeral` | src/services/taskService.js:19 | a header holding the numeral of n gives the total n |
| `TaskService.Envelope` | src/services/taskService.js:17-22 | the envelope carries the answer's tasks and echoes the requested page and limit; a missing header gives total 0 |
| `TaskService.GetTasksByColumn` | src/services/taskService.js:9-23 | the column listing asks for that column's page and wraps the answer in the envelope |
| `TaskService.SearchTasks` | src/services/taskService.js:25-39 | the search asks for the text's page and wraps the answer in the same envelope |
| `TaskService.ListingsShareEnvelope` | src/services/taskService.js:9-39 | given the same answer, the column listing and the search build the same envelope |
| `TaskService.CreateTask` | src/services/taskService.js:41-48 | the posted task carries the caller's fields unchanged plus both timestamps |
| `TaskService.UpdateTask` | src/services/taskService.js:51-57 | the put carries the caller's fields with `updatedAt` stamped, to the given id |
| `TaskService.DeleteTask` | src/services/taskService.js:60-63 | the delete targets the given id and resolves to that id |
| `TaskService.Moved` | src/services/taskService.js:69-73 | only the column and `updatedAt` of the fetched task change |
| `TaskService.MoveTask` | src/services/taskService.js:65-76 | the put writes the fetched task back to its id with the new column and stamp and every other field unchanged |
| `TaskService.MoveIdempotent` | src/services/taskService.js:69-73 | repeating the same move changes nothing more |
| `TaskService.MoveBackRestores` | src/services/taskService.js:69-73 | moving back to the original column restores the task but for its stamp |
| `ColumnComponent.SearchingIffNonBlank` | src/components/Column/Column.jsx:39-42 | a column is in search mode exactly when the query has a non-white-space character |
| `ColumnComponent.IsSearching` | src/components/Column/Column.jsx:39-42 | search mode: the trimmed query is not empty |
| `ColumnComponent.ActiveQuery` | src/components/Column/Column.jsx:38-44 | in search mode the column reads the trimmed text's first 100 matches, otherwise its own page of 10 |
| `ColumnComponent.DeriveView` | src/components/Column/Column.jsx:46-59 | no data shows nothing; search mode shows this column's matches, each as many times as it occurs in the results and nothing else, counts them and offers no more; normal mode shows the page, the total (0 if missing) and offers more while page × 10 < total |
| `ColumnComponent.SearchKeepsResultOrder` | src/components/Column/Column.jsx:52 | search mode keeps the order of the results |
| `ColumnComponent.PageCount` | src/components/Column/Column.jsx:57 | the number of pages of 10 needed to hold a total |
| `ColumnComponent.HasMoreBeforeLastPage` | src/components/Column/Column.jsx:57 | outside search mode, more is offered exactly on the pages before the last one |
| `ColumnComponent.TwelveTasksScenario` | src/components/Column/Column.jsx:55-57 | with a total of 12, page 1 offers more and page 2 does not |
| `ColumnComponent.IsDraggedTaskInColumn` | src/components/Column/Column.jsx:73 | a task is dragged and it lies in this column |
| `ColumnComponent.CanDrop` | src/components/Column/Column.jsx:74 | the column is hovered while a task from another column is dragged |
| `ColumnComponent.DropAffordances` | src/components/Column/Column.jsx:73-74 | "dragged from here" and "can drop" never hold together, and one of them holds while a task hovers the column |
| `ColumnComponent.Toggled` | src/components/Column/Column.jsx:76-78 | toggling changes the scroll mode |
| `ColumnComponent.ToggledTwice` | src/components/Column/Column.jsx:76-78 | toggling twice restores the mode |
| `ColumnComponent.ColumnPanel.constructor` | src/components/Column/Column.jsx:27-28 | a column starts in button mode and not hovered |
| `ColumnComponent.ColumnPanel.HandleLoadMore` | src/components/Column/Column.jsx:61-65 | this column's cursor advances by exactly one page when nothing is loading and more is offered, and nothing changes otherwise |
| `ColumnComponent.ColumnPanel.ToggleScrollMode` | src/components/Column/Column.jsx:76-78 | the scroll mode toggles and the hover flag is kept |
| `SearchBarComponent.ActiveFilters` | src/components/SearchBar/SearchBar.jsx:59 | a filter is active when the untrimmed query is non-empty or a column is chosen |
| `SearchBarComponent.BlankQueryIsActiveButNotSearch` | src/components/SearchBar/SearchBar.jsx:59 | every non-empty query made of white space alone counts as an active filter although no column searches for it |
| `SearchBarComponent.SearchBar.constructor` | src/components/SearchBar/SearchBar.jsx:37 | the column filter starts at "all" |
| `SearchBarComponent.SearchBar.HasActiveFilters` | src/components/SearchBar/SearchBar.jsx:59 | `hasActiveFilters` of the store's query and the bar's filter |
| `SearchBarComponent.SearchBar.HandleSearchChange` | src/components/SearchBar/SearchBar.jsx:39-42 | the new text is stored, then every cursor goes back to page 1 |
| `SearchBarComponent.SearchBar.HandleClearSearch` | src/components/SearchBar/SearchBar.jsx:44-48 | empty text, filter "all", every cursor on page 1, and no active filter afterwards |
| `SearchBarComponent.SearchBar.HandleFilterChange` | src/components/SearchBar/SearchBar.jsx:54-57 | the filter takes the choice and every cursor goes back to page 1 |
| `SearchBarComponent.SearchBar.ClearQueryOnly` | src/components/SearchBar/SearchBar.jsx:84 | the text empties and the cursors stay where they were |
| `SearchBarComponent.SearchBar.DeleteColumnChip` | src/components/SearchBar/SearchBar.jsx:158 | the filter goes back to "all" and the store is untouched |
| `SearchBarComponent.SearchBar.HandleCreateTask` | src/components/SearchBar/SearchBar.jsx:50-52 | the form opens for a new task |
| `DnDComponent.Destination` | src/components/DnD/DnDProvider.jsx:58-64 | the drop zone's column wins over the hovered task's column, and with neither the task stays in its column |
| `DnDComponent.DragEndMove` | src/components/DnD/DnDProvider.jsx:44-72 | no target or no dragged task moves nothing; otherwise a move of the task's id is dispatched exactly when the destination differs from its column |
| `DnDComponent.DropOnOwnColumnMovesNothing` | src/components/DnD/DnDProvider.jsx:58-66 | a drop on the task's own column, or on a task of it, moves nothing |
| `DnDComponent.CanDropThenMoves` | src/components/DnD/DnDProvider.jsx:60-71 | a column showing "can drop" receives the task when the drop lands on it |
| `DnDComponent.DispatchedMoveRequest` | src/components/DnD/DnDProvider.jsx:66-71 | the dispatched move writes the task back to its id in the destination column |
| `DnDComponent.DnDProvider.constructor` | src/components/DnD/DnDProvider.jsx:22 | no task is being dragged at first |
| `DnDComponent.DnDProvider.HandleDragStart` | src/components/DnD/DnDProvider.jsx:37-42 | the same task becomes the overlay's task and the store's dragged task |
| `DnDComponent.DnDProvider.HandleDragEnd` | src/components/DnD/DnDProvider.jsx:44-72 | both records are cleared whatever happens, and the dispatched move is the drag-end decision |
| `TaskCardComponent.FormatRelativeTime` | src/components/Task/TaskCard.jsx:87-97 | under a day is "Today", the next day "Yesterday", a whole number of days under a week or in the future "N days ago", and from a week on the locale date |
| `TaskCardComponent.FutureDateSaysNegativeDays` | src/components/Task/TaskCard.jsx:95 | a date in the future is labelled with a negative number of days |
| `TaskCardComponent.TaskCard.constructor` | src/components/Task/TaskCard.jsx:25 | a card starts with its menu closed |
| `TaskCardComponent.TaskCard.HandleMenuOpen` | src/components/Task/TaskCard.jsx:55-58 | the menu opens |
| `TaskCardComponent.TaskCard.HandleMenuClose` | src/components/Task/TaskCard.jsx:60-62 | the menu closes |
| `TaskCardComponent.TaskCard.HandleEdit` | src/components/Task/TaskCard.jsx:64-67 | the form opens on this card's task and the menu closes |
| `TaskCardComponent.TaskCard.HandleDelete` | src/components/Task/TaskCard.jsx:69-74 | the task's id is deleted only when confirmed, and the menu closes either way |
| `TaskCardComponent.TaskCard.HandleKeyDown` | src/components/Task/TaskCard.jsx:76-85 | Enter or space edits, Delete deletes after confirmation, and any other key changes nothing |
| `TaskFormComponent.Updated` | src/components/TaskForm/TaskForm.jsx:46-50 | the edited field takes the new value and the other two are kept |
| `TaskFormComponent.FormFor` | src/components/TaskForm/TaskForm.jsx:29-42 | the form copies the edited task's title, description and column, or is blank on backlog |
| `TaskFormComponent.BlankFieldErrors` | src/components/TaskForm/TaskForm.jsx:59-66 | an error is recorded for each blank field with its message, and never for the column |
| `TaskFormComponent.RequiredErrors` | src/components/TaskForm/TaskForm.jsx:59-66 | the title shows an error exactly when it trims to empty, likewise the description, and the column never does |
| `TaskFormComponent.StepwiseErrors` | src/components/TaskForm/TaskForm.jsx:59-68 | adding the errors one field at a time builds the same map, which is empty exactly when neither field is blank |
| `TaskFormComponent.IsValid` | src/components/TaskForm/TaskForm.jsx:67-68 | the form is valid when no error is recorded |
| `TaskFormComponent.ValidIffFilled` | src/components/TaskForm/TaskForm.jsx:67-68 | the form is valid exactly when neither the title nor the description trims to empty |
| `TaskFormComponent.SubmitDecision` | src/components/TaskForm/TaskForm.jsx:71-83 | an invalid form sends nothing; a valid one sends its data as an update of the edited task's id, or as a creation |
| `TaskFormComponent.TaskForm.constructor` | src/components/TaskForm/TaskForm.jsx:21-27 | the form starts blank on backlog with no errors |
| `TaskFormComponent.TaskForm.ResetFromStore` | src/components/TaskForm/TaskForm.jsx:29-44 | the form takes the contents for the store's edited task, and the errors are cleared |
| `TaskFormComponent.TaskForm.HandleChange` | src/components/TaskForm/TaskForm.jsx:46-57 | only the edited field changes; its error, if shown, is emptied, and the other errors are kept |
| `TaskFormComponent.TaskForm.ValidateForm` | src/components/TaskForm/TaskForm.jsx:59-69 | the errors become those of the current data, and the answer is whether both text fields are filled |
| `TaskFormComponent.TaskForm.HandleSubmit` | src/components/TaskForm/TaskForm.jsx:71-83 | the form validates, then sends what the submit routing decides |
| `TaskFormComponent.TaskForm.HandleClose` | src/components/TaskForm/TaskForm.jsx:85-89 | the dialog closes only when no creation or update is in flight |
| `Notifications.WithDefaults` | src/store/notificationStore.js:10-17 | a notification is info, hides itself, lasts 4000 ms, and each key the input carries overrides its default |
| `Notifications.Without` | src/store/notificationStore.js:32-36 | no kept notification has the id, and every other notification is kept as many times as it occurs |
| `Notifications.WithoutKeepsOrder` | src/store/notificationStore.js:34 | removal keeps the other notifications in order |
| `Notifications.WithoutAbsent` | src/store/notificationStore.js:32-36 | removing an id that is not shown changes nothing |
| `Notifications.WithoutIdempotent` | src/store/notificationStore.js:32-36 | removing an id twice is removing it once |
| `Notifications.AddThenRemove` | src/store/notificationStore.js:9-36 | adding under a fresh id and then removing that id restores the list |
| `Notifications.NotificationStore.constructor` | src/store/notificationStore.js:7 | the list starts empty |
| `Notifications.NotificationStore.Add` | src/store/notificationStore.js:9-30 | the notification with its defaults is appended after the others, its id is returned, and a removal timer for its duration is scheduled exactly when it hides itself |
| `Notifications.NotificationStore.Remove` | src/store/notificationStore.js:32-36 | every notification with the id leaves the list and the others stay in order |
| `Notifications.NotificationStore.Fire` | src/store/notificationStore.js:24-26 | a timer going off removes its notification's id |
| `Notifications.NotificationStore.ClearAll` | src/store/notificationStore.js:38 | the list becomes empty |
| `UseNotification.ShowSuccess` | src/hooks/useNotification.js:8-14 | a success toast with the message that hides after 4000 ms |
| `UseNotification.ShowError` | src/hooks/useNotification.js:16-22 | an error toast with the message that still hides, after 6000 ms |
| `UseNotification.ShowWarning` | src/hooks/useNotification.js:24-30 | a warning toast with the message that hides after 5000 ms |
| `UseNotification.ShowInfo` | src/hooks/useNotification.js:32-38 | an info toast with the message that hides after 4000 ms |
| `UseNotification.ShowPersistent` | src/hooks/useNotification.js:40-46 | a toast that does not hide, of the given kind or else info |
| `UseNotification.ErrorsOutlastOthers` | src/hooks/useNotification.js:8-38 | errors stay longest, then warnings, then success and info alike |
| `UseNotification.OnlyPersistentHasNoTimer` | src/hooks/useNotification.js:8-46 | every helper but the persistent one adds a toast that hides itself |
| `Performance.MatchesQuery` | src/utils/performance.js:24-26 | the lower-cased title or description contains the query |
| `Performance.InColumn` | src/utils/performance.js:32 | the task's column key equals the filter |
| `Performance.FiltersColumn` | src/utils/performance.js:30 | a column filter is in force unless it is empty or "all" |
| `Performance.Kept` | src/utils/performance.js:21-34 | the task passes the query and the column filter in force |
| `Performance.MemoizedTasks` | src/utils/performance.js:15-38 | absent tasks give none; each kept task comes from the input and passes the query and column filters in force; each input task passing them is kept, as many times as it occurs |
| `Performance.MemoizedUnfiltered` | src/utils/performance.js:19-36 | with no query and no column filter the tasks come back unchanged |
| `Performance.MemoizedKeepsOrder` | src/utils/performance.js:23-34 | the result keeps the input's order |
| `Performance.IsSubsequenceReflexive` | src/utils/performance.js:19 | the unfiltered list is in its own order |
| `Performance.CeilDiv` | src/utils/performance.js:45 | the least number of rows whose height covers the container |
| `Performance.VirtualWindow` | src/utils/performance.js:43-51 | the window ends within the list, shows the rows from start to end, is placed at start × row height (the row under the scroll position), and has at most one row more than fits |
| `Performance.WindowCoversViewport` | src/utils/performance.js:43-49 | every row overlapping the viewport is rendered, and the rows before the window are wholly above it |
| `Performance.FormatRelativeTime` | src/utils/performance.js:61-73 | the label counts whole days if any, else whole hours, else whole minutes, else says "Just now", which is also what a future date gets |
| `Performance.AgoPlural` | src/utils/performance.js:68-71 | the unit is singular for a count of one and plural above |

## Left out

- HTTP is not modelled. That covers axios, `api.js`, the smoke script, the query wiring of `useTasks.js` (caching and invalidation) and the server's answers. A listing takes the answer as a parameter, and a write returns the request it would send.
- `moveTask` reads the task and then writes it back. Another client could write in between; that race is concurrency and is not modelled.
- Timers are events. `setTimeout` in the notification store is the `Timer` value that `Add` returns, and `Fire` is its expiry. `useDebounce` is not part of this model.
- Clocks and randomness are parameters: `new Date()`, `toISOString`, and the `Date.now() + Math.random()` notification ids. A notification id is an integer here, and the model cannot tell whether two ids collide.
- `toLocaleDateString` is an opaque string parameter.
- A timestamp that does not parse (Invalid Date, a NaN difference) is not modelled. Time differences are whole milliseconds.
- `JsText.Lower`: only ASCII letters are folded, not the rest of Unicode.
- `JsText.ParseInt`: the `0x` hexadecimal prefix is not modelled, and numbers are unbounded integers rather than doubles.
- `Performance.VirtualWindow`: heights and the scroll offset are natural numbers with a positive row height, not fractional pixels. The hooks around the arithmetic are not modelled (`useState` and `useRef` are not imported in that file).
- Browser and library behaviour is not modelled. That covers the `IntersectionObserver` of infinite scrolling, the dnd-kit sensors and collision detection, and what `window.confirm` answers (a parameter).
- Presentation is not modelled: theme, skeletons, layout, board, app shell, notification renderer, error boundary and the JSX markup.
- `getAllTasks` is not modelled: it returns the server's body unchanged.
- Default arguments (`page = 1`, `limit = 10`) are not modelled. Callers pass both.
- Columns are the closed `Column` type. A task whose `column` is some other string cannot be represented. The same goes for a search-bar filter value other than "all" or a column key.
- `ColumnComponent.DeriveView` treats the listing's `data` as always an array, so `data.data || []` is that array.
- `Notifications.WithDefaults` never has the caller's input override `id`. No caller passes one.
- The search bar's column filter is local to the search bar. No column reads it, so columns filter by search text only.
