/**
 * The task service: the requests the board sends to the REST resource
 * `/tasks` and the records it builds around the answers. The network is not
 * modelled: a list operation takes the server's answer as a parameter, a
 * write operation returns the request it sends, and clock readings are
 * parameters.
 */
module TaskService {
  import opened Wrappers
  import opened Constants
  import opened JsText

  /** The filter of a list request: `column=<key>` or `q=<text>`. */
  datatype ListFilter = ByColumn(column: Column) | ByText(query: string)

  /** The query string of `GET /tasks`: the filter, `_page` and `_limit`. */
  datatype ListParams = ListParams(filter: ListFilter, page: int, limit: int)

  /** The server's answer to a list request: its body and its `x-total-count` header, when sent. */
  datatype ListResponse = ListResponse(body: seq<Task>, totalCount: Option<string>)

  /**
   * The paging envelope `{data, total, page, limit}`. `total` is a JavaScript
   * number; `None` stands for NaN, what `parseInt` gives for a header that
   * holds no digits.
   */
  datatype PageResult = PageResult(data: seq<Task>, total: Option<int>, page: int, limit: int)

  /** `parseInt(header || "0")`: an absent or empty header counts as "0". */
  function TotalFromHeader(header: Option<string>): (r: Option<int>)
    ensures header.None? || header == Some("") ==> r == Some(0)
  {
    if header.None? || header.value == "" then
      ParseIntOfIntToString(0);
      assert IntToString(0) == "0";
      ParseInt("0")
    else
      ParseInt(header.value)
  }

  /** A header holding the numeral of `n` gives the total `n`. */
  lemma TotalFromNumeral(n: int)
    ensures TotalFromHeader(Some(IntToString(n))) == Some(n)
  {
    ParseIntOfIntToString(n);
  }

  /** The envelope built around a list answer, echoing the requested page and limit. */
  function Envelope(response: ListResponse, page: int, limit: int): (r: PageResult)
    ensures r.data == response.body && r.page == page && r.limit == limit
    ensures response.totalCount.None? ==> r.total == Some(0)
  {
    PageResult(response.body, TotalFromHeader(response.totalCount), page, limit)
  }

  /** `getTasksByColumn(column, page, limit)` against a server that answers `server(params)`. */
  function GetTasksByColumn(column: Column, page: int, limit: int, server: ListParams -> ListResponse): (r: PageResult)
    ensures var response := server(ListParams(ByColumn(column), page, limit));
      r.data == response.body && r.page == page && r.limit == limit
      && r.total == TotalFromHeader(response.totalCount)
  {
    Envelope(server(ListParams(ByColumn(column), page, limit)), page, limit)
  }

  /** `searchTasks(query, page, limit)` against a server that answers `server(params)`. */
  function SearchTasks(query: string, page: int, limit: int, server: ListParams -> ListResponse): (r: PageResult)
    ensures var response := server(ListParams(ByText(query), page, limit));
      r.data == response.body && r.page == page && r.limit == limit
      && r.total == TotalFromHeader(response.totalCount)
  {
    Envelope(server(ListParams(ByText(query), page, limit)), page, limit)
  }

  /** Given the same answer, the column listing and the search build the same envelope. */
  lemma ListingsShareEnvelope(column: Column, query: string, page: int, limit: int, server: ListParams -> ListResponse)
    requires server(ListParams(ByColumn(column), page, limit)) == server(ListParams(ByText(query), page, limit))
    ensures GetTasksByColumn(column, page, limit, server) == SearchTasks(query, page, limit, server)
  {
  }

  /** The body of `POST /tasks`: the form fields plus both timestamps. */
  datatype NewTask = NewTask(title: string, description: string, column: Column, createdAt: string, updatedAt: string)

  /** The body of `PUT /tasks/:id` from the form: the form fields plus a fresh `updatedAt`, no `createdAt`. */
  datatype TaskUpdate = TaskUpdate(title: string, description: string, column: Column, updatedAt: string)

  /** The write requests the service sends. */
  datatype Request =
    | Post(newTask: NewTask)
    | PutFields(id: int, update: TaskUpdate)
    | PutTask(taskId: int, task: Task)
    | Delete(deletedId: int)

  function NewTaskFields(n: NewTask): TaskFormData {
    TaskFormData(n.title, n.description, n.column)
  }

  function UpdateFields(u: TaskUpdate): TaskFormData {
    TaskFormData(u.title, u.description, u.column)
  }

  /**
   * `createTask(data)`: the two stamps come from two separate readings of the
   * clock, `createdAt` first.
   */
  function CreateTask(data: TaskFormData, createdAt: string, updatedAt: string): (r: Request)
    ensures r.Post? && NewTaskFields(r.newTask) == data
    ensures r.newTask.createdAt == createdAt && r.newTask.updatedAt == updatedAt
  {
    Post(NewTask(data.title, data.description, data.column, createdAt, updatedAt))
  }

  /** `updateTask(id, data)`: the caller's fields with `updatedAt` stamped. */
  function UpdateTask(id: int, data: TaskFormData, updatedAt: string): (r: Request)
    ensures r.PutFields? && r.id == id
    ensures UpdateFields(r.update) == data && r.update.updatedAt == updatedAt
  {
    PutFields(id, TaskUpdate(data.title, data.description, data.column, updatedAt))
  }

  /** What `deleteTask(id)` sends, and the value it resolves to. */
  datatype Deletion = Deletion(request: Request, result: int)

  function DeleteTask(id: int): (r: Deletion)
    ensures r.request == Delete(id) && r.result == id
  {
    Deletion(Delete(id), id)
  }

  /** The task the server returned, with only its column and `updatedAt` replaced. */
  function Moved(task: Task, newColumn: Column, updatedAt: string): (r: Task)
    ensures r.column == newColumn && r.updatedAt == updatedAt
    ensures r.(column := task.column, updatedAt := task.updatedAt) == task
  {
    task.(column := newColumn, updatedAt := updatedAt)
  }

  /**
   * `moveTask(id, newColumn)`: `fetched` is the answer to `GET /tasks/:id`;
   * the request is the `PUT` that writes it back.
   */
  function MoveTask(id: int, newColumn: Column, fetched: Task, updatedAt: string): (r: Request)
    ensures r.PutTask? && r.taskId == id
    ensures r.task.column == newColumn && r.task.updatedAt == updatedAt
    ensures r.task.id == fetched.id && r.task.title == fetched.title
    ensures r.task.description == fetched.description && r.task.createdAt == fetched.createdAt
  {
    PutTask(id, Moved(fetched, newColumn, updatedAt))
  }

  /** Moving twice to the same column with the same stamp is moving once. */
  lemma MoveIdempotent(task: Task, c: Column, stamp: string)
    ensures Moved(Moved(task, c, stamp), c, stamp) == Moved(task, c, stamp)
  {
  }

  /** Moving back to the original column restores the task except for its `updatedAt`. */
  lemma MoveBackRestores(task: Task, c: Column, first: string, second: string)
    ensures Moved(Moved(task, c, first), task.column, second) == task.(updatedAt := second)
  {
  }
}
