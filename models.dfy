/**
 * The persisted records of the scraper: the task status enumeration, the
 * `scraping_tasks` and `scraping_results` rows, and the ownership of results
 * by their task (cascade delete).
 */
module Models {
  import opened Wrappers

  /** Opaque instant; `datetime.utcnow()` is supplied by the caller. */
  type Timestamp = int

  // ---------------------------------------------------------------- status

  /** The four lifecycle states of a task. */
  datatype TaskStatus = Pending | InProgress | Completed | Failed

  /** Width of the `status` column (`String(20)`). */
  const StatusColumnWidth := 20

  /** The string stored in the `status` column for each state. */
  function StatusValue(s: TaskStatus): (v: string)
    ensures 0 < |v| <= StatusColumnWidth
  {
    match s
    case Pending => "pending"
    case InProgress => "in_progress"
    case Completed => "completed"
    case Failed => "failed"
  }

  /** Reads a `status` column value back; strings other than the four values name no state. */
  function StatusFromValue(v: string): (r: Option<TaskStatus>)
    ensures r.Some? ==> StatusValue(r.value) == v
    ensures r.None? ==> forall s: TaskStatus :: StatusValue(s) != v
  {
    if v == "pending" then Some(Pending)
    else if v == "in_progress" then Some(InProgress)
    else if v == "completed" then Some(Completed)
    else if v == "failed" then Some(Failed)
    else None
  }

  /** Reading back a stored status gives the state that was stored. */
  lemma StatusRoundTrip(s: TaskStatus)
    ensures StatusFromValue(StatusValue(s)) == Some(s)
  {
  }

  /** Distinct states are stored as distinct strings. */
  lemma StatusValueInjective(a: TaskStatus, b: TaskStatus)
    ensures StatusValue(a) == StatusValue(b) <==> a == b
  {
  }

  // ---------------------------------------------------------------- records

  /** A row of `scraping_tasks`. */
  datatype Task = Task(
    id: int,
    url: string,
    status: TaskStatus,
    createdAt: Timestamp,
    completedAt: Option<Timestamp>,
    errorMessage: Option<string>)

  /** The JSON document stored in a result's `content` column. */
  datatype Content = Content(
    title: Option<string>,
    metaDescription: string,
    url: string,
    linksCount: nat,
    imagesCount: nat,
    links: seq<string>,
    images: seq<string>)

  /** A row of `scraping_results`; `taskId` is the foreign key to its owning task. */
  datatype ScrapingResult = ScrapingResult(
    id: int,
    taskId: int,
    content: Content,
    htmlContent: string,
    createdAt: Timestamp)

  /**
   * A task as inserted with the column defaults: status `pending`, the
   * creation time, no completion time and no error message.
   */
  function NewTask(id: int, url: string, now: Timestamp): (t: Task)
    ensures t.id == id && t.url == url && t.createdAt == now
    ensures t.status == Pending
    ensures t.completedAt.None? && t.errorMessage.None?
  {
    Task(id, url, Pending, now, None, None)
  }

  // ---------------------------------------------------------------- ownership

  /** Every result refers to exactly one task, and that task exists. */
  ghost predicate Owned(tasks: map<int, Task>, results: map<int, ScrapingResult>) {
    forall k :: k in results ==> results[k].taskId in tasks
  }

  /** The results that belong to task `id` (the `results` relationship of a task). */
  function ResultsOf(results: map<int, ScrapingResult>, id: int): (r: map<int, ScrapingResult>)
    ensures forall k :: k in r <==> k in results && results[k].taskId == id
    ensures forall k :: k in r ==> r[k] == results[k]
  {
    map k | k in results && results[k].taskId == id :: results[k]
  }

  /**
   * Deleting a task: the relationship's `all, delete-orphan` cascade removes
   * every result owned by the task together with the task, and nothing else.
   */
  function DeleteTask(tasks: map<int, Task>, results: map<int, ScrapingResult>, id: int)
    : (r: (map<int, Task>, map<int, ScrapingResult>))
    ensures r.0.Keys == tasks.Keys - {id}
    ensures forall k :: k in r.0 ==> r.0[k] == tasks[k]
    ensures forall k :: k in r.1 <==> k in results && results[k].taskId != id
    ensures forall k :: k in r.1 ==> r.1[k] == results[k]
    ensures ResultsOf(r.1, id) == map[]
    ensures Owned(tasks, results) ==> Owned(r.0, r.1)
  {
    var remaining := map k | k in results && results[k].taskId != id :: results[k];
    assert ResultsOf(remaining, id).Keys == {};
    (tasks - {id}, remaining)
  }
}
