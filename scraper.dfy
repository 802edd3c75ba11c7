/**
 * The task runner (`scrape_url`) and the task store operations
 * (`create_scraping_task`, `get_task_by_id`, `get_task_with_results`).
 *
 * One run of the runner is specified by the function `Execute` on the task
 * record; the store class `TaskStore` performs the run step by step on its
 * tables and is proved to end in the state `Execute` describes. Every
 * `db.commit()` appends one `StatusWrite` to the store's log of writes.
 * The network is not modelled: what the fetch produced is an input.
 */
module Scraper {
  import opened Wrappers
  import opened Urls
  import opened Models
  import opened Extraction

  /** `max_retries` of the task. */
  const MaxRetries: nat := 3
  /** Seconds before a retried run starts. */
  const RetryCountdown: nat := 60
  /** Message of the `ValueError` raised for a URL that is not valid. */
  const InvalidUrlMessage: string := "Invalid URL format"
  /** Prefix of the error message stored after a request error. */
  const FetchFailurePrefix: string := "Failed to fetch URL: "

  /** Response statuses that ask for a retry: too many requests, service unavailable. */
  predicate IsTransient(code: int) {
    code == 429 || code == 503
  }

  /**
   * What fetching and parsing the task's URL produced: the response text and
   * the page parsed from it; a `requests.RequestException` with the status
   * code of its response, when it has one; or any other exception.
   */
  datatype FetchOutcome =
    | Fetched(text: string, page: Page)
    | RequestError(responseStatus: Option<int>, message: string)
    | OtherError(message: string)

  /** An exception that escapes the runner. */
  datatype Exception = ValueError(message: string) | RequestException(message: string)

  /** What a run returns, or the exception it ends with. */
  datatype RunOutcome =
    | TaskNotFound(taskId: int)
    | Succeeded(taskId: int, resultId: int)
    | FailureReported(taskId: int, error: string)
    | RetryScheduled(countdown: nat)
    | Raised(exception: Exception)

  /** One committed status of one task. */
  datatype StatusWrite = StatusWrite(taskId: int, status: TaskStatus)

  /**
   * The effect of one run on an existing task: the task's final record, the
   * status writes in commit order, the result row added (if any), what the
   * run returns and whether it asked for a retry.
   */
  datatype Execution = Execution(
    task: Task,
    writes: seq<StatusWrite>,
    result: Option<ScrapingResult>,
    outcome: RunOutcome,
    retryRequested: bool)

  /** What `self.retry(exc=e, countdown=60)` does. */
  datatype RetryDecision = NoRetry | Retry(countdown: nat) | RetriesExceeded

  /**
   * Only a response with status 429 or 503 asks for a retry. The retry is
   * scheduled, after 60 seconds, while fewer than `MaxRetries` retries have
   * run; once they are used up the request exception itself is raised.
   */
  function DecideRetry(responseStatus: Option<int>, retries: nat): (d: RetryDecision)
    ensures d.NoRetry? <==> !(responseStatus.Some? && IsTransient(responseStatus.value))
    ensures d.Retry? <==> responseStatus.Some? && IsTransient(responseStatus.value) && retries < MaxRetries
    ensures d.Retry? ==> d.countdown == RetryCountdown
  {
    if responseStatus.Some? && IsTransient(responseStatus.value) then
      if retries + 1 > MaxRetries then RetriesExceeded else Retry(RetryCountdown)
    else NoRetry
  }

  /**
   * The success path, from a task already committed `in_progress`: one
   * result owned by the task holds the content and at most `HtmlCap`
   * characters of the page; the task is committed `completed` with its
   * completion time. Its error message is left as it was. `now` is the clock
   * read that sets `completed_at`; `flushTime` is the later read of the
   * result's `created_at` column default, taken when the commit inserts the row.
   */
  function Complete(started: Task, content: Content, text: string, now: Timestamp, flushTime: Timestamp,
                    resultId: int)
    : (e: Execution)
    ensures e.task.id == started.id && e.task.url == started.url && e.task.createdAt == started.createdAt
    ensures e.task.status == Completed && e.task.completedAt == Some(now)
    ensures e.task.errorMessage == started.errorMessage
    ensures e.writes == [StatusWrite(started.id, Completed)]
    ensures e.result.Some?
    ensures e.result.value.id == resultId && e.result.value.taskId == started.id
    ensures e.result.value.content == content && e.result.value.createdAt == flushTime
    ensures |e.result.value.htmlContent| == Min(|text|, HtmlCap)
    ensures e.result.value.htmlContent == text[..|e.result.value.htmlContent|]
    ensures e.outcome == Succeeded(started.id, resultId) && !e.retryRequested
  {
    var result := ScrapingResult(resultId, started.id, content, Prefix(text, HtmlCap), flushTime);
    var task := started.(status := Completed, completedAt := Some(now));
    Execution(task, [StatusWrite(task.id, Completed)], Some(result), Succeeded(task.id, resultId), false)
  }

  /**
   * A request error: the task is committed `failed` with the fetch failure
   * message and no completion time is stamped; a retry is asked for exactly
   * on a 429 or 503 response.
   */
  function FailRequest(started: Task, responseStatus: Option<int>, message: string, retries: nat)
    : (e: Execution)
    ensures e.task.id == started.id && e.task.url == started.url && e.task.createdAt == started.createdAt
    ensures e.task.status == Failed && e.task.completedAt == started.completedAt
    ensures e.task.errorMessage == Some(FetchFailurePrefix + message)
    ensures e.writes == [StatusWrite(started.id, Failed)] && e.result.None?
    ensures e.retryRequested <==> responseStatus.Some? && IsTransient(responseStatus.value)
    ensures !e.retryRequested ==> e.outcome == FailureReported(started.id, message)
    ensures e.retryRequested && retries < MaxRetries ==> e.outcome == RetryScheduled(RetryCountdown)
    ensures e.retryRequested && retries >= MaxRetries ==> e.outcome == Raised(RequestException(message))
  {
    var task := started.(status := Failed, errorMessage := Some(FetchFailurePrefix + message));
    var outcome := match DecideRetry(responseStatus, retries)
                   case NoRetry => FailureReported(task.id, message)
                   case Retry(countdown) => RetryScheduled(countdown)
                   case RetriesExceeded => Raised(RequestException(message));
    Execution(task, [StatusWrite(task.id, Failed)], None, outcome, !DecideRetry(responseStatus, retries).NoRetry?)
  }

  /**
   * Any other exception while fetching or extracting: the task is committed
   * `failed` with the exception's message, which the run returns instead of
   * raising it.
   */
  function FailOther(started: Task, message: string): (e: Execution)
    ensures e.task.id == started.id && e.task.url == started.url && e.task.createdAt == started.createdAt
    ensures e.task.status == Failed && e.task.completedAt == started.completedAt
    ensures e.task.errorMessage == Some(message)
    ensures e.writes == [StatusWrite(started.id, Failed)] && e.result.None?
    ensures e.outcome == FailureReported(started.id, message) && !e.retryRequested
  {
    var task := started.(status := Failed, errorMessage := Some(message));
    Execution(task, [StatusWrite(task.id, Failed)], None, FailureReported(task.id, message), false)
  }

  /**
   * One run on an existing task. `in_progress` is committed first, before
   * anything is fetched. A URL that is not valid then raises a `ValueError`
   * that escapes the run and leaves the task `in_progress`; otherwise the run
   * ends in exactly one more commit, `completed` or `failed`, and a result is
   * added exactly when it completes. No run writes `pending`.
   */
  function Execute(lib: UrlLib, task: Task, fetch: FetchOutcome, retries: nat,
                   now: Timestamp, flushTime: Timestamp, resultId: int)
    : (e: Execution)
    ensures 1 <= |e.writes| <= 2 && e.writes[0] == StatusWrite(task.id, InProgress)
    ensures forall k :: 0 <= k < |e.writes| ==> e.writes[k].taskId == task.id && e.writes[k].status != Pending
    ensures e.writes[|e.writes| - 1].status == e.task.status
    ensures e.task.id == task.id && e.task.url == task.url && e.task.createdAt == task.createdAt
    ensures |e.writes| == 1 <==> !IsValidUrl(lib, task.url)
    ensures !IsValidUrl(lib, task.url) ==>
              && e.task.status == InProgress && e.task.completedAt == task.completedAt
              && e.task.errorMessage == task.errorMessage
              && e.outcome == Raised(ValueError(InvalidUrlMessage)) && e.result.None? && !e.retryRequested
    ensures e.result.Some? <==> e.task.status == Completed
    ensures e.result.Some? <==> e.outcome.Succeeded?
    ensures e.result.Some? ==> e.result.value.taskId == task.id && e.result.value.id == resultId
    ensures e.task.status == Completed ==> e.task.completedAt == Some(now) && e.task.errorMessage == task.errorMessage
    ensures e.task.status != Completed ==> e.task.completedAt == task.completedAt
    ensures e.retryRequested ==> fetch.RequestError? && e.task.status == Failed
    ensures IsValidUrl(lib, task.url) ==>
              && e.task.status == (if fetch.Fetched? then Completed else Failed)
              && e.writes == [StatusWrite(task.id, InProgress), StatusWrite(task.id, e.task.status)]
    ensures IsValidUrl(lib, task.url) && fetch.Fetched? ==>
              && e.result.Some?
              && e.result.value.content == Extract(lib, task.url, fetch.page)
              && |e.result.value.htmlContent| == Min(|fetch.text|, HtmlCap)
              && e.result.value.htmlContent == fetch.text[..|e.result.value.htmlContent|]
              && e.result.value.createdAt == flushTime
              && e.outcome == Succeeded(task.id, resultId) && !e.retryRequested
    ensures IsValidUrl(lib, task.url) && fetch.RequestError? ==>
              && e.task.errorMessage == Some(FetchFailurePrefix + fetch.message)
              && (e.retryRequested <==> fetch.responseStatus.Some? && IsTransient(fetch.responseStatus.value))
              && (!e.retryRequested ==> e.outcome == FailureReported(task.id, fetch.message))
              && (e.retryRequested && retries < MaxRetries ==> e.outcome == RetryScheduled(RetryCountdown))
              && (e.retryRequested && retries >= MaxRetries ==> e.outcome == Raised(RequestException(fetch.message)))
    ensures IsValidUrl(lib, task.url) && fetch.OtherError? ==>
              && e.task.errorMessage == Some(fetch.message)
              && e.outcome == FailureReported(task.id, fetch.message) && !e.retryRequested
  {
    var started := task.(status := InProgress);
    if !IsValidUrl(lib, task.url) then
      Execution(started, [StatusWrite(task.id, InProgress)], None, Raised(ValueError(InvalidUrlMessage)), false)
    else
      var rest := Conclude(lib, started, fetch, retries, now, flushTime, resultId);
      rest.(writes := [StatusWrite(task.id, InProgress)] + rest.writes)
  }

  /** The inner `try` of a run, from a task committed `in_progress`: the path the fetch outcome selects. */
  function Conclude(lib: UrlLib, started: Task, fetch: FetchOutcome, retries: nat,
                    now: Timestamp, flushTime: Timestamp, resultId: int)
    : (e: Execution)
    ensures e.task.id == started.id && e.task.url == started.url && e.task.createdAt == started.createdAt
    ensures e.task.status == (if fetch.Fetched? then Completed else Failed)
    ensures e.writes == [StatusWrite(started.id, e.task.status)]
    ensures e.result.Some? <==> fetch.Fetched?
    ensures fetch.Fetched? ==>
              && e.result.value.id == resultId && e.result.value.taskId == started.id
              && e.result.value.content == Extract(lib, started.url, fetch.page)
              && e.result.value.createdAt == flushTime
              && e.task.completedAt == Some(now) && e.task.errorMessage == started.errorMessage
              && e.outcome == Succeeded(started.id, resultId)
    ensures !fetch.Fetched? ==> e.task.completedAt == started.completedAt
    ensures e.retryRequested ==> fetch.RequestError?
  {
    match fetch
    case Fetched(text, page) => Complete(started, Extract(lib, started.url, page), text, now, flushTime, resultId)
    case RequestError(code, message) => FailRequest(started, code, message, retries)
    case OtherError(message) => FailOther(started, message)
  }

  /**
   * A page that keeps answering 429 or 503: the first `MaxRetries` runs each
   * schedule a retry in 60 seconds, and the run after them raises the
   * request exception; each leaves the task `failed` with the fetch failure.
   */
  lemma PersistentTransientFailure(lib: UrlLib, task: Task, code: int, message: string,
                                   now: Timestamp, flushTime: Timestamp, resultId: int)
    requires IsValidUrl(lib, task.url) && IsTransient(code)
    ensures forall retries: nat ::
      var e := Execute(lib, task, RequestError(Some(code), message), retries, now, flushTime, resultId);
      && e.task.status == Failed && e.task.errorMessage == Some(FetchFailurePrefix + message)
      && e.retryRequested
      && (retries < MaxRetries ==> e.outcome == RetryScheduled(RetryCountdown))
      && (retries >= MaxRetries ==> e.outcome == Raised(RequestException(message)))
  {
  }

  /**
   * A worked run, under a URL library that resolves `/about` against
   * `http://example.com` to `http://example.com/about` and parses both as
   * scheme `http`, netloc `example.com`: a page titled `Example` holding one
   * link `/about` completes with one result whose only link is
   * `http://example.com/about`.
   */
  lemma ExampleRun(task: Task, now: Timestamp, flushTime: Timestamp, resultId: int)
    requires task.url == "http://example.com"
    ensures var lib := UrlLib(
              u => if u == "http://example.com" || u == "http://example.com/about"
                   then Parsed("http", "example.com") else Parsed("", ""),
              (b, r) => if r == "/about" then Joined(b + r) else Joined(r));
            var page := Page(Some(TitleTag(Some("Example"))), [], ["/about"], []);
            var e := Execute(lib, task, Fetched("<title>Example</title>", page), 0, now, flushTime, resultId);
            && e.task.status == Completed
            && e.outcome == Succeeded(task.id, resultId)
            && e.result.Some?
            && e.result.value.content.title == Some("Example")
            && e.result.value.content.links == ["http://example.com/about"]
            && e.result.value.content.linksCount == 1
  {
    var lib := UrlLib(
      u => if u == "http://example.com" || u == "http://example.com/about"
           then Parsed("http", "example.com") else Parsed("", ""),
      (b, r) => if r == "/about" then Joined(b + r) else Joined(r));
    var hrefs := ["/about"];
    assert hrefs[..0] == [];
    assert NormalizeUrl(lib, task.url, "/about") == "http://example.com/about";
    assert !StartsWith("/about", "tel:") by { assert "/about"[..4][0] == '/'; }
    assert Resolved(lib, task.url, Anchor, hrefs) == ["http://example.com/about"];
  }

  // ---------------------------------------------------------------- the store

  /**
   * The two tables and the log of committed status writes. Ids are handed
   * out from counters, so an id is never reused.
   */
  class TaskStore {
    const urls: UrlLib
    var tasks: map<int, Task>
    var results: map<int, ScrapingResult>
    var nextTaskId: int
    var nextResultId: int
    var writes: seq<StatusWrite>
    /** Where in `writes` each task's first (`pending`) write stands. */
    ghost var firstWrite: map<int, nat>

    /**
     * Keys are the records' ids, below the counters; every result's task
     * exists; the log speaks of stored tasks only, `firstWrite` gives the
     * position of each stored task's first write, and the log is ordered as
     * `LogOrdered` says.
     */
    ghost predicate Valid()
      reads this
    {
      && 1 <= nextTaskId && 1 <= nextResultId
      && (forall k :: k in tasks ==> 1 <= k < nextTaskId && tasks[k].id == k)
      && (forall k :: k in results ==> 1 <= k < nextResultId && results[k].id == k)
      && Owned(tasks, results)
      && (forall i :: 0 <= i < |writes| ==> writes[i].taskId in tasks)
      && firstWrite.Keys == tasks.Keys
      && (forall k :: k in firstWrite ==> firstWrite[k] < |writes| && writes[firstWrite[k]] == StatusWrite(k, Pending))
      && LogOrdered()
    }

    /**
     * No task's write comes before its first write, and a write is `pending`
     * exactly when it is its task's first write.
     */
    ghost predicate LogOrdered()
      reads this
    {
      forall i :: 0 <= i < |writes| ==>
        && writes[i].taskId in firstWrite
        && firstWrite[writes[i].taskId] <= i
        && (writes[i].status == Pending <==> firstWrite[writes[i].taskId] == i)
    }

    /** Every stored task has a valid URL (true of tasks made by `CreateTask`). */
    ghost predicate UrlsValid()
      reads this
    {
      forall k :: k in tasks ==> IsValidUrl(urls, tasks[k].url)
    }

    constructor (urls: UrlLib)
      ensures Valid() && UrlsValid() && this.urls == urls
      ensures tasks == map[] && results == map[] && writes == []
    {
      this.urls := urls;
      tasks, results := map[], map[];
      nextTaskId, nextResultId := 1, 1;
      writes := [];
      firstWrite := map[];
    }

    /**
     * `create_scraping_task`: an invalid URL raises before the store is
     * touched; a valid one adds exactly one new `pending` task, under a fresh
     * id, and commits it. Nothing else changes.
     */
    method CreateTask(url: string, now: Timestamp) returns (r: Result<Task>)
      requires Valid()
      modifies this
      ensures Valid()
      ensures old(UrlsValid()) ==> UrlsValid()
      ensures results == old(results) && nextResultId == old(nextResultId)
      ensures !IsValidUrl(urls, url) ==>
                && r == Err(InvalidUrlMessage)
                && tasks == old(tasks) && writes == old(writes) && nextTaskId == old(nextTaskId)
      ensures IsValidUrl(urls, url) ==>
                && r.Ok? && r.value.id !in old(tasks)
                && r.value == NewTask(r.value.id, url, now)
                && tasks == old(tasks)[r.value.id := r.value]
                && writes == old(writes) + [StatusWrite(r.value.id, Pending)]
                && forall i :: 0 <= i < |old(writes)| ==> old(writes)[i].taskId != r.value.id
    {
      if !IsValidUrl(urls, url) {
        return Err(InvalidUrlMessage);
      }
      var task := NewTask(nextTaskId, url, now);
      firstWrite := firstWrite[task.id := |writes|];
      tasks := tasks[task.id := task];
      nextTaskId := nextTaskId + 1;
      writes := writes + [StatusWrite(task.id, task.status)];
      r := Ok(task);
    }

    /** `get_task_by_id`: the task with that id, if there is one. */
    method GetTaskById(id: int) returns (r: Option<Task>)
      requires Valid()
      ensures r.Some? <==> id in tasks
      ensures r.Some? ==> r.value == tasks[id] && r.value.id == id
    {
      if id in tasks {
        r := Some(tasks[id]);
      } else {
        r := None;
      }
    }

    /**
     * `get_task_with_results`: the task with that id together with the
     * results it owns, if there is such a task.
     */
    method GetTaskWithResults(id: int) returns (r: Option<(Task, map<int, ScrapingResult>)>)
      requires Valid()
      ensures r.Some? <==> id in tasks
      ensures r.Some? ==> r.value.0 == tasks[id]
      ensures r.Some? ==> forall k :: k in r.value.1 <==> k in results && results[k].taskId == id
      ensures r.Some? ==> forall k :: k in r.value.1 ==> r.value.1[k] == results[k]
    {
      var task := GetTaskById(id);
      if task.Some? {
        r := Some((task.value, ResultsOf(results, id)));
      } else {
        r := None;
      }
    }

    /**
     * `scrape_url`: a missing task is reported and nothing changes;
     * otherwise the run performs `Execute` on the task's record, updating the
     * task in place, adding the result row under a fresh id and appending
     * its commits to the log.
     */
    method ScrapeUrl(id: int, fetch: FetchOutcome, retries: nat, now: Timestamp, flushTime: Timestamp)
      returns (outcome: RunOutcome, retryRequested: bool)
      requires Valid()
      modifies this
      ensures Valid()
      ensures old(UrlsValid()) ==> UrlsValid()
      ensures old(UrlsValid()) ==> outcome != Raised(ValueError(InvalidUrlMessage))
      ensures nextTaskId == old(nextTaskId)
      ensures id !in old(tasks) ==>
                && outcome == TaskNotFound(id) && !retryRequested
                && tasks == old(tasks) && results == old(results)
                && writes == old(writes) && nextResultId == old(nextResultId)
      ensures id in old(tasks) ==>
                var e := Execute(urls, old(tasks)[id], fetch, retries, now, flushTime, old(nextResultId));
                && tasks == old(tasks)[id := e.task]
                && writes == old(writes) + e.writes
                && (e.result.None? ==> results == old(results) && nextResultId == old(nextResultId))
                && (e.result.Some? ==> old(nextResultId) !in old(results)
                                       && results == old(results)[old(nextResultId) := e.result.value]
                                       && nextResultId == old(nextResultId) + 1)
                && outcome == e.outcome && retryRequested == e.retryRequested
    {
      if id !in tasks {
        return TaskNotFound(id), false;
      }
      var task := tasks[id];

      task := task.(status := InProgress);
      Commit(task);

      if !IsValidUrl(urls, task.url) {
        return Raised(ValueError(InvalidUrlMessage)), false;
      }

      outcome, retryRequested := ConcludeRun(task, fetch, retries, now, flushTime);
    }

    /**
     * The inner `try` of a run, on a task committed `in_progress`: the store
     * ends as `Conclude` says.
     */
    method ConcludeRun(task: Task, fetch: FetchOutcome, retries: nat, now: Timestamp, flushTime: Timestamp)
      returns (outcome: RunOutcome, retryRequested: bool)
      requires Valid() && task.id in tasks && tasks[task.id] == task && task.status == InProgress
      modifies this
      ensures Valid()
      ensures nextTaskId == old(nextTaskId)
      ensures var e := Conclude(urls, task, fetch, retries, now, flushTime, old(nextResultId));
              && tasks == old(tasks)[task.id := e.task]
              && writes == old(writes) + e.writes
              && (e.result.None? ==> results == old(results) && nextResultId == old(nextResultId))
              && (e.result.Some? ==> old(nextResultId) !in old(results)
                                     && results == old(results)[old(nextResultId) := e.result.value]
                                     && nextResultId == old(nextResultId) + 1)
              && outcome == e.outcome && retryRequested == e.retryRequested
    {
      var task := task;
      var id := task.id;
      match fetch {
        case Fetched(text, page) =>
          var links := CollectUrls(urls, task.url, Anchor, page.hrefs);
          var images := CollectUrls(urls, task.url, Image, page.srcs);
          var content := Content(Title(page), MetaDescription(page.metas), task.url,
                                 |links|, |images|, Prefix(links, LinkCap), Prefix(images, ImageCap));
          var result := ScrapingResult(nextResultId, id, content, Prefix(text, HtmlCap), flushTime);
          AddResult(result);
          task := task.(status := Completed, completedAt := Some(now));
          Commit(task);
          outcome, retryRequested := Succeeded(id, result.id), false;
        case RequestError(code, message) =>
          task := task.(status := Failed, errorMessage := Some(FetchFailurePrefix + message));
          Commit(task);
          retryRequested := code.Some? && IsTransient(code.value);
          if retryRequested && retries + 1 <= MaxRetries {
            outcome := RetryScheduled(RetryCountdown);
          } else if retryRequested {
            outcome := Raised(RequestException(message));
          } else {
            outcome := FailureReported(id, message);
          }
        case OtherError(message) =>
          task := task.(status := Failed, errorMessage := Some(message));
          Commit(task);
          outcome, retryRequested := FailureReported(id, message), false;
      }
    }

    /** `db.commit()` of a task being run: the record is stored and its status logged. */
    method Commit(task: Task)
      requires Valid() && task.id in tasks && task.status != Pending
      modifies this
      ensures Valid()
      ensures tasks == old(tasks)[task.id := task]
      ensures writes == old(writes) + [StatusWrite(task.id, task.status)]
      ensures results == old(results) && nextTaskId == old(nextTaskId) && nextResultId == old(nextResultId)
    {
      tasks := tasks[task.id := task];
      writes := writes + [StatusWrite(task.id, task.status)];
    }

    /** `db.add(result)`: the new row gets the next result id. */
    method AddResult(result: ScrapingResult)
      requires Valid() && result.id == nextResultId && result.taskId in tasks
      modifies this
      ensures Valid()
      ensures result.id !in old(results)
      ensures results == old(results)[result.id := result] && nextResultId == old(nextResultId) + 1
      ensures tasks == old(tasks) && writes == old(writes) && nextTaskId == old(nextTaskId)
    {
      results := results[result.id := result];
      nextResultId := nextResultId + 1;
    }
  }

  /**
   * The logged history of every task begins with `pending` and never
   * returns to it: a write is `pending` exactly when no earlier write
   * concerns the same task.
   */
  lemma LogHistory(store: TaskStore)
    requires store.Valid()
    ensures forall i :: 0 <= i < |store.writes| ==>
              (store.writes[i].status == Pending <==>
                 forall j :: 0 <= j < i ==> store.writes[j].taskId != store.writes[i].taskId)
  {
  }
}
