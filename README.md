# Web scraper task core, modelled in Dafny

The system takes a URL and creates a scraping task, stored as a row with a
lifecycle status (`pending`, `in_progress`, `completed`, `failed`). A worker
later runs the task. The run marks the task `in_progress`, fetches the page,
extracts the title, the meta description, the links and the images, stores one
result owned by the task, and marks the task `completed`. A failed fetch marks
it `failed` with an error message. A 429 or 503 response asks for a retry in
60 seconds, at most three times.

This project models that core and proves its properties:

- `wrappers.dfy` (module `Wrappers`): `Option` and `Result`.
- `models.dfy` (module `Models`): the status enumeration and its stored
  strings; the task, result and content records with their defaults; and the
  ownership of results by tasks, including the cascade delete.
- `urls.dfy` (module `Urls`): `is_valid_url` and `normalize_url`. The URL
  library (`urlparse`, `urljoin`) is a parameter, a `UrlLib` value holding two
  total functions. Either one may raise.
- `extraction.dfy` (module `Extraction`): the anchor and image loops, which
  filter, resolve and validate. Also the 100-link, 50-image and
  100 000-character caps, the meta description preference and the title.
  A parsed page is given as its tags in document order.
- `scraper.dfy` (module `Scraper`): one run of `scrape_url`, specified by the
  function `Execute` on the task record. The class `TaskStore` holds the two
  tables, the id counters and a log of committed status writes. Its methods
  `CreateTask` and `ScrapeUrl` change the store in place. Each is proved to
  reach the state its specification describes. The queries `GetTaskById` and
  `GetTaskWithResults` change nothing. Every method keeps the store invariant
  `Valid()`:
  - keys are record ids, and every result's task exists;
  - the log names stored tasks only;
  - a logged write is `pending` exactly when it is its task's first write.

Each `db.commit()` appends one `StatusWrite(taskId, status)` to the store's
`writes` log. The order of status changes can therefore be stated, both within
one run (`Execute`) and across runs (`LogHistory`).

Three behaviours of the code may surprise a reader. The model keeps them as
the code has them:

- An invalid URL found at run time does not make the task `failed`.
  In `scrape_url` the `ValueError` is raised outside the inner `try`
  (backend/app/services/scraper.py:53-54). So the task stays `in_progress` and
  the exception escapes. `Execute` and `ScrapeUrl` model exactly that.
  `ScrapeUrl` also proves this path is unreachable for tasks in a store whose
  URLs are all valid. That is the state `CreateTask` maintains (`UrlsValid`).
- Nothing stops a task that is already `completed` or `failed` from being
  run again. Such a run sets it back to `in_progress`. Only `pending` is never
  written by a run, so a task's history begins with `pending` and never
  returns to it.
- The retry budget is Celery's. `self.retry` runs with `request.retries`
  earlier retries. It schedules a new run while fewer than `max_retries = 3`
  retries have run, and otherwise re-raises the request exception. This is
  framework behaviour, not code of the repository. The model takes the retry
  count as the parameter `retries`.

## Model

| member | source | states |
|---|---|---|
| `Models.StatusValue` | backend/app/models/models.py:9-13 | each of the four statuses is stored as a non-empty string that fits the 20-character `status` column |
| `Models.StatusFromValue` | backend/app/models/models.py:9-13 | reading back a column value gives the status stored under that string, and a string that is none of the four values names no status |
| `Models.StatusRoundTrip` | backend/app/models/models.py:9-13 | reading back the stored string of a status gives that status |
| `Models.StatusValueInjective` | backend/app/models/models.py:9-13 | two statuses are stored as the same string exactly when they are the same status |
| `Models.NewTask` | backend/app/models/models.py:18-23 | a new task has status `pending`, the creation time, and no completion time or error message |
| `Models.ResultsOf` | backend/app/models/models.py:25-26 | a task's results are exactly the result rows whose `task_id` is that task, unchanged |
| `Models.DeleteTask` | backend/app/models/models.py:26 | deleting a task removes it and exactly the results that reference it; the other tasks and results are kept unchanged; no result of the task remains; every remaining result still references an existing task |
| `Urls.IsValidUrl` | backend/app/services/scraper.py:20-25 | `is_valid_url`: true only for a URL whose parse succeeds, with a non-empty scheme and a non-empty netloc; a parse that raises gives false instead of propagating |
| `Urls.ValidUrlParts` | backend/app/services/scraper.py:20-25 | a URL is valid exactly when its parse succeeds with a non-empty scheme and a non-empty netloc; a parse that raises makes it invalid |
| `Urls.NormalizeUrl` | backend/app/services/scraper.py:27-32 | the reference resolved against the base by the URL library, or the reference unchanged when the library raises |
| `Extraction.Resolved` | backend/app/services/scraper.py:89-104 | the resolved references are all valid URLs, and there are no more of them than references |
| `Extraction.ResolvedIndices` | backend/app/services/scraper.py:89-104 | the k-th resolved URL is the resolution of a kept reference; their positions increase, so document order is kept; and every kept reference appears |
| `Extraction.CollectUrls` | backend/app/services/scraper.py:89-104 | the append loop over anchors or images produces exactly the kept references' resolutions, in order |
| `Extraction.Prefix` | backend/app/services/scraper.py:115-118 | slicing to `n` keeps the first min(length, n) elements |
| `Extraction.FindMeta` | backend/app/services/scraper.py:83-84 | the search finds the first meta tag matching the query, or reports that none matches |
| `Extraction.MetaDescription` | backend/app/services/scraper.py:82-86 | the meta description is `""` or the `content` of some `name="description"` or `og:description` tag of the page |
| `Extraction.MetaDescriptionPreference` | backend/app/services/scraper.py:82-86 | the description comes from the first `name="description"` tag. Only when there is none does it come from the first `og:description` tag. With neither it is `""`, and a missing or empty `content` also gives `""` |
| `Extraction.Title` | backend/app/services/scraper.py:81 | no `<title>` gives `""`; otherwise the tag's `.string`, absent (stored as null) exactly when the tag has no single string child |
| `Extraction.Extract` | backend/app/services/scraper.py:107-118 | the content records the task URL, the title, the meta description, and the link and image counts taken before truncation; the stored lists are the first min(n,100) links and min(n,50) images |
| `Extraction.StoredLinksAreFiltered` | backend/app/services/scraper.py:89-115 | each of the at most 100 stored links is the resolution of a non-empty href that is not a `javascript:`, `mailto:` or `tel:` link and whose resolution is valid; document order is kept |
| `Extraction.StoredImagesAreFiltered` | backend/app/services/scraper.py:98-116 | each of the at most 50 stored images is the valid resolution of a non-empty src; no scheme is excluded; document order is kept |
| `Scraper.DecideRetry` | backend/app/services/scraper.py:141-143 | only a response with status 429 or 503 asks for a retry; the retry is scheduled after 60 s while fewer than 3 retries have run; otherwise it is refused |
| `Scraper.Complete` | backend/app/services/scraper.py:106-133 | on success, one result is added that references the task, with at most 100 000 characters of HTML and the flush time as its creation time; the task becomes `completed` with the completion time read before the commit; its earlier error message is kept; the run reports success |
| `Scraper.FailRequest` | backend/app/services/scraper.py:135-145 | a request error leaves the task `failed` with "Failed to fetch URL: " plus the message. No completion time is stamped, and an earlier one stays. A retry is asked for exactly on a 429 or 503 response. The run then schedules the retry, or raises once retries are used up. Otherwise it returns the failure |
| `Scraper.FailOther` | backend/app/services/scraper.py:147-152 | any other exception leaves the task `failed` with the exception's message. The run returns that failure instead of raising it, and no retry is asked for |
| `Scraper.Execute` | backend/app/services/scraper.py:48-152 | `in_progress` is committed first, before any fetch. An invalid URL raises `ValueError` and leaves the task `in_progress`. Every other run makes exactly one more commit: `completed` after a fetched page, `failed` otherwise. A fetched page adds one result that references the task, holding the extracted content and at most 100 000 characters of HTML, created at the flush time; the run returns success. A request error stores "Failed to fetch URL: " plus the message, and the run schedules a retry, raises or returns the failure as the retry rule says. Any other exception stores its message, and the run returns the failure. A result is added exactly when the run completes. The completion time is stamped only then. No run writes `pending` |
| `Scraper.Conclude` | backend/app/services/scraper.py:57-152 | the inner `try`, from a task committed `in_progress`: exactly one more commit, `completed` after a fetched page and `failed` otherwise; a result holding the extracted content, created at the flush time, is added exactly for a fetched page, whose completion time is stamped; a failure keeps the earlier completion time; only a request error may ask for a retry |
| `Scraper.PersistentTransientFailure` | backend/app/services/scraper.py:34-143 | a page that keeps answering 429 or 503 gets a scheduled retry on each of the first three runs; the fourth run raises; every run leaves the task `failed` |
| `Scraper.ExampleRun` | backend/app/services/scraper.py:81-126 | under a URL library that resolves `/about` against `http://example.com` to `http://example.com/about` and parses both as scheme `http`, netloc `example.com`, a page titled `Example` with one link `/about`, fetched from `http://example.com`, completes with that title, the single link `http://example.com/about` and a link count of 1 |
| `Scraper.TaskStore.CreateTask` | backend/app/services/scraper.py:157-166 | an invalid URL is refused before the store is touched; a valid one adds exactly one new `pending` task under a fresh id, commits it as that id's first logged write, and changes no other task |
| `Scraper.TaskStore.GetTaskById` | backend/app/services/scraper.py:168-170 | returns the task with that id exactly when one exists |
| `Scraper.TaskStore.GetTaskWithResults` | backend/app/services/scraper.py:172-174 | returns the task with that id together with exactly the results that reference it, when such a task exists |
| `Scraper.TaskStore.ScrapeUrl` | backend/app/services/scraper.py:35-155 | a missing task id returns `TaskNotFound` and changes nothing. Otherwise the store ends as `Execute` says: the task record is updated in place, the result is added under a fresh id, and the commits are appended in order. A store whose URLs are all valid never takes the invalid-URL path |
| `Scraper.TaskStore.ConcludeRun` | backend/app/services/scraper.py:57-152 | on a task committed `in_progress`, the fetch outcome's path ends the store as `Conclude` says: the task record, the added result, the counters, the appended commits and the outcome |
| `Scraper.LogHistory` | backend/app/services/scraper.py:49-50 | in a valid store, every task's logged history begins with `pending`, and no later write of that task is `pending` |
| `Scraper.TaskStore.Commit` | backend/app/services/scraper.py:49-50 | a commit stores the changed task and appends its status to the log, and nothing else changes |
| `Scraper.TaskStore.AddResult` | backend/app/services/scraper.py:121 | adding a result stores it under the next unused result id, and nothing else changes |

## Left out

- Network I/O is not modelled. This covers `requests.get`, the random delay, the random user agent, the headers, the 30 s timeout and TLS verification. What the fetch produced is the input `FetchOutcome`: the response text with its parsed page, a request exception with its response status if any, or any other exception.
- HTML parsing by BeautifulSoup is not modelled. A page is given as its `<title>` tag, its `<meta>` tags, the `href` of each `<a>` that has one and the `src` of each `<img>` that has one, in document order.
- The internals of `urlparse` and `urljoin` (resolution as in section 5.2 of RFC 3986) are not modelled. They are the uninterpreted functions of a `UrlLib`.
- Celery dispatch, queues, acknowledgement and time limits are about the broker and concurrency. The retry appears only as the returned outcome, the `retryRequested` flag and the `retries` parameter.
- SQLAlchemy sessions, engine setup and `db.close()` are not modelled. A commit is an in-place update plus one entry in the `writes` log. A database error during a commit is not modelled.
- The FastAPI routes and pydantic schemas are thin wrappers over the store and library validation, so they are left out. The same goes for the React frontend, logging and `list_tasks` pagination.
- The clock is not modelled. Each `datetime.utcnow()` read is a timestamp parameter: `now` for the task's `created_at` and `completed_at`, and `flushTime` for the result row's `created_at`, whose column default is evaluated later, when the commit flushes the insert. The model does not relate the two reads.
- The `String(1024)` width of the `url` column is not enforced. The nullable `task_id`, `content` and `html_content` columns are modelled as always present, because the runner always sets them.
- Scraper.TaskStore.ScrapeUrl: a missing task returns the tag `TaskNotFound(id)`, not the formatted string "Task with ID … not found".
