# flags2_asyncio_executor in Dafny

This project models the asyncio flag downloader `Sec18_examples/flags2_asyncio_executor.py`:

- `get_flag` builds a URL from a country code, fetches it and sorts the reply three ways.
- `download_one` brackets that fetch with a shared `asyncio.Semaphore`. It turns the outcome into a `Result` or a `FetchError`, and on success hands a `save_flag` call to the thread-pool executor.
- `downloader_coro` starts one task per code in sorted order. It drains the tasks as they complete and counts their statuses in a `collections.Counter`.
- `download_many` runs the coroutine and returns the counter.

Modules:

- `FlagsCommon` (`common.dfy`): stand-ins for `HTTPStatus`, `Result` and the `save_flag` call, which come from `flags2_common`, a module that is not part of this model. It also holds `str.lower()` on ASCII letters.
- `Fetch` (`fetch.dfy`): the server's reply is a parameter, `network(url)`, which gives either a response (status, reason, body) or the exception the HTTP client raised.
  - `GetFlag`, `DownloadOne` and the error-message choice are pure functions.
  - `DownloadOneAsWritten` models the function exactly as the file spells it (see Findings).
- `Tally` (`counter.dfy`): the `Counter` as a `map<HttpStatus, nat>`. The fold of a drained sequence equals the tally of its multiset.
- `Gate` (`gate.dfy`): the semaphore as a class with a mutable `held` count and a fixed `capacity`.
- `Trace` (`trace.dfy`): the events a run produces (permit taken, request sent, permit given back, save dispatched). Two functions over them: the number of permits held, and each task's own events.
- `Sorting` (`sorting.dfy`): `sorted(cc_list)` as insertion sort under Python's string order (character codes compared from the left, a proper prefix first). An ascending permutation is unique, so this is the list `sorted` returns.
- `Downloader` (`downloader.dfy`): the event loop is modelled by its effect on the tasks.
  - A waiting task may start once a permit is free: it takes the permit and sends its request.
  - A task in flight may finish: its reply arrives, the permit goes back, and the save is dispatched on success. The drain loop then counts its status.
  - Which enabled task moves next is an arbitrary choice (`:|`). Every property therefore holds for every interleaving and every completion order.

## Model

| member | source | states |
|---|---|---|
| FlagsCommon.Lower | Sec18_examples/flags2_asyncio_executor.py:21 | `cc.lower()` keeps the length, leaves no upper-case ASCII letter, changes nothing else and maps each upper-case letter to its lower-case form |
| Fetch.SaveName | Sec18_examples/flags2_asyncio_executor.py:47 | the saved file name is the lower-cased code followed by exactly ".gif" |
| Fetch.FlagUrlShape | Sec18_examples/flags2_asyncio_executor.py:21 | the URL is base URL, "/", lower-cased code, "/" and then the very name the image is saved under; it ignores the case of the code; its length is fixed by the inputs |
| Fetch.GetFlag | Sec18_examples/flags2_asyncio_executor.py:19-29 | the three-way classification is total and exclusive: the payload iff status 200, not-found iff 404, and otherwise an error carrying that status code and reason; a failure of the HTTP client propagates unchanged |
| Fetch.DownloadOne | Sec18_examples/flags2_asyncio_executor.py:32-54 | the Result always carries the input code and is never an error; a FetchError carries the input code and get_flag's exception as cause; not-found is an ordinary return; ok iff the image came back; a save is dispatched iff ok, with the fetched image and the lower-cased file name |
| Fetch.ItemStatusCases | Sec18_examples/flags2_asyncio_executor.py:34-49 | end to end, a code is counted ok iff its URL answers 200, not_found iff it answers 404, and error otherwise |
| Fetch.CauseException | Sec18_examples/flags2_asyncio_executor.py:40-41 | the `__cause__` of a FetchError is the exception get_flag raised: the client's own exception, or an HttpProcessingError |
| Fetch.ErrorMessage | Sec18_examples/flags2_asyncio_executor.py:71-74 | the message is the cause's first argument when it has arguments, and otherwise the cause's class name |
| Fetch.DownloadOneAsWritten | Sec18_examples/flags2_asyncio_executor.py:33-41 | as written, every call raises FetchError(cc) whose cause reads "name 'semaphore' is not defined" |
| Fetch.AsWrittenIgnoresNetwork | Sec18_examples/flags2_asyncio_executor.py:33-35 | as written, the outcome does not depend on anything the server answers |
| Fetch.AsWrittenDiffers | Sec18_examples/flags2_asyncio_executor.py:33-36 | against a server that answers 200, the intended function counts ok and the one as written counts error |
| Sorting.Insert | Sec18_examples/flags2_asyncio_executor.py:61 | inserting into an ascending list gives an ascending list with one more element, holding the old elements and the new one |
| Sorting.SortedCodes | Sec18_examples/flags2_asyncio_executor.py:61 | `sorted(cc_list)` is an ascending permutation of the codes |
| Sorting.SortedUnique | Sec18_examples/flags2_asyncio_executor.py:61 | two ascending permutations of the same codes are equal, so the task list does not depend on the input order |
| Tally.Record | Sec18_examples/flags2_asyncio_executor.py:81 | `counter[status] += 1` adds one to that key, leaves every other key alone and adds the key if it was missing |
| Tally.CounterOf | Sec18_examples/flags2_asyncio_executor.py:59 | the tally of a multiset reads each status's number of occurrences, and has a key exactly for the statuses that occur |
| Tally.FoldIsCounterOf | Sec18_examples/flags2_asyncio_executor.py:66-81 | counting the drained statuses one by one gives the tally of their multiset |
| Tally.FoldOrderIndependent | Sec18_examples/flags2_asyncio_executor.py:63-81 | any two completion orders of the same statuses give the same counter |
| Tally.TotalFold | Sec18_examples/flags2_asyncio_executor.py:66-81 | each drained task adds exactly one to the sum of the counts |
| Gate.Semaphore.constructor | Sec18_examples/flags2_asyncio_executor.py:60 | a new semaphore has `concur_req` permits and none taken |
| Gate.Semaphore.Acquire | Sec18_examples/flags2_asyncio_executor.py:35 | entering the `with` block needs a free permit and takes one, staying within capacity |
| Gate.Semaphore.Release | Sec18_examples/flags2_asyncio_executor.py:35-36 | leaving the `with` block gives one permit back |
| Trace.GateSafePrefixes | Sec18_examples/flags2_asyncio_executor.py:35-36 | in a gate-safe run, after every prefix of its events between 0 and capacity permits are held |
| Downloader.StatusesPermutation | Sec18_examples/flags2_asyncio_executor.py:61 | reordering the codes reorders their statuses and changes nothing else |
| Downloader.StartDownload | Sec18_examples/flags2_asyncio_executor.py:35-36 | starting a download takes one permit and then sends the request for the code's URL |
| Downloader.FinishDownload | Sec18_examples/flags2_asyncio_executor.py:36-49 | finishing a download gives the permit back and yields download_one's outcome; only after the release is the save dispatched, if any |
| Downloader.SomeTaskEnabled | Sec18_examples/flags2_asyncio_executor.py:35 | with at least one permit, while a task is unfinished some task can move, so the run never deadlocks |
| Downloader.StartTask | Sec18_examples/flags2_asyncio_executor.py:35-36 | task i, and no other, moves from waiting to in flight: the gate takes one more permit and the log gains its acquire and its request; the run invariant is kept (gate within capacity, permits held equal to the tasks in flight, every event belonging to a task of the run, each task's events matching its phase) |
| Downloader.FinishTask | Sec18_examples/flags2_asyncio_executor.py:36-81 | task i, and no other, moves from in flight to done: the gate gives one permit back, the log gains its release and then its save, and exactly its status is appended to the drained statuses and added to the counter; the run invariant is kept |
| Downloader.RunTasks | Sec18_examples/flags2_asyncio_executor.py:63-81 | however the event loop interleaves the tasks, the loop ends with every task done and the run invariant holding: the gate within capacity, the permits held equal to the tasks in flight, every event belonging to a task of the run, each task's events matching its phase, and the counter the fold of the drained statuses of the finished tasks |
| Downloader.FinalTrace | Sec18_examples/flags2_asyncio_executor.py:35-47 | when every task has finished, each one's events are: take a permit, request its URL, give the permit back, then dispatch the save on success |
| Downloader.FinalCounts | Sec18_examples/flags2_asyncio_executor.py:66-83 | when every task has finished, the drained statuses are those of all the codes, and the counter is their tally and sums to the number of codes |
| Downloader.DownloaderCoro | Sec18_examples/flags2_asyncio_executor.py:57-83 | for every interleaving: the counter is the tally of the codes' statuses and sums to `len(cc_list)`; it is the fold of the statuses in completion order (`drained`, a ghost result, as is the event `log`); every event in `log` belongs to one of the `len(cc_list)` tasks, the gate never exceeds `concur_req` and ends with every permit returned; each task requested its own URL inside its permit and dispatched its save after returning it |
| Downloader.DownloadMany | Sec18_examples/flags2_asyncio_executor.py:86-92 | the returned counts are the tally of the codes' statuses and sum to `len(cc_list)` |
| Downloader.AsWrittenCountsOnlyErrors | Sec18_examples/flags2_asyncio_executor.py:33-41 | the tally of the as-written statuses is exactly {error: len(cc_list)}, and empty for an empty list |

## Left out

- The asyncio event loop, `yield from` suspension, `as_completed` and `loop.close`. They are modelled only through the arbitrary choice of the next task to move, so completion order is any order the gate allows.
- `aiohttp.request` and `resp.read` are network I/O. The reply is the parameter `network(url)`, so the same URL always gets the same reply. A failing `resp.read` is folded into the client failure `TransportFailure`.
- The exception classes the HTTP client raises, and the arguments aiohttp gives an `HttpProcessingError`, are not modelled. The `headers=resp.headers` that `get_flag` passes to `HttpProcessingError` (`:29`) are not kept either, since nothing in the file reads them. `CauseException` takes those arguments as a parameter, and exception arguments are modelled as strings.
- `run_in_executor`, the thread pool and the body of `save_flag` are storage I/O in another thread. Only the call handed to the executor is modelled (the image and the file name), as a `Save` event.
- `tqdm` progress bars, the `verbose` flag and every `print` are output only. The message chosen for printing is still modelled, as `ErrorMessage`.
- `DEFAULT_CONCUR_REQ` and `MAX_CONCUR_REQ` (`:12-13`) are only handed to `main` (`:96`). `main` lives in `flags2_common` with the command line, and that module is not part of this model.
- Cancellation of tasks is not modelled, and neither is an exception escaping the drain loop.
- Downloader.DownloaderCoro: requires `concur_req >= 1` when `cc_list` is non-empty; an empty run needs no permit and is allowed with `concur_req == 0`. With no permits and at least one code, no task can ever pass the gate and the coroutine never finishes, so there is no final counter to state anything about. Downloader.DownloadMany has the same precondition. A negative `concur_req` makes `asyncio.Semaphore` raise ValueError at `:60`, so `downloader_coro` and `download_many` raise; `concurReq` is a `nat`, so that error path is not modelled.
- FlagsCommon.Lower: lower-cases ASCII letters only, not the full Unicode mapping of `str.lower()`. Country codes are ASCII.
- `Sec10_examples/vector_v1.py`, `Section14.py` and `Section3.py` are not part of this model. They hold float vectors, tutorial prose, a random die roll and commented-out code.

## Findings

| source | as written | input that shows it | evidently intended | confidence | as-written member | corrected member |
|---|---|---|---|---|---|---|
| Sec18_examples/flags2_asyncio_executor.py:33-35 | the parameter is named `semaphor` but the body enters `with (yield from semaphore)`. That name is local to `downloader_coro`, so looking it up raises NameError inside the `try`, and line 41 turns it into `FetchError(cc)` | any code, say "BR", against a server that answers 200: it is counted as error, and a whole run counts only errors | the body uses the semaphore passed in, so each code is fetched under the gate and counted ok, not_found or error by its reply | not executed | Fetch.DownloadOneAsWritten | Fetch.DownloadOne |
