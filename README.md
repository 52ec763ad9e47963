# Offline delivery queue of the Redmine time tracker

This project models the part of the time tracker that delivers time entries
to a Redmine server and keeps the entries that could not be delivered in an
offline queue (`src/lib/redmine.ts`), together with the four stores it works
on (`src/lib/stores.ts`). The stores are the settings (server URL and API
key), the request queue, the status message and the busy flag.

- `queue.dfy` (module `RedmineQueue`) holds the values:
  - the records `TimeEntryPayload` and `QueuedRequest`;
  - the status tags and the outcomes a POST can meet;
  - the filter-by-identifier `Without` that the drain applies to the queue;
  - `DeliveredRun`, the length of the leading run of answered sends;
  - the lemmas that describe them.
- `redmine.dfy` (module `Redmine`) holds the class `Engine`. Its fields are the
  four stores, and its methods are the four operations:
  - `TrySendRequest`, `AddToQueue`, `LogTime` and `ProcessQueue`;
  - `ProcessQueue`'s loop is `RetryInOrder` and the loop's body is `RetryHead`.
- `scenarios.dfy` (module `RedmineScenarios`) has callers that check
  concrete runs from the contracts alone:
  - offline submissions;
  - a drain that is cut short;
  - a refused entry;
  - a drain while the engine is busy.

The network is an oracle. The field `network` lists the outcomes that
successive POSTs meet, one per POST:
- `Ok`: a 2xx response.
- `ServerError`: a non-2xx response whose body could be read.
- `UnreadableServerError`: a non-2xx response whose body read throws.
- `NetworkError`: the fetch throws.

An exhausted oracle means the fetch fails. The field `posted` logs every
request POSTed, in order. So contracts can state which requests were
attempted and which were never tried. Request identifiers are the
millisecond clock readings that the `req_<time>` strings are built from.
Each operation takes its clock readings as parameters.

Four behaviours of the code that the model keeps as written:
- A successful submission does not drain the queue. `logTime` sets the busy
  flag before it calls `processQueue` (`src/lib/redmine.ts:105`, `:121`), and
  `processQueue` returns at once when the flag is set (`:135`). So that
  nested drain never does anything.
- A refusal from the server does not stay visible. The rejection message
  set by `trySendRequest` (`:65`) is overwritten straight away by the success
  message, on the submit path (`:119`) and on the drain path (`:157`).
- A refusal is treated as a network failure in one case: when reading the
  refused response's body throws (`await response.text()` at `:64`). The
  exception is caught (`:70`) and the send returns `false`, so a refused
  entry is queued or kept. This is the `UnreadableServerError` outcome.
- The queued copy of a failed submission is not the request that was sent.
  `addToQueue` re-reads the settings and takes a fresh clock reading (`:86`,
  `:89`), so its identifier can differ from the identifier of the request
  `logTime` POSTed (`:110`). `LogTime` therefore takes two clock readings.

## Model

| member | source | states |
|---|---|---|
| Redmine.Engine.constructor | src/lib/stores.ts:24-52 | Settings and queue are the persisted values when there are any. Otherwise they are the defaults: empty URL and key, empty queue. The status starts blank and the engine idle. |
| Redmine.Engine.TrySendRequest | src/lib/redmine.ts:42-79 | Returns true exactly when the POST gets a response whose handling does not throw, whether ok or refused. Only a refusal writes the status, as a rejection for that issue. It POSTs the request once and consumes one outcome. The queue, busy flag and settings are outside its frame. |
| Redmine.Engine.AddToQueue | src/lib/redmine.ts:85-97 | The queue becomes exactly the old queue plus one request at the tail. That request holds the payload, the current settings' URL and key, and the given clock reading. The status becomes "queued offline" for that issue. Unique identifiers stay unique when the clock is later than every queued identifier. |
| Redmine.Engine.LogTime | src/lib/redmine.ts:104-128 | Always ends idle, after POSTing exactly one request built from the current settings. On a failed send the queue grows by one request at the tail and the status is "queued offline". On an answered send the queue is unchanged, because the nested drain finds the engine busy. The status is then "logged" even after a refusal. |
| Redmine.Engine.ProcessQueue | src/lib/redmine.ts:134-172 | When the engine is busy or the queue is empty, nothing changes and nothing is POSTed. Otherwise it POSTs the snapshot from the head: exactly the answered run plus the failing request, or the whole snapshot. The queue loses exactly the identifiers of the delivered requests. With unique identifiers that leaves the snapshot minus its first `DeliveredRun` requests, and nothing when all were delivered. The engine ends idle. The status is "cleared" exactly when the queue ends empty, and "drain stopped" otherwise. |
| Redmine.Engine.RetryInOrder | src/lib/redmine.ts:144-166 | The loop over the snapshot. The queue becomes the snapshot without the identifiers of its first `DeliveredRun` requests. If every send is answered, the queue is empty and the whole snapshot was POSTed. After a complete drain the status is "queued request sent" for the last request of the snapshot. Otherwise the status is "drain stopped" and only the run and the failing request were POSTed, in order. |
| Redmine.Engine.RetryHead | src/lib/redmine.ts:147-165 | One round of the drain. It POSTs the request once. If the request is answered, every queued request with its identifier is removed and the status is "queued request sent", which also overwrites a rejection. Otherwise the queue is unchanged and the status is "drain stopped". |
| Redmine.SubmitAllOffline | src/lib/redmine.ts:104-128 | N consecutive submissions that all fail append exactly those N entries to the queue, in submission order. The N requests built for sending are POSTed in the same order, and one outcome is consumed per submission. The settings are unchanged, and the engine ends idle with the "queued offline" status for the last entry. With increasing clock readings later than every queued identifier, the identifiers stay unique. |
| RedmineQueue.Without | src/lib/redmine.ts:154 | The filter applied after each delivery never makes the queue longer. |
| RedmineQueue.WithoutMembers | src/lib/redmine.ts:154 | A request survives the filter if and only if it was in the queue and its identifier is not removed. |
| RedmineQueue.WithoutAppend | src/lib/redmine.ts:154 | Filtering distributes over concatenation, so the surviving requests keep their relative order. |
| RedmineQueue.WithoutTwice | src/lib/redmine.ts:154 | Two successive removals equal one removal of the union of their identifiers. |
| RedmineQueue.WithoutNoMatch | src/lib/redmine.ts:154 | Removing identifiers that no queued request carries leaves the queue unchanged. |
| RedmineQueue.WithoutIrrelevant | src/lib/redmine.ts:154 | Only the removed identifiers that occur in the queue affect the result. |
| RedmineQueue.WithoutKeepsUnique | src/lib/redmine.ts:154 | Filtering keeps identifiers unique. |
| RedmineQueue.DrainedPrefix | src/lib/redmine.ts:146-166 | With unique identifiers, removing the identifiers of the first k requests leaves exactly the requests from position k on. |
| RedmineQueue.WithoutCovered | src/lib/redmine.ts:146-170 | Removing every identifier of a queue empties it, even with duplicates. So a drain that delivers its whole snapshot ends with an empty queue. |
| RedmineQueue.DrainStep | src/lib/redmine.ts:152-156 | Removing one more delivered identifier equals removing the identifiers of a prefix one request longer. |
| RedmineQueue.IdsPrefix | src/lib/redmine.ts:146-156 | The identifiers of a prefix one longer are the old ones plus the next request's. |
| RedmineQueue.IdsAppend | src/lib/redmine.ts:95 | Appending a request adds exactly its identifier. |
| RedmineQueue.DrainStart | src/lib/redmine.ts:144 | Before any delivery the drain's filter removes nothing. |
| RedmineQueue.DeliveredRun | src/lib/redmine.ts:146-165 | The number of requests a drain delivers is at most the snapshot's length and at most the number of outcomes. |
| RedmineQueue.DeliveredRunMeaning | src/lib/redmine.ts:146-165 | Every send within the run is answered. Unless the whole snapshot was delivered, the next send fails, which is where the loop breaks. |
| RedmineQueue.RunStep | src/lib/redmine.ts:150-156 | An answered send extends the delivered run by one, and the rest of the run lies ahead. |
| RedmineQueue.RunStop | src/lib/redmine.ts:160-164 | A failed send ends the run: the number delivered so far is the whole run. |
| RedmineQueue.DrainBegins | src/lib/redmine.ts:139-146 | At the start of a drain the queue is the snapshot, nothing has been POSTed, and the whole run lies ahead. |
| RedmineQueue.DrainAdvance | src/lib/redmine.ts:147-159 | Answering the next request of the snapshot moves the drain forward by one request. The queue loses its identifier, the POST log gains the request, one outcome is consumed, and the local copy shifts by one. |
| RedmineQueue.DrainHalt | src/lib/redmine.ts:160-164 | A failed send of the next request means the drain delivered exactly `DeliveredRun` requests. The POST log ends with the failing request. The failed send leaves the queue unchanged, so with unique identifiers the queue still holds the failing request. |
| RedmineQueue.DrainComplete | src/lib/redmine.ts:146-170 | A drain through the whole snapshot delivered all of it. The queue is empty, and the POST log holds exactly the snapshot. |
| RedmineQueue.AppendKeepsUnique | src/lib/redmine.ts:88-95 | Appending a request stamped later than every queued one keeps identifiers unique and below the next clock reading. |

## Left out

- The HTTP request is replaced by the outcome oracle. That covers `fetch`, the endpoint URL, the headers, `JSON.stringify` of the payload and `response.text()` (`src/lib/redmine.ts:49-56`, `:64`). It is network I/O; only its outcome matters to the queue.
- The console output (`src/lib/redmine.ts:59`, `:64`, `:73-75`) is not modelled. It is logging only.
- `new Date().getTime()` and the `req_` prefix of identifiers are not modelled. Clock readings are parameters (`now`, `sendClock`, `queueClock`), and identifiers are the readings themselves. The prefix only makes the identifier a string, and equal strings mean equal readings.
- The `date: Date` field of the payload is not modelled. Nothing in the core reads it.
- The payload's `hours` is a `real`, not a floating-point number. Nothing in the core computes with it.
- The Svelte stores, their subscriptions and the `localStorage` persistence (`src/lib/stores.ts:24-37`) are not modelled. The engine's fields stand for the stores. The constructor's optional parameters stand for what was persisted, and whether a value was present is all that matters. Writes back to storage are not modelled.
- Async interleaving is not modelled. This includes a submission started while a drain waits on a POST. Every operation runs to completion before the next one starts.
- The exact Italian status texts are replaced by one `Status` tag per message, carrying the issue number or the count the message shows.
- The `isBrowser` check (`src/lib/stores.ts:6`) is not modelled. The model always runs in the browser case.
