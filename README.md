# Request/check lifecycle of an OOI stream harvester, in Dafny

This project models the `produce` routine in `recipe/producer.py`. One run of
`produce` works in one of two modes, and the runs pass state to each other
only through two files: the status record and the last request response.

* **Request mode** looks up the configured `table_name` in the stream index
  fetched from the OOI service. If the stream is not listed, the status is
  `discontinued`. Otherwise the run submits one of two strategies, chosen by
  the `goldcopy` harvest option:
  * a single gold-copy catalog export;
  * an on-demand request: first an estimate, then the real request if the
    estimate carries a `requestUUID`.

  The run then overwrites both files.
* **Check mode** reads both files and decides the next status:
  * a `discontinued` stream stops the run;
  * a response without `status_url` becomes `skip`;
  * a finished job becomes `success` with `data_ready`;
  * a job still running more than two days after its request is decided by a
    catalog scan: `success` if at least one dataset survives the filter,
    `failed` otherwise;
  * a job still running within two days stops the run with nothing written.

Files:

* `records.dfy`, module `Records`: the status values, the status record, the
  persisted response, stream index entries and harvest options. It also
  defines the two files as a `Disk` value, what a run ends with (`Outcome`:
  `Exited`, `Raised` or `Wrote`), and `Persist`, the files after a run.
* `stream_lookup.dfy`, module `StreamLookup`: the first-match scan of the
  stream index.
* `check_mode.dfy`, module `CheckMode`: the check-mode decision as a function,
  with one lemma per branch.
* `request_mode.dfy`, module `RequestMode`: the request-mode decision and the
  two strategies, with their lemmas.
* `producer.dfy`, module `Producer`: the class `Store`, whose fields are the
  two files. Its methods `Check`, `Request` and `Produce` follow the source
  step by step, except in one branch. When the gold-copy export raises,
  `Request` follows the corrected `GoldCopy` (see "## Findings"). In check mode the loaded record is updated in place and then
  written back. Each method is proved equal to the decision function, and the
  new files equal `Persist` of the old files. The module also proves lemmas
  about a series of runs.

Remote calls are parameters that give either a value or the exception raised
(`Result`). They are `fetch_streams_list`, `create_catalog_request`,
`create_request_estimate`, `perform_request`, `check_in_progress`, and the
catalog scan (`parse_response_thredds` followed by
`filter_and_parse_datasets`, reduced to the number of datasets it keeps).
The clock is a parameter too. Times are integers in microseconds, the
resolution of Python's `timedelta`. The timeout is strictly more than
`2 * 86400 * 10^6` microseconds. A `sys.exit(0)` is the outcome `Exited`,
and it writes nothing. An exception that `produce` does not catch is the
outcome `Raised`. It writes nothing either, because every such exception
comes before the first write.

Points of the code's behaviour that the lemmas make explicit:

* Only check mode keeps a `discontinued` record. Request mode never reads
  the status record, so it overwrites a `discontinued` record once the
  stream is listed again (`RequestMode.RequestOverwritesRecord`,
  `RequestMode.RequestMayReviveDiscontinued`).
* Check mode polls again from any status other than `discontinued`,
  including `success`, `failed` and `skip`.
* A fresh record, built by `get_status_json`, carries the table name, the
  request time and the status it is given (`RequestMode.NewStatus`). Its
  `data_ready` is the parameter `defaultReady`. The body of
  `get_status_json` is not part of this model, so the model claims nothing
  about that value.
* During the stream scan, an entry without a `table_name` key raises
  `KeyError` inside the filter. The same `except Exception` that handles "no
  match" catches it. So such an entry ends the scan as "not found", and the
  stream becomes `discontinued`.

## Model

| member | source | states |
|---|---|---|
| `StreamLookup.FindStream` | recipe/producer.py:108-122 | a stream it finds is an entry of the index that carries the configured `table_name` |
| `StreamLookup.FindStreamIsFirstMatch` | recipe/producer.py:110-112 | the scan finds a stream exactly when some entry is the first match (every earlier entry has some other name), and then it returns that entry |
| `StreamLookup.AbsentNameNotFound` | recipe/producer.py:109-121 | a name that no entry carries is reported as not found |
| `StreamLookup.FindStreamWellFormed` | recipe/producer.py:110-112 | when every entry has a `table_name`, a stream is found exactly when some entry carries the name, and it is the entry of least index that does |
| `CheckMode.CheckStep` | recipe/producer.py:50-103 | check mode writes only when both files exist and the stream is not discontinued; it writes only the status record, never the response; the written status is `success`, `failed` or `skip`; `data_ready` holds exactly when the status is `success`; every other field of the record is unchanged |
| `CheckMode.CheckNeedsBothFiles` | recipe/producer.py:52-54 | a missing status or response file ends check mode before anything is read or written |
| `CheckMode.CheckKeepsDiscontinued` | recipe/producer.py:60-103 | a `discontinued` record ends check mode with both files unchanged, whatever the remote service answers |
| `CheckMode.CheckSkipsDirectResponse` | recipe/producer.py:98-100 | a response whose `result` has no `status_url` makes the record `skip` with `data_ready` false |
| `CheckMode.CheckFinishedJob` | recipe/producer.py:62-68 | a job not in progress makes the record `success` with `data_ready` true |
| `CheckMode.CheckTimedOut` | recipe/producer.py:69-92 | a job still in progress more than two days after `request_dt` gets `success` and `data_ready` exactly when the catalog scan keeps at least one dataset, and `failed` exactly when it keeps none |
| `CheckMode.CheckWithinTimeout` | recipe/producer.py:93-97 | a job still in progress at most two days after `request_dt` ends the run with nothing written |
| `CheckMode.CheckPollFailurePropagates` | recipe/producer.py:62-64 | an exception from polling the job is not caught, and nothing is written |
| `CheckMode.CheckKeepsConsistency` | recipe/producer.py:65-100 | check mode keeps the rule that only a `success` record carries `data_ready`, and leaves the response file alone |
| `CheckMode.CheckIdempotent` | recipe/producer.py:55-100 | a second check with the same remote answers and the same clock leaves the files as the first check left them |
| `RequestMode.GoldCopyAsWritten` | recipe/producer.py:124-172 | as written, a gold-copy export that raises makes the whole run raise; a run that writes has status `pending` |
| `RequestMode.GoldCopy` | recipe/producer.py:124-142 | a gold-copy run always writes a response; the status is `pending` exactly when the export returns (its response is persisted) and `failed` exactly when it raises |
| `RequestMode.OnDemand` | recipe/producer.py:143-167 | an on-demand run writes only `pending` or `failed`, only after an estimate that has an `estimated` object, and `pending` exactly when that object carries `requestUUID` |
| `RequestMode.RequestStep` | recipe/producer.py:104-172 | request mode never just exits; when it writes, it writes a response together with a status of `pending`, `failed` or `discontinued`, stamped with this table name and request time (the gold-copy failure branch follows the corrected `GoldCopy`, see "## Findings") |
| `RequestMode.AbsentStreamDiscontinued` | recipe/producer.py:109-121 | a table name absent from the index makes the stream `discontinued`, with the not-found message as response, whatever the harvest options |
| `RequestMode.RequestUsesFirstMatch` | recipe/producer.py:109-151 | the first matching index entry is the one passed to the strategy, and `goldcopy` picks the strategy |
| `RequestMode.GoldCopyOutcomes` | recipe/producer.py:124-142 | with gold copy, the result is `pending` with the export's response when the export returns; when it raises, the corrected `GoldCopy` gives `failed`, where the code as written raises and writes nothing (see "## Findings") |
| `RequestMode.OnDemandOutcomes` | recipe/producer.py:144-167 | on demand, an estimate without `requestUUID` is persisted as the response with `failed`; one with it leads to the real request, which gives `pending` with that request's response, or an exception that is not caught |
| `RequestMode.StrategySelection` | recipe/producer.py:123-167 | with gold copy the outcome does not depend on the on-demand calls; without it, it does not depend on the catalog export |
| `RequestMode.GoldCopyFailureNotPersisted` | recipe/producer.py:138-172 | as written, a gold-copy export that raises leaves both files as they were, where the intended behaviour persists `failed` |
| `RequestMode.RequestOverwritesRecord` | recipe/producer.py:104-172 | whatever the files held, a request-mode run that writes leaves exactly the record and response it produced |
| `RequestMode.RequestMayReviveDiscontinued` | recipe/producer.py:104-172 | when the stream is listed again (first match at any index), a request-mode run that writes replaces a `discontinued` record with its own record, whose status is `pending` or `failed` |
| `RequestMode.RequestKeepsConsistency` | recipe/producer.py:118-167 | if fresh records start without `data_ready`, request mode keeps the rule that only a `success` record carries `data_ready` |
| `Producer.DiscontinuedIsAbsorbing` | recipe/producer.py:60-103 | no series of check-mode runs changes either file once the record is `discontinued` |
| `Producer.RunKeepsConsistency` | recipe/producer.py:48-174 | if fresh records start without `data_ready`, every series of runs, in either mode, keeps the rule that only a `success` record carries `data_ready` |
| `Producer.Store.Check` | recipe/producer.py:50-103 | the check-mode method decides as `CheckStep` does; the files afterwards are the old files with that outcome persisted; the response file is untouched; the consistency rule is kept |
| `Producer.Store.Request` | recipe/producer.py:104-172 | the request-mode method decides as `RequestStep` does, including its corrected gold-copy failure branch (see "## Findings"); after a write, the files hold exactly the new response and record |
| `Producer.Store.Produce` | recipe/producer.py:48-174 | one run in the selected mode; the files afterwards are the old files with that run's outcome persisted; request mode uses the corrected gold-copy failure branch (see "## Findings") |
| `Records.Persist` | recipe/producer.py:170-172 | an exit or uncaught exception leaves both files as they were; a write replaces the whole status record; it replaces the response file only when given a response, so check mode leaves the response file alone |
| `RequestMode.NotFoundResponse` | recipe/producer.py:115-117 | the response for an unlisted stream has only a message, which begins with the table name; it has no `result` and no `estimated` |
| `RequestMode.NewStatus` | recipe/producer.py:118-167 | a fresh record carries the table name, the request time and the status it is given; its `data_ready` is the opaque default `defaultReady` |
| `Producer.Invoke` | recipe/producer.py:48-104 | the mode flag picks the step; a check-mode write never carries a response and writes `success`, `failed` or `skip`; a request-mode run never just exits, and its writes carry a response and `pending`, `failed` or `discontinued` |

## Findings

| source | as written | input that shows it | evidently intended | confidence | as-written member | corrected member |
|---|---|---|---|---|---|---|
| recipe/producer.py:138-172 | when the gold-copy export raises, the handler builds a `failed` record but never binds `request_response`, so line 170 raises `UnboundLocalError` before either file is written | `goldcopy: true`, the stream is listed, and `create_catalog_request` raises | persist `failed`, with a message-only response carrying the error (the failure shape of a response) | high, not executed | `RequestMode.GoldCopyAsWritten`, `RequestMode.GoldCopyFailureNotPersisted` | `RequestMode.GoldCopy` |

The rest of the model (`RequestStep`, `Store.Request`) uses the corrected
`GoldCopy`.

## Left out

- Reading and writing YAML and JSON, and the file paths. The two files are the `Disk` value. A loaded status record is assumed to have the fixed shape of `StatusDoc`, with one of the five status values. So the round trip of a record through its text form is not modelled.
- Wall-clock time and `dateutil` parsing. The current time and `request_dt` are integers in microseconds, and a `request_dt` that is missing or does not parse is `None`. The difference between naive and timezone-aware timestamps is not modelled.
- The bodies of the remote calls (`fetch_streams_list`, `create_catalog_request`, `create_request_estimate`, `perform_request`, `check_in_progress`, `parse_response_thredds`, `filter_and_parse_datasets`) and of `get_status_json`. The remote calls are parameters. `get_status_json` is `RequestMode.NewStatus`: it fixes `table_name`, `last_request` and `status` to its arguments, and only `data_ready` is a parameter (`defaultReady`). The arguments passed to them beyond the stream entry, the harvest options and the `refresh` flag are not tracked.
- Console messages (`print`) and the process exit code. The outcome `Exited` stands for exit code 0, and `Raised` stands for a non-zero exit.
- The arguments built for each remote call, such as `custom_range.start`, are not evaluated. An exception raised while building them counts as an exception of that call. The code catches or propagates it at that same point.
- Committing and pushing the result files, command-line parsing and `main` (recipe/producer.py:37-45, 177-190). These are I/O wrappers.
- recipe/pipeline.py and recipe/flow.py: flow construction, registration and scheduling. These are deployment configuration and contain no part of the lifecycle.
