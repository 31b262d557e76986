# Batch request lifecycle of Internet.nl, in Dafny

This project models the lifecycle logic of the Internet.nl batch API views
(`checks/batch/views.py`). Batch API clients submit a batch request of many domains,
poll it, fetch the aggregated report once it is done, and may cancel it. Django, the ORM
and Celery are taken out. The database becomes an immutable `Store.State` with three parts:

- the `BatchRequest` table, keyed by request id. Each record has an owner, a status
  (registering, live, done, cancelled, error) and an optional stored report file;
- the `BatchDomain` table, as a sequence of rows. Each row has an owning request id, a
  domain name and a status (waiting, running, done, error, cancelled);
- the queue of report-generation tasks handed to the background worker.

Each endpoint is a pure function from the state and its inputs to a `Views.Step`: the new
state plus an abstract response. The responses are `UnknownRequest`,
`BadClientRequest(message)`, `GeneralServerError(message)`, `ApiResponse(data)`, and the
`{success, message, data}` acknowledgement of cancellation. The authenticated batch user
is an explicit parameter.

Modules:

- `Options`: the optional value.
- `Status`: the two status enumerations and the "finished" policy (done or error).
- `Decimal`: decimal rendering of counts and a parser for `"<finished>/<total>"`.
- `Store`: records, state, the owner-scoped lookup and the ORM filters and bulk update.
- `Progress`: the finished and total counts, a single-scan counting method, and the
  effect of the cancel cascade on the counts.
- `Views`: `endpoint_request`, `endpoint_results` and `cancel_test`.
- `Lifecycle`: properties that span several calls or the whole database.

## Model

| member | source | states |
|---|---|---|
| Decimal.NatToDecimal | checks/batch/views.py:48 | A count renders as a non-empty run of decimal digits with no leading zero: 0 renders as exactly "0", and every longer rendering starts with a non-zero digit. |
| Decimal.DecimalRoundTrip | checks/batch/views.py:48 | Reading the rendered digits back gives the original count. |
| Decimal.ProgressRoundTrip | checks/batch/views.py:48 | The text `"<finished>/<total>"` parses back to exactly the pair (finished, total). |
| Decimal.FormatProgress | checks/batch/views.py:48 | The progress text built from two counts parses back to exactly those two counts. |
| Decimal.FormatProgressInjective | checks/batch/views.py:48 | Two progress texts are equal only when both counts are equal, so the text is unambiguous. |
| Store.ForeignLookupIsMissing | checks/batch/views.py:33-37 | Looking up an id owned by another user gives the same result as looking it up with that record removed: nothing is found. |
| Store.DomainsOf | checks/batch/views.py:42-43 | The request filter returns only rows of the given request and never more rows than the table holds. Store.DomainsOfMembers shows it keeps every such row. |
| Store.FinishedOf | checks/batch/views.py:44-47 | The status filter returns only rows that are done or in error. Store.FinishedOfMembers shows it keeps every such row. |
| Store.NoRowsIff | checks/batch/views.py:42-43 | The request filter is empty exactly when no row of the table belongs to the request. |
| Store.DomainsOfMembers | checks/batch/views.py:42-43 | The request filter keeps exactly the domain rows whose owning request is the given one. |
| Store.FinishedOfMembers | checks/batch/views.py:44-47 | The status filter keeps exactly the rows whose status is `done` or `error`. |
| Store.UnfinishedOfMembers | checks/batch/views.py:44-47 | The complementary filter keeps exactly the waiting, running and cancelled rows. |
| Store.FinishedPartition | checks/batch/views.py:42-47 | The finished rows and the other rows together account for every row. |
| Store.FinishedAllIff | checks/batch/views.py:44-47 | The finished filter keeps every row iff every row is done or in error. |
| Store.CancelDomains | checks/batch/views.py:110-111 | The bulk update sets every row of the request to `cancelled` whatever its status. All other rows are unchanged, and no row is added or removed. |
| Progress.Total | checks/batch/views.py:42-43 | The total count is at most the table size, and zero exactly when the request owns no row. |
| Progress.Finished | checks/batch/views.py:44-47 | The finished count never exceeds the total count. Progress.FinishedAtMostTotal adds when the two are equal. |
| Progress.FinishedAtMostTotal | checks/batch/views.py:42-47 | finished <= total always. They are equal iff no domain of the request is waiting, running or cancelled. |
| Progress.UnfinishedMakeUpTheRest | checks/batch/views.py:44-47 | The domains missing from the finished count are exactly the waiting, running and cancelled domains of the request. |
| Progress.CountProgress | checks/batch/views.py:42-47 | One scan of the domain table gives both counts, equal to the two filtered counts, with finished <= total. |
| Progress.CancelClearsProgress | checks/batch/views.py:110-111 | After the cascade the request keeps its domain count, but its finished count is 0. |
| Progress.CancelKeepsOtherDomains | checks/batch/views.py:110-111 | The cascade leaves every other request's domain rows exactly as they were. |
| Views.Lower | checks/batch/views.py:39 | ASCII lower-casing keeps the length, leaves no ASCII upper-case letter ('A'–'Z'), and keeps every other character. |
| Views.WantsProgress | checks/batch/views.py:38-39 | The flag is on iff the parameter is present and lower-cases to "true". The separate emptiness test changes nothing. |
| Views.WantsProgressSpellings | checks/batch/views.py:38-39 | Progress is included iff the `progress` parameter is present and spells "true" in any letter case. A missing or empty parameter turns it off. |
| Views.EndpointRequest | checks/batch/views.py:31-50 | Read-only: the state is unchanged. The response is UnknownRequest iff the caller does not own the id. Otherwise it is the request dict, which carries progress fields iff the flag is on. |
| Views.EndpointResults | checks/batch/views.py:55-82 | The full response table: unknown, not yet done (status not done, or report missing), server error (report unreadable) and the parsed report. Request and domain records never change. The queue changes only when a done request has no report, and then gains exactly one task for this user and request. |
| Views.CancelTest | checks/batch/views.py:100-116 | An unknown or foreign id changes nothing. Otherwise the request becomes cancelled and every domain of it becomes cancelled. Other requests, other domains and the queue are untouched, and the answer is always success, "OK" and empty data. |
| Lifecycle.ForeignRequestIsUnknown | checks/batch/views.py:33-37 | All three endpoints answer a foreign request id exactly as they answer a missing one, and change nothing. |
| Lifecycle.OwnerIsolation | checks/batch/views.py:31-116 | Two databases that look the same to a user give that user the same responses from all three endpoints. |
| Lifecycle.ProgressReadsBack | checks/batch/views.py:38-49 | With the flag on, the progress text is exactly the canonical `"<finished>/<total>"` and parses back to (finished, total), and `num_domains` equals total. finished <= total, with equality iff every domain of the request is done or in error. |
| Lifecycle.NoProgressWithoutFlag | checks/batch/views.py:38-41 | With the flag off, the response is the request dict alone. |
| Lifecycle.ResultsDoNotDeduplicate | checks/batch/views.py:66-72 | A done request with no report gets a new generation task on every call. Two calls leave two identical tasks, and both answer "not yet done". |
| Lifecycle.CancelIdempotent | checks/batch/views.py:108-116 | Cancelling twice gives the same state and the same answer as cancelling once. |
| Lifecycle.CancelResetsProgress | checks/batch/views.py:108-111 | After cancel, the request's progress reads 0 out of an unchanged total, because already-done domains are overwritten too. Other requests' domains are unchanged. |
| Lifecycle.ResultsAfterCancel | checks/batch/views.py:63-64 | Once cancelled, even a request that was done with a report gets "not yet done" from the results endpoint, and nothing is enqueued. |
| Lifecycle.EndpointsPreserveWellFormed | checks/batch/views.py:67-70 | All three endpoints keep referential integrity. Every queued task names an existing request owned by the user it was queued for. |

Points of `checks/batch/views.py` the model keeps as written:

- `endpoint_results` enqueues nothing for a request whose status is not done.
- For a done request without a report, `endpoint_results` enqueues a generation task on
  every call; it does not look for a task already in the queue.
- The domain count is reported under the key `num_domains`.
- The finished statuses are exactly done and error, fixed in the query.

## Left out

- `endpoint_requests`, `list_requests` and `register_request` are left out. Listing and
  registration are done in `checks/batch/util.py`, which is not part of this model.
- `endpoint_metadata_report` only passes static metadata through, `documentation` is a
  fixed redirect, and `old_url` is a constant error. None of them holds any state logic.
- `checks/admin.py` is left out: it only registers models with the Django admin site.
- Left out of the HTTP layer: `require_http_methods` gating, the `check_valid_user`
  decorator (the user is a parameter), and the response envelopes of `.responses`.
  Those envelopes are abstract constructors here.
- `to_api_dict` is left out: the response carries the request record itself in place of
  its serialisation.
- Report file I/O is left out. `has_report_file()` becomes "the record holds a report
  file". Opening the file and `json.load` become a stored `Parsed(json)` or `Unreadable`
  value.
- The generation task itself is left out; it is defined in `checks/batch/util.py`, which
  is not part of this model. Only its enqueueing is modelled, as an append to the queue.
  `get_site_url(request)` becomes a parameter.
- Request ids are map keys, so two requests never share an id. The error that
  `objects.get` raises when several rows match (`MultipleObjectsReturned`) is not
  modelled. `checks/models.py` is not part of this model.
- Views.Lower and Views.WantsProgressSpellings: `str.lower()` is modelled on ASCII letters only,
  so non-ASCII letters are kept as they are and the length never changes.
  Comparing with "true" is still exact: no non-ASCII character lowercases to `t`, `r`,
  `u` or `e`.
- The report payload is simplified. JSON numbers are integers only, so the floats, NaN and
  Infinity that Python's JSON parser can return are not represented. Objects are lists of
  pairs, so a duplicate key is kept where a Python dict keeps only the last. No part of
  the model inspects the payload.
- Concurrency is left out. So are the row-level atomicity of the ORM `update` and the
  asynchronous status updates from the test engine. Each endpoint is one atomic step.
