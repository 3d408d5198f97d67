# pyzayo pagination and fetchers, modelled in Dafny

pyzayo is a Python client for the Zayo service-management API. Its core is a
paginator, `ZayoClient.paginate_records`, built on offset/limit (`skip`/`top`) paging:

- It applies paging defaults to the caller's request params.
- It sends a count probe (`get_records_count`) whose paging asks for zero rows and reads the total record count.
- It plans `ceil(total / page_sz)` page requests, page `i` with window `{top: page_sz, skip: i * page_sz}`.
- It sends them all together and concatenates the records of the pages that did not fail, in page order.

Two groups of fetchers are built on it:

- The maintenance fetchers of `ZayoMtcClient`:
  - `get_cases`, `get_case`, `get_impacts`;
  - the two notification GETs;
  - `get_case_details`, which composes them and short-circuits when the case is not found.
- The service-inventory fetchers of `ZayoServiceInventoryMixin`: `get_services` and `get_service_by_circuit_id`.

The model is pure: the HTTP client is a function `Transport = Request -> Response` passed as a parameter.

- Every operation returns a `Run`: its result (records, or the error Python would raise) and the exact list of requests it sent. This makes statements such as "no page requests are sent" provable.
- JSON is the `Value` datatype, and Python truthiness is `Truthy`.
- The imperative parts of `paginate_records` are methods, each proved equal to a specification function:
  - `ApplyPagingDefaults`, the `setdefault` steps, equals `Client.PrepareParams`;
  - `PlanPages`, the `for page in range(total_pages)` loop, equals `Client.PageRequests`;
  - `PaginateRecords`, the whole method, equals `Client.Paginate`.
- The fetchers call `paginate_records(url=..., **params)`. `Client.CallPaginate` models that call, including the `TypeError` Python raises when the params hold a second `url` or `self`.

Files:

- `json.dfy`: JSON values, truthiness, subscripts, `first()`.
- `api.dfy`: routes, requests, responses, errors.
- `client.dfy`: the paginator.
- `pagination_properties.dfy`: what the paginator promises.
- `mtc_client.dfy` and `svcinv_mixin.dfy`: the fetchers and their properties.

The model follows the code, including these behaviours that its comments, docstrings or names do not make plain:

- **No clamp.** The page size is the caller's `paging.top` as given. Nothing clamps it to `MAX_TOP_COUNT` (50), which the comment at `pyzayo/consts.py:25` calls the API's maximum `top`, so `top=1000` produces pages of `top=1000`. The model's honest server (`PaginationProperties.Serve`) serves at most 50 records per page, taking `MAX_TOP_COUNT` as the API's page limit. Against it, `PaginationProperties.OversizedPagesLoseRecords` shows that `top=100` over 150 records returns records 0-49 and 100-149, and records 50-99 never come back.
- **Last page is full size.** The last page's `top` is `page_sz`, not the remainder (`pyzayo/client.py:168`). For 120 records the tops are 50, 50, 50.
- **Caller's skip is ignored.** A `skip` the caller supplies is never sent. The probe's paging is replaced whole by `{top: 0}`, and each page's paging is replaced whole by its own window.
- **`first()` returns the first truthy element.** Despite its name, `get_case` and `get_service_by_circuit_id` return the first truthy element (the behaviour of the `first` library), not simply the first record.
- **Not found is `(None, None, None)`.** A missing case gives `(None, None, None)`. The model names that result `NotFound`.
- **No 100-record limit.** The docstring of `paginate_records` (`pyzayo/client.py:129-134`) mentions a 100-record limit, but the code walks all pages.

## Model

| member | source | states |
|---|---|---|
| Json.Number | pyzayo/client.py:154 | the numeric reading of a value for `/`: an int is itself, a bool is 0 or 1, anything else is no number |
| Json.Field | pyzayo/client.py:110 | `v[key]` succeeds exactly when `v` is an object holding `key`, and then gives that field |
| Json.First | pyzayo/mtc_client.py:93 | `first(xs)` is None exactly when no element is truthy; otherwise it is truthy, occurs in `xs`, and every earlier element is falsy |
| Client.PrepareParams | pyzayo/client.py:140-145 | succeeds exactly when `paging` is absent or a dict; the page size is the caller's `top`, else 50; the prepared params carry that `top`, differ from the caller's only in `paging`, and with no params are `{paging: {top: 50, skip: 0}}` |
| Client.ApplyPagingDefaults | pyzayo/client.py:140-145 | the in-place `setdefault` steps compute exactly `PrepareParams` |
| Client.ProbePayload | pyzayo/client.py:106-107 | the probe body has paging `{top: 0}` and keeps every other param |
| Client.TopOf | pyzayo/client.py:142 | no contract of its own: `params["paging"]["top"]` when present; its use is stated by `Client.PrepareParams` |
| Client.TotalOf | pyzayo/client.py:110 | no contract of its own: `data.metadata.totalRecordCount`; stated by `Client.GetRecordsCount` |
| Client.RecordsOf | pyzayo/client.py:176 | reading `data.records` succeeds exactly when the body is an object whose `data` is an object holding a `records` list, and then gives that list; otherwise the body is malformed |
| Client.GetRecordsCount | pyzayo/client.py:106-110 | sends exactly one POST of the probe body; an error status raises; otherwise the result is `data.metadata.totalRecordCount`, or malformed when missing |
| Client.CeilDiv | pyzayo/client.py:154 | the exact ceiling of `a / b` for either sign of `b`, non-negative for non-negative `a` and positive `b` |
| Client.PageGeometry | pyzayo/client.py:153-154 | the page count is `max(0, ceil(total / page_sz))`; it succeeds exactly when both are numbers and `page_sz` is non-zero; a non-number is a type error and a zero size a division by zero |
| Client.SkipOf | pyzayo/client.py:168 | no contract of its own: the offset `page * page_sz`; its properties are `PaginationProperties.SkipsIncrease`, `PaginationProperties.WindowsPartition` |
| Client.PageParams | pyzayo/client.py:167-168 | no contract of its own: a page's body; its properties are `PaginationProperties.PageParamsKeepCriteria`, `PaginationProperties.PlanPaging` |
| Client.PageRequests | pyzayo/client.py:166-169 | no contract of its own: the page plan; `Client.PlanPages` is proved equal to it and `PaginationProperties.PlanOfRequests` states its paging |
| Client.Gather | pyzayo/client.py:171-173 | one response per request, in request order, each the transport's answer to that request |
| Client.Assemble | pyzayo/client.py:174-180 | fails only as a malformed body, and responses that are all errors give no records; its properties are `PaginationProperties.AssembleAppend`, `PaginationProperties.AssembleLength`, `PaginationProperties.FailedPageDropsOnlyItsRecords` |
| Client.Paginate | pyzayo/client.py:112-180 | nothing is sent exactly when the paging defaults fail, and that failure passes through; otherwise the first request is the count probe; a failed count, a non-number or a zero page size fails after the probe alone, with that error; its properties are the `PaginationProperties` lemmas |
| Client.CallPaginate | pyzayo/client.py:112 | the fetchers' call `paginate_records(url=..., **params)` (`pyzayo/mtc_client.py:75`, `:163`, `pyzayo/svcinv_mixin.py:56`, `:77`): a `url` or `self` among the params is a duplicate argument: a `TypeError` before anything is sent; otherwise it is exactly `Paginate` |
| Client.PlanPages | pyzayo/client.py:166-169 | the loop builds one request per page, in page order, with paging `{top: page_sz, skip: page * page_sz}`, and equals `PageRequests` |
| Client.PaginateRecords | pyzayo/client.py:140-180 | the method (defaults, probe, page loop, gather, assembly) returns exactly the result and the request list of `Paginate` |
| PaginationProperties.PageParamsKeepCriteria | pyzayo/client.py:167-168 | a page's body differs from the prepared params only in `paging` |
| PaginationProperties.RequestsKeepCriteria | pyzayo/client.py:148-169 | every request sent is a POST to the given route that carries all of the caller's params except `paging` unchanged |
| PaginationProperties.PaginateUnfold | pyzayo/client.py:148-180 | once params, count and geometry are settled, the requests sent are the probe followed by the planned pages, and the result assembles the pages' responses |
| PaginationProperties.PlanOfRequests | pyzayo/client.py:153-169 | exactly `1 + pages` requests are sent: the probe with `{top: 0}`, then page `i` with `{top: page_sz, skip: i * page_sz}` |
| PaginationProperties.PlanPaging | pyzayo/client.py:106-168 | the probe followed by the planned pages has `1 + pages` entries: paging `{top: 0}` first, then `{top: page_sz, skip: i * page_sz}` for page `i` |
| PaginationProperties.SkipsIncrease | pyzayo/client.py:168 | page offsets start at 0 and each is at least one page size beyond every earlier one |
| PaginationProperties.IndexHasPage | pyzayo/client.py:154-168 | for a positive page size, every record index below the total falls in the window of a planned page |
| PaginationProperties.PageOfIndexUnique | pyzayo/client.py:168 | no record index lies in the windows of two different pages |
| PaginationProperties.WindowsPartition | pyzayo/client.py:154-168 | the planned windows partition `0..total`: each index lies in exactly one planned window, page `k / page_sz` |
| PaginationProperties.ZeroTopDividesByZero | pyzayo/client.py:148-154 | a zero page size fails with a division by zero after the probe and before any page is sent |
| PaginationProperties.EmptyTotalSendsOnlyTheProbe | pyzayo/client.py:148-180 | a total of 0 gives an empty record list, and only the probe is sent |
| PaginationProperties.NoParamsPages | pyzayo/client.py:144-168 | with the default params, page `i` is `{paging: {top: 50, skip: 50 i}}` |
| PaginationProperties.NoParamsPlan | pyzayo/client.py:143-168 | with no params the probe body is `{paging: {top: 0}}` and page `i` is `{paging: {top: 50, skip: 50 i}}`, with `ceil(total / 50)` pages |
| PaginationProperties.Example120Records | pyzayo/client.py:154-168 | 120 records at size 50 give three pages at skips 0, 50 and 100, each with top 50 |
| PaginationProperties.AssembleAppend | pyzayo/client.py:174-180 | assembling concatenated response lists is the first failure of the two assemblies, or their concatenation: earlier pages' records come first |
| PaginationProperties.AssembleLength | pyzayo/client.py:174-180 | responses that are errors or carry a records list always assemble, into exactly as many records as the successful pages hold |
| PaginationProperties.AssembleOkIffWellFormed | pyzayo/client.py:174-180 | the assembly succeeds exactly when every response is an error or carries a records list, in both directions |
| PaginationProperties.FailedPageDropsOnlyItsRecords | pyzayo/client.py:178 | a page turned into an error loses exactly that page's records; the records before and after it stay as they were, in order |
| PaginationProperties.WindowsAreSlice | pyzayo/client.py:166-168 | the windows of consecutive pages, concatenated, are the contiguous slice of the dataset they span |
| PaginationProperties.AssembleHonestPages | pyzayo/client.py:174-180 | honest answers for consecutive pages assemble into those pages' windows |
| PaginationProperties.HonestCount | pyzayo/client.py:106-110 | a server holding a dataset answers the probe with the dataset's size |
| PaginationProperties.HonestPages | pyzayo/client.py:166-173 | for a page size of at most 50, that server answers page `j` with the window at `j * page_sz` |
| PaginationProperties.HonestAssembly | pyzayo/client.py:166-180 | for a page size of at most 50, that server's answers to the planned pages assemble into the pages' windows in page order |
| PaginationProperties.HonestServerYieldsDataset | pyzayo/client.py:112-180 | against a server holding a dataset, with a page size from 1 to 50, the result is the whole dataset in order, after exactly `1 + ceil(total / page_sz)` requests |
| PaginationProperties.ServeWindow | pyzayo/client.py:167-168 | the honest server answers paging `{top, skip}` with the window at `skip` of `min(top, 50)` records |
| PaginationProperties.AssembleTwoPages | pyzayo/client.py:174-180 | two successful pages assemble into their records, first page first |
| PaginationProperties.OversizedPlan | pyzayo/client.py:140-154 | `paging.top = 100` is kept as the page size, the honest probe over 150 records answers 150, and the plan is two pages of 100 |
| PaginationProperties.OversizedAnswers | pyzayo/client.py:166-180 | those two pages are answered with records 0-49 and 100-149, which assemble in that order |
| PaginationProperties.OversizedPagesLoseRecords | pyzayo/client.py:140-180 | with `top = 100` over 150 honest records, `paginate_records` sends three requests and returns records 0-49 and 100-149, which is not the dataset |
| MtcClient.GetCases | pyzayo/mtc_client.py:75 | no contract of its own: `CallPaginate` on the cases route with the caller's params; stated by `MtcClient.GetCasesPassesParams` |
| MtcClient.CaseFilter | pyzayo/mtc_client.py:91 | no contract of its own: `{filter: {caseNumber}}`; stated by `MtcClient.GetCaseSelectsFirstMatch` |
| MtcClient.GetCase | pyzayo/mtc_client.py:90-93 | sends what the cases pagination sends; a returned case is truthy |
| MtcClient.ImpactFilter | pyzayo/mtc_client.py:155-160 | no contract of its own: the precedence is stated by `MtcClient.ImpactBody` |
| MtcClient.ImpactParams | pyzayo/mtc_client.py:162 | no contract of its own: stated by `MtcClient.ImpactBody` |
| MtcClient.GetImpacts | pyzayo/mtc_client.py:155-163 | no contract of its own: `CallPaginate` on the impacts route; stated by `MtcClient.ImpactsFilterPrecedence` |
| MtcClient.FetchData | pyzayo/mtc_client.py:178-188 | one GET of the route; it succeeds exactly when the status is not an error and the body has `data`, and then yields `data`; an error status raises `HttpError`, and a missing `data` is malformed |
| MtcClient.GetNotifications | pyzayo/mtc_client.py:165-188 | no contract of its own: the GET of the case's notifications route, as stated by `MtcClient.FetchData` |
| MtcClient.GetNotificationDetails | pyzayo/mtc_client.py:190-213 | no contract of its own: the GET of the notification's route, as stated by `MtcClient.FetchData` |
| MtcClient.NameOf | pyzayo/mtc_client.py:125 | no contract of its own: `notif["name"]`; stated by `MtcClient.FetchDetails` |
| MtcClient.Iterate | pyzayo/mtc_client.py:126 | iterating succeeds exactly on a list, an empty dict or an empty string; a list gives its elements and the empty ones give nothing; every other value (None, numbers, bools, non-empty dicts and strings) raises, as a malformed body |
| MtcClient.FetchDetails | pyzayo/mtc_client.py:124-127 | one GET per notification header, in header order, by the header's name; on success one detail per header, each the data of that header's GET |
| MtcClient.GetCaseDetails | pyzayo/mtc_client.py:95-129 | the case lookup's requests come first; its error passes through; a found case is truthy; its properties are `MtcClient.CaseDetailsShortCircuit`, `MtcClient.CaseDetailsFound`, `MtcClient.CaseDetailsSucceed`, `MtcClient.CaseDetailsPassesErrors` |
| MtcClient.CaseFollowUp | pyzayo/mtc_client.py:122-129 | the steps after a found case: a successful result is `Found` with that case as its record |
| MtcClient.GetCasesPassesParams | pyzayo/mtc_client.py:75 | `get_cases` sends every request to the cases route with all of the caller's params except `paging` |
| MtcClient.GetCaseSelectsFirstMatch | pyzayo/mtc_client.py:90-93 | every request filters on `{caseNumber: case_num}` at the default size 50; the result is None exactly when no record found is truthy, else the first truthy one; pagination errors pass through |
| MtcClient.ImpactBody | pyzayo/mtc_client.py:155-162 | a body built from `get_impacts` params keeps the caller's params, and its filter is the caller's `filter`, else `{caseNumber}` when truthy, else `{circuitId}` when truthy, else `{}` |
| MtcClient.ImpactsFilterPrecedence | pyzayo/mtc_client.py:155-163 | every request goes to the impacts route with the caller's params; its filter is the caller's `filter` if given, else `{caseNumber}` when truthy, else `{circuitId}` when truthy, else `{}` |
| MtcClient.CaseDetailsShortCircuit | pyzayo/mtc_client.py:117-120 | the details are not found exactly when `get_case` finds nothing, and then no impact or notification request is sent |
| MtcClient.CaseFoundFollowsUp | pyzayo/mtc_client.py:117-129 | once the case is found, the result is the follow-up's, and the case lookup's requests precede the follow-up's |
| MtcClient.CaseDetailsFound | pyzayo/mtc_client.py:117-129 | a found case comes with the impacts for its case number and one detail per notification header, in order, each fetched by that header's name |
| MtcClient.DetailFetched | pyzayo/mtc_client.py:125 | no contract of its own: a header has a name and its detail GET succeeds; stated by `MtcClient.FetchDetailsSucceed` |
| MtcClient.DetailError | pyzayo/mtc_client.py:125 | no contract of its own: the error a header raises, the missing name or the failed GET's; stated by `MtcClient.FetchDetailsFails` |
| MtcClient.DetailRequests | pyzayo/mtc_client.py:125 | no contract of its own: a header without a name sends no GET; stated by `MtcClient.FetchDetailsFails` |
| MtcClient.FailsAt | pyzayo/mtc_client.py:124-127 | no contract of its own: the comprehension stopped at header `k`; stated by `MtcClient.FetchDetailsFails` |
| MtcClient.FetchDetailsSucceed | pyzayo/mtc_client.py:124-127 | when every header has a name and every detail GET succeeds, the comprehension succeeds after exactly one GET per header, in header order |
| MtcClient.FetchDetailsFails | pyzayo/mtc_client.py:124-127 | a failed comprehension stopped at a header `k`: all headers before it were fetched, header `k` has no name or its GET failed, that error is the result, and only the GETs up to `k` were sent |
| MtcClient.FollowUpSucceeds | pyzayo/mtc_client.py:122-129 | when the impacts, the headers and every detail are had, the follow-up is `Found` with them, after the impacts, headers and detail requests in that order |
| MtcClient.CaseDetailsSucceed | pyzayo/mtc_client.py:117-129 | a found case whose impacts, notification headers and details are all had gives exactly `(case, impacts, details)`, after the case, impacts, headers and detail requests in that order |
| MtcClient.CaseDetailsPassesErrors | pyzayo/mtc_client.py:122-127 | after a found case, an impacts error, a notifications error, a listing that cannot be iterated or a failed detail fetch is the result, after exactly the requests up to the failing step (for a failed detail fetch, the detail GETs up to the failing header) |
| ServiceInventory.GetServices | pyzayo/svcinv_mixin.py:56 | no contract of its own: `CallPaginate` on the services route with the caller's params; stated by `ServiceInventory.ServiceRequestsKeepCriteria` |
| ServiceInventory.CircuitOf | pyzayo/svcinv_mixin.py:78 | `rec["components"][0]["circuitId"]` succeeds exactly when `components` is a non-empty list whose first element holds `circuitId`, and then gives that first component's `circuitId`; such a record is truthy |
| ServiceInventory.Matches | pyzayo/svcinv_mixin.py:78 | no contract of its own: the first component's circuit id equals the one sought; stated by `ServiceInventory.FindByCircuit` |
| ServiceInventory.Passes | pyzayo/svcinv_mixin.py:78 | no contract of its own: a well-formed record that does not match; stated by `ServiceInventory.FindByCircuit` |
| ServiceInventory.FindByCircuit | pyzayo/svcinv_mixin.py:75-79 | None exactly when every record is well formed and none matches; otherwise the earliest match, after only well-formed, non-matching records; an error means a malformed record was reached before any match |
| ServiceInventory.GetServiceByCircuitId | pyzayo/svcinv_mixin.py:75-79 | for any transport: sends exactly what `get_services` with the same params sends; a pagination error passes through; otherwise the result is the first-match scan (`FindByCircuit`) of the records `get_services` returns |
| ServiceInventory.ServiceRequestsKeepCriteria | pyzayo/svcinv_mixin.py:56-77 | every request goes to the services route with all of the caller's params except `paging` |
| ServiceInventory.HonestLookupScansInventory | pyzayo/svcinv_mixin.py:75-79 | against a server holding an inventory, with a page size from 1 to 50, `get_services` returns all of it and the lookup's answer is the scan of the whole inventory; a `url` or `self` among the params fails the lookup before anything is sent |
| ServiceInventory.OnlyFirstComponentCounts | pyzayo/svcinv_mixin.py:78 | a circuit id held only by a later component does not match |
| ServiceInventory.MatchHidesLaterMalformed | pyzayo/svcinv_mixin.py:75-79 | the scan stops at the first match, so malformed records after it do not raise |

## Left out

- Authentication (`ZayoClient.authenticate`, the access token and `ZayoAPI`): the environment lookup and OAuth exchange are I/O and not part of the pagination logic. The transport is a parameter.
- Concurrency: `asyncio.gather` is modelled as sending every request and getting the responses in request order. Arrival order has no effect on a function of the requests, so the ordering guarantee holds by construction.
- Page retries and exceptions (`pyzayo/client.py:159-164`): the model leaves out the randomized exponential backoff.
  - The `@retry` has no `stop`, so tenacity retries without end.
  - `retry_if_exception(httpx.ReadTimeout)` uses the exception class as its predicate. Constructing it yields a truthy object, so every exception is retried, not only read timeouts.
  - A page whose request keeps raising therefore makes `paginate_records` never return, and no exception reaches `gather`. Even if one did, `.is_error` on it would raise.
  - The transport is total, so the model never raises: it only returns HTTP responses.
  - Only HTTP error statuses are dropped from the result. httpx returns those as responses instead of raising them, which is what `Assemble` and `FailedPageDropsOnlyItsRecords` cover.
- Floating point: `math.ceil(max_recs / page_sz)` goes through a float. The model computes the exact ceiling. JSON floats are not part of `Value`, so a float total or page size cannot be represented.
- The `print` of the page plan in `paginate_records`: output only.
- Aliasing: `setdefault` adds `top` to the caller's own nested `paging` dict. The model works on values, so that change to the caller's object is not visible.
- Route strings: routes are the `Api.Route` datatype. The service-inventory route constant is imported from `pyzayo/consts.py`, but `pyzayo/consts.py` does not define `ZAYO_SM_ROUTE_SERVICES`.
- Notification names are passed through as any JSON value, as `str.format` would accept them.
- Response bodies are already decoded JSON: `Response.body` is a `Value`. A body that is not valid JSON cannot be represented, so the model leaves out `json()` raising on it in `get_records_count` (`pyzayo/client.py:110`), in the page assembly (`pyzayo/client.py:176`) and in the notification GETs (`pyzayo/mtc_client.py:187`, `pyzayo/mtc_client.py:212`).
- Error subclasses: Python's `KeyError`, `TypeError` and `IndexError` from subscripting a response or record are all modelled as `Malformed`. `raise_for_status` is modelled as `HttpError`. The `TypeError` of a duplicate keyword argument is `DuplicateArgument`.
- Records lists: a `data.records` that is not a list is `Malformed`. Python could iterate other iterables, such as a dict's keys.
- The CLI (`pyzayo/cli/`) and the pydantic models of `pyzayo/mtc_models.py`: presentation, not core.
- The `first` library: only its choice of the first truthy element is modelled, from its documented behaviour. Its `key` and `default` arguments are unused by the source.
- Keyword arguments: a fetcher's params are a Python `**params` dict, so they never hold a key the fetcher binds itself (`by_case_num`, `by_circuit_id`). The model's `Params` can hold such keys. It passes them on like any other param, which Python never does.
