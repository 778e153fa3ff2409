# render-status: a Dafny model of the table builder and the API client

render-status is a terminal monitor for services hosted on Render. It asks the
Render API for the user's services and for each service's latest deploy, and
shows them as a "Render Services" table. Cron-job services also get a second
"Cron Jobs" table. This project models the two parts of the tool that hold
logic, and proves what they promise:

- `Client` (client.dfy) models `RenderClient` in `client.py`. It covers the
  request each call makes (`/services`, `/services/{id}/deploys` with a
  `limit` parameter that defaults to 10, `/services/{id}/jobs`). It covers how
  each response's envelope objects are unwrapped: `service`, `deploy`, and
  `job` when the first element is wrapped. It models `item[key]` as Python
  evaluates it: an object without the key raises `KeyError`, and any other
  value raises `TypeError`. It also shows that HTTP errors pass through
  unchanged. The HTTP session is a `Transport` parameter: a function from a
  request to the decoded JSON array or the HTTP error's message.
- `Cli` (cli.dfy) models `get_status_color`, `format_timestamp` and
  `build_services_output` in `cli.py`. `BuildServicesOutput` is a method whose
  two loops are the methods `BuildServiceRows` and `BuildCronRows`. The first
  appends one row per service and looks up the latest deploy of every non-cron
  service. The second builds the cron table. Its
  contract ties the result to the specification function `ServicesOutput`. It
  also ties the deploy lookups it makes, in order, to `ServicesLookups`. The
  lemmas after it state the table properties.
- `Wrappers` (wrappers.dfy) holds `Option` and `Result`.

The table builder takes the client's results as parameters:
- what `get_services` returned, or the message of what it raised;
- a `DeployFetcher`, giving what the `get_deploys(id, limit)` call made for
  the service at a given position returns or raises, so each call has its own
  outcome even when two services share an id;
- a `Localizer` for ISO-8601 parsing, conversion to local time and
  `strftime`. It returns the formatted text, or None when parsing raises.

The replacement of `Z` by `+00:00` before parsing is modelled (`ReplaceZ`).
Rich tables are modelled as a title, column headers and rows of cells. Each
cell's markup is modelled as a colour and a bold flag.

Two behaviours of the code that are easy to miss:
- The services table lists every service, cron jobs included, with "N/A" in
  Status and Latest Deploy. The cron table shown "separately" (the comment at
  cli.py:119) is an addition, not a replacement (`WebAndCronExample`,
  `OneRowPerService`).
- `format_timestamp` returns "N/A" for an empty string as well as for a
  missing value (`FormatTimestampCases`).

## Model

| member | source | states |
|---|---|---|
| `Client.RequestFor` | src/render_status_deploys/client.py:51-100 | the path and parameters of each call; stated by `RequestForInjective` and `RequestExamples` |
| `Client.Unwrap` | src/render_status_deploys/client.py:55 | `[item[key] for item in data]`: on success one payload per item; stated fully by `UnwrapSucceeds`, `UnwrapFailsAtFirst`, `UnwrapNoHttpError` and `UnwrapWrap` |
| `Client.JobsFromBody` | src/render_status_deploys/client.py:104 | the conditional unwrapping of `get_jobs`; stated by `JobsFlatPassThrough`, `WrappedJobsNeedEveryKey`, `JobShapesAgree` and `JobsDetectionFirstOnly` |
| `Client.Fetch` | src/render_status_deploys/client.py:50-60 | send the request, re-raise an HTTP error unchanged, otherwise unwrap the body; stated by `HttpErrorPassesThrough` |
| `Client.GetServices` | src/render_status_deploys/client.py:41-60 | `get_services`; stated by `GetServicesUnwraps` and `HttpErrorPassesThrough` |
| `Client.GetDeploys` | src/render_status_deploys/client.py:62-85 | `get_deploys`; stated by `GetDeploysUnwraps`, `GetDeploysDefaultLimit` and `HttpErrorPassesThrough` |
| `Client.GetJobs` | src/render_status_deploys/client.py:87-109 | `get_jobs`; stated by the `JobsFromBody` lemmas and `HttpErrorPassesThrough` |
| `Client.Subscript` | src/render_status_deploys/client.py:55 | `item[key]` yields the payload exactly when `item` is an object holding `key`; a missing key in an object raises `KeyError(key)`, any non-object raises `TypeError` |
| `Client.Wrap` | tests/test_client.py:30-33 | the envelope wire shape: one object per payload, holding that payload under the key |
| `Client.RequestForInjective` | src/render_status_deploys/client.py:51-100 | two calls that send the same path and parameters are the same call, with the same service id and limit |
| `Client.RequestExamples` | tests/test_client.py:41-84 | `/services`; `/services/srv-1/deploys` with `limit=5`; `/services/srv-2/jobs` with no parameters |
| `Client.GetDeploysDefaultLimit` | src/render_status_deploys/client.py:62 | without a limit, deploys are fetched with `limit=10` |
| `Client.UnwrapSucceeds` | src/render_status_deploys/client.py:55 | unwrapping succeeds iff every item carries the key, and then gives one payload per item, in order |
| `Client.UnwrapFailsAtFirst` | src/render_status_deploys/client.py:55 | a failed unwrap raises the error of the first item lacking the key |
| `Client.UnwrapNoHttpError` | src/render_status_deploys/client.py:58-60 | unwrapping failures are never HTTP errors, so they are not the ones the `except httpx.HTTPError` handler logs and re-raises |
| `Client.UnwrapWrap` | src/render_status_deploys/client.py:78-80 | unwrapping an envelope response gives back exactly its payloads |
| `Client.HttpErrorPassesThrough` | src/render_status_deploys/client.py:50-109 | each of the three calls fails with an HTTP error iff its request fails, and then with the transport's own message and no list |
| `Client.GetServicesUnwraps` | src/render_status_deploys/client.py:50-57 | `get_services` returns the `service` payload of every item in order, and fails iff some item lacks it |
| `Client.GetDeploysUnwraps` | src/render_status_deploys/client.py:75-82 | `get_deploys` returns the `deploy` payload of every item in order, and fails iff some item lacks it |
| `Client.JobsFlatPassThrough` | src/render_status_deploys/client.py:104 | an empty body, or one whose first element is not a wrapped job, comes back unchanged |
| `Client.WrappedJobsNeedEveryKey` | src/render_status_deploys/client.py:104 | once the first element is wrapped, `get_jobs` succeeds iff every element carries `job`, and then returns the payloads in order |
| `Client.JobShapesAgree` | src/render_status_deploys/client.py:103-104 | the wrapped and the flat shape give the same job list, provided the first flat job has no `job` field |
| `Client.JobsDetectionFirstOnly` | src/render_status_deploys/client.py:104 | only the first element is inspected: flat-then-wrapped comes back as is, wrapped-then-flat raises `KeyError("job")` |
| `Cli.StatusColor` | src/render_status_deploys/cli.py:40-56 | `get_status_color`: the colour of a status, by its lowered spelling; its classes are stated by `StatusColorClasses`, its case-insensitivity by `StatusColorIgnoresCase` |
| `Cli.ReplaceZ` | src/render_status_deploys/cli.py:32 | `ts.replace("Z", "+00:00")`; stated by `ReplaceZRemovesZ`, `ReplaceZKeepsOthers` and `ReplaceZExample` |
| `Cli.FormatTimestamp` | src/render_status_deploys/cli.py:20-37 | `format_timestamp` with parsing and local formatting as the `Localizer` oracle; its three branches are stated by `FormatTimestampCases` |
| `Cli.DeployCells` | src/render_status_deploys/cli.py:97-107 | the Status cell and Latest Deploy text from a deploy lookup's outcome; stated by `NonCronServiceRow` |
| `Cli.ServiceRow` | src/render_status_deploys/cli.py:88-117 | one services-table row; stated by `OneRowPerService`, `CronServiceRow`, `NonCronServiceRow` and `LookupFailureIsolated` |
| `Cli.CronRow` | src/render_status_deploys/cli.py:128-140 | one cron-table row; stated by `CronRowCells` |
| `Cli.CronServices` | src/render_status_deploys/cli.py:120 | the cron filter: never longer than the input, and holds only cron services; order and membership by `CronServicesConcat` and `CronServicesMembers` |
| `Cli.DeployLookups` | src/render_status_deploys/cli.py:96-98 | the lookups of the services loop: at most one per service, each with limit 1; exact count by `LookupsPartition`, order by `LookupsInOrder` |
| `Cli.ServicesOutput` | src/render_status_deploys/cli.py:59-144 | the specification of `build_services_output`, which `BuildServicesOutput` meets; stated by `FetchFailureGivesErrorRow`, `EmptyServicesGivePlaceholder`, `OneRowPerService`, `PairIffCron` and `CronTableRows` |
| `Cli.ServicesLookups` | src/render_status_deploys/cli.py:68-98 | the deploy lookups `build_services_output` makes; it takes no fetcher, so the lookups never depend on lookup outcomes; stated by `FetchFailureGivesErrorRow`, `EmptyServicesGivePlaceholder`, `LookupsPartition` and `LookupsInOrder` |
| `Cli.SameIdLookedUpSeparately` | src/render_status_deploys/cli.py:97-98 | two services with the same id are looked up by separate calls: one can fail while the other succeeds |
| `Cli.StatusColorIgnoresCase` | src/render_status_deploys/cli.py:49 | two statuses equal up to letter case get the same colour |
| `Cli.StatusColorClasses` | src/render_status_deploys/cli.py:49-56 | green iff the lowered status is live/succeeded/success, yellow iff building/deploying/running, red iff build_failed/failed/canceled, white iff none of them |
| `Cli.StatusColorExamples` | tests/test_cli.py:33-54 | "live" and "LIVE" are green, "building" yellow, "build_failed" red, "unknown" white |
| `Cli.ReplaceZRemovesZ` | src/render_status_deploys/cli.py:32 | the text handed to the parser contains no `Z` |
| `Cli.ReplaceZKeepsOthers` | src/render_status_deploys/cli.py:32 | a timestamp without `Z` reaches the parser unchanged |
| `Cli.ReplaceZExample` | src/render_status_deploys/cli.py:32 | a trailing `Z` becomes `+00:00` |
| `Cli.FormatTimestampCases` | src/render_status_deploys/cli.py:29-37 | None or "" gives "N/A"; input the parser rejects is returned unchanged; parsed input gives the localized text |
| `Cli.FormatTimestampExamples` | tests/test_cli.py:19-27 | `None` gives "N/A" and "invalid" gives "invalid" |
| `Cli.BuildServicesOutput` | src/render_status_deploys/cli.py:59-144 | the loops produce exactly the specified output, and make exactly the specified deploy lookups in order |
| `Cli.BuildServiceRows` | src/render_status_deploys/cli.py:88-117 | the services loop gives exactly the specified rows, one per service, and makes exactly the specified deploy lookups in order |
| `Cli.BuildCronRows` | src/render_status_deploys/cli.py:128-140 | the cron loop gives exactly the specified row for each cron service, in order |
| `Cli.DeployLookupsAppend` | src/render_status_deploys/cli.py:88-98 | one more service in the loop adds exactly that service's lookup at the end |
| `Cli.DeployLookupsConcat` | src/render_status_deploys/cli.py:88-98 | the lookups for consecutive input segments follow each other in input order |
| `Cli.CronServicesConcat` | src/render_status_deploys/cli.py:120 | the cron filter keeps input order |
| `Cli.CronServicesMembers` | src/render_status_deploys/cli.py:120 | a service is in the cron list iff it is in the input and has type "cron_job" |
| `Cli.TypeTestMatchesCronFilter` | src/render_status_deploys/cli.py:89-120 | the loop's `type != "cron_job"` test (default "N/A") and the cron filter agree; a service without a type is looked up |
| `Cli.LookupsPartition` | src/render_status_deploys/cli.py:88-120 | the deploy lookups plus the cron services number exactly the services; every lookup uses limit 1 |
| `Cli.LookupsInOrder` | src/render_status_deploys/cli.py:88-98 | each service's lookup sits between those of the services before and after it; a non-cron service is looked up once with limit 1, a cron one not at all |
| `Cli.NoCronIffEmptyFilter` | src/render_status_deploys/cli.py:120-121 | the cron list is empty iff no service has type "cron_job" |
| `Cli.FetchFailureGivesErrorRow` | src/render_status_deploys/cli.py:68-73 | a failed services fetch gives one table whose only row is the red error message, and no deploy lookup |
| `Cli.EmptyServicesGivePlaceholder` | src/render_status_deploys/cli.py:75-78 | an empty service list gives one table with the single "No services found" row, and no deploy lookup |
| `Cli.OneRowPerService` | src/render_status_deploys/cli.py:81-117 | the services table has the five columns and one row per service, in input order, cron services included, with the service's name and type |
| `Cli.CronServiceRow` | src/render_status_deploys/cli.py:94-96 | a cron service keeps "N/A" in Status and Latest Deploy and is not looked up |
| `Cli.NonCronServiceRow` | src/render_status_deploys/cli.py:96-107 | a non-cron service is looked up once; a failure gives a red "Error" and "N/A"; no deploys gives "N/A" twice; otherwise the first deploy's status (default "N/A") gets its bold colour, and its formatted `createdAt` is used |
| `Cli.LookupFailureIsolated` | src/render_status_deploys/cli.py:97-107 | changing the outcome of the lookup for one row, a failure included, leaves every other row unchanged |
| `Cli.PairIffCron` | src/render_status_deploys/cli.py:68-144 | the output is a pair of tables iff the services fetch succeeded and some service has type "cron_job"; a failed fetch or an empty list gives a single table |
| `Cli.CronTableRows` | src/render_status_deploys/cli.py:121-140 | the cron table has its four columns and one row per cron service, in input order |
| `Cli.CronRowCells` | src/render_status_deploys/cli.py:128-140 | schedule defaults to "N/A"; Last Run is the formatted last successful run; status is bold green "succeeded" iff such a run is recorded, else "N/A" |
| `Cli.WebAndCronExample` | src/render_status_deploys/cli.py:88-142 | a web service plus a cron job give two tables; the cron job appears in both; only the web service is looked up |

## Left out

- The HTTP session: base URL, bearer-token and `Accept` headers, the 30-second timeout, and closing the session in `__exit__`. It is network plumbing, modelled as the `Transport` parameter.
- Response bodies that are not JSON arrays, and failures to decode JSON. The model takes the decoded body as a sequence of JSON values.
- JSON floating-point numbers: numbers are integers, since no number is read by the core.
- Actual ISO-8601 parsing, `astimezone()` and `strftime`. They depend on the platform clock and time-zone database, and are the `Localizer` parameter. So the claim that a valid timestamp's output holds its calendar date and a time-zone abbreviation is not modelled.
- `Cli.StatusColorIgnoresCase`: case is folded for ASCII letters only, not the full Unicode `str.lower()`. The only non-ASCII character whose lower case is an ASCII letter is KELVIN SIGN, which lowers to `k`. None of the nine status words contains `k`, so the colour classes are the same (argued here, not proved).
- Record fields that are present but are not strings. The model's records hold optional strings, and a JSON null timestamp is read as a missing one. The source treats the other cases as follows, and none of this is modelled:
  - a null or non-string deploy `status` makes `status.lower()` (cli.py:49, called at cli.py:102) raise `AttributeError` inside the `try` at cli.py:97, so that row gets the red "Error" cell (cli.py:105-107);
  - a null `createdAt`, `updatedAt` or `lastSuccessfulRunAt` is falsy and becomes "N/A" (cli.py:29-30, 135, 138), which the model covers as a missing value;
  - a truthy non-string timestamp makes `ts.replace` raise `AttributeError`, which cli.py:36 catches, so the raw value is returned and handed to `add_row`;
  - a non-string `name`, `type` or `schedule` is handed to `add_row` unchanged (cli.py:111-117, 140), and what Rich does with such a cell is not modelled.
- `serviceDetails` given as JSON null: Python raises `AttributeError` on it. The model treats a missing `serviceDetails` as `{}`.
- A service payload that is not an object (for example `{"service": null}`): `service.get` at cli.py:89 raises `AttributeError` outside any `try`, so `build_services_output` itself raises. The model's services are records, so it cannot express this.
- Exceptions from local-time conversion: `astimezone()` can raise `OverflowError` for datetimes at the ends of the supported range. The `except (ValueError, AttributeError)` at cli.py:36 does not catch it, so at cli.py:109 and cli.py:135 it would abort the whole build. The `Localizer` cannot raise, so the model's `FormatTimestamp` never fails only because the oracle cannot.
- The table builder does not call the modelled `Client` functions directly. It takes their results as typed records through parameters, and the conversion from JSON objects to those records is not modelled.
- Rich styling: column styles and header style, `no_wrap`, `Group`, `Live` and `Text`. Cell markup is kept as a colour and bold flag only.
- `display_services`, `generate_display` with `datetime.now()`, the live loop with `time.sleep(10)`, and `KeyboardInterrupt` handling. These are console output, wall-clock time and signals.
- argparse `--once`, `load_dotenv`, the `RENDER_API_KEY` check with `sys.exit(1)`, and logging. They are process and environment plumbing. The log warning for a failed deploy lookup is therefore not modelled, and its message is dropped.
