/**
 * The display driver (src/render_status_deploys/cli.py): status colours,
 * timestamp formatting and the construction of the services table and the
 * cron-jobs table from what the API client returns.
 *
 * The client calls are parameters. `fetched` is what `get_services` returned
 * or the message of what it raised; a `DeployFetcher` gives what the call
 * `get_deploys(id, limit)` made for the service at a given position of the
 * list returns or raises, so that each call has its own outcome even when two
 * services share an id. A `Localizer` stands for
 * ISO-8601 parsing, conversion to the local time zone and formatting: it
 * yields the formatted text, or None when parsing raises. Rich tables are
 * sequences of rows of cells; markup is kept as a colour and a bold flag.
 */
module Cli {
  import opened Wrappers

  datatype Color = Green | Yellow | Red | White

  /** How a cell's text is marked up: `[red]…[/red]` or `[bold green]…[/bold green]`. */
  datatype Markup = Plain | Colored(color: Color) | Bold(color: Color)

  datatype Cell = Cell(text: string, markup: Markup)

  type Row = seq<Cell>

  /** A table: its title, its column headers (none for a header-less table) and its rows. */
  datatype Table = Table(title: Option<string>, columns: seq<string>, rows: seq<Row>)

  /** One table, or the services table followed by the cron-jobs table. */
  datatype Output = Single(table: Table) | Pair(services: Table, crons: Table)

  datatype ServiceDetails = ServiceDetails(schedule: Option<string>, lastSuccessfulRunAt: Option<string>)

  /** A service record as returned by the API; a None field is a missing key. */
  datatype Service = Service(
    id: Option<string>,
    name: Option<string>,
    serviceType: Option<string>,
    updatedAt: Option<string>,
    serviceDetails: Option<ServiceDetails>)

  datatype Deploy = Deploy(status: Option<string>, createdAt: Option<string>)

  /** One call `get_deploys(serviceId, limit=limit)`. */
  datatype DeployLookup = DeployLookup(serviceId: string, limit: int)

  /** The outcome of the deploy lookup made for the service at position `pos`. */
  type DeployFetcher = (nat, string, int) -> Result<seq<Deploy>, string>

  type Localizer = string -> Option<string>

  const NOT_AVAILABLE := "N/A"
  const CRON_JOB := "cron_job"
  const SERVICE_COLUMNS := ["Name", "Type", "Status", "Latest Deploy", "Updated"]
  const CRON_COLUMNS := ["Name", "Schedule", "Last Run", "Status"]
  const SUCCESS_STATUSES := {"live", "succeeded", "success"}
  const PROGRESS_STATUSES := {"building", "deploying", "running"}
  const FAILURE_STATUSES := {"build_failed", "failed", "canceled"}

  // ---------------------------------------------------------------------
  // Status colours

  function LowerChar(c: char): char {
    if 'A' <= c <= 'Z' then (c as int + 32) as char else c
  }

  /** `str.lower()` on ASCII letters; other characters are kept. */
  function Lower(s: string): string {
    seq(|s|, i requires 0 <= i < |s| => LowerChar(s[i]))
  }

  /** `s` and `t` spell the same word up to the case of letters. */
  predicate EqualIgnoringCase(s: string, t: string) {
    |s| == |t| && forall i :: 0 <= i < |s| ==> LowerChar(s[i]) == LowerChar(t[i])
  }

  function StatusColor(status: string): Color {
    var lower := Lower(status);
    if lower in SUCCESS_STATUSES then Green
    else if lower in PROGRESS_STATUSES then Yellow
    else if lower in FAILURE_STATUSES then Red
    else White
  }

  /** The colour depends on the status only up to case. */
  lemma StatusColorIgnoresCase(s: string, t: string)
    requires EqualIgnoringCase(s, t)
    ensures StatusColor(s) == StatusColor(t)
  {
    assert Lower(s) == Lower(t);
  }

  /** The four colour classes, each stated both ways; the three status groups
      are disjoint, so every status has exactly one colour. */
  lemma StatusColorClasses(status: string)
    ensures StatusColor(status) == Green <==> Lower(status) in SUCCESS_STATUSES
    ensures StatusColor(status) == Yellow <==> Lower(status) in PROGRESS_STATUSES
    ensures StatusColor(status) == Red <==> Lower(status) in FAILURE_STATUSES
    ensures StatusColor(status) == White <==>
      Lower(status) !in SUCCESS_STATUSES + PROGRESS_STATUSES + FAILURE_STATUSES
  {
  }

  lemma StatusColorExamples()
    ensures StatusColor("live") == StatusColor("LIVE") == Green
    ensures StatusColor("building") == Yellow
    ensures StatusColor("build_failed") == Red
    ensures StatusColor("unknown") == White
  {
    assert Lower("LIVE") == "live";
    assert Lower("live") == "live";
    assert Lower("building") == "building";
    assert Lower("build_failed") == "build_failed";
    assert Lower("unknown") == "unknown";
  }

  // ---------------------------------------------------------------------
  // Timestamps

  /** Python truthiness of an optional string: present and non-empty. */
  predicate Truthy(ts: Option<string>) {
    ts.Some? && ts.value != ""
  }

  /** `s.replace("Z", "+00:00")`. */
  function ReplaceZ(s: string): string {
    if s == [] then []
    else (if s[0] == 'Z' then "+00:00" else [s[0]]) + ReplaceZ(s[1..])
  }

  function FormatTimestamp(ts: Option<string>, localize: Localizer): string {
    if !Truthy(ts) then NOT_AVAILABLE
    else
      match localize(ReplaceZ(ts.value))
      case Some(formatted) => formatted
      case None => ts.value
  }

  /** After the replacement no `Z` is left for the parser to see. */
  lemma {:induction false} ReplaceZRemovesZ(s: string)
    ensures 'Z' !in ReplaceZ(s)
  {
    if s != [] {
      ReplaceZRemovesZ(s[1..]);
    }
  }

  /** A timestamp without `Z` reaches the parser unchanged. */
  lemma {:induction false} ReplaceZKeepsOthers(s: string)
    requires 'Z' !in s
    ensures ReplaceZ(s) == s
  {
    if s != [] {
      ReplaceZKeepsOthers(s[1..]);
      assert s == [s[0]] + s[1..];
    }
  }

  lemma ReplaceZExample()
    ensures ReplaceZ("12Z") == "12+00:00"
  {
    assert ReplaceZ("Z") == "+00:00" + ReplaceZ("");
    assert ReplaceZ("2Z") == "2" + ReplaceZ("Z");
  }

  /** Absent or empty input gives "N/A"; input the parser rejects comes back
      unchanged; otherwise the localized text is returned. */
  lemma FormatTimestampCases(ts: Option<string>, localize: Localizer)
    ensures ts == None ==> FormatTimestamp(ts, localize) == "N/A"
    ensures ts == Some("") ==> FormatTimestamp(ts, localize) == "N/A"
    ensures Truthy(ts) && localize(ReplaceZ(ts.value)) == None ==> FormatTimestamp(ts, localize) == ts.value
    ensures Truthy(ts) && localize(ReplaceZ(ts.value)).Some? ==>
      FormatTimestamp(ts, localize) == localize(ReplaceZ(ts.value)).value
  {
  }

  lemma FormatTimestampExamples(localize: Localizer)
    requires localize("invalid") == None
    ensures FormatTimestamp(None, localize) == "N/A"
    ensures FormatTimestamp(Some("invalid"), localize) == "invalid"
  {
    ReplaceZKeepsOthers("invalid");
  }

  // ---------------------------------------------------------------------
  // Rows

  function NameOf(s: Service): string { s.name.GetOr(NOT_AVAILABLE) }
  function IdOf(s: Service): string { s.id.GetOr("") }
  /** The Type cell: `service.get("type", "N/A")`. */
  function TypeOf(s: Service): string { s.serviceType.GetOr(NOT_AVAILABLE) }
  function DetailsOf(s: Service): ServiceDetails { s.serviceDetails.GetOr(ServiceDetails(None, None)) }

  /** The cron-table filter: `service.get("type") == "cron_job"`. */
  predicate IsCron(s: Service) {
    s.serviceType == Some(CRON_JOB)
  }

  const NA_CELL := Cell(NOT_AVAILABLE, Plain)
  const ERROR_CELL := Cell("Error", Colored(Red))

  /** The Status cell and the Latest Deploy text for what a deploy lookup returned. */
  function DeployCells(deploys: Result<seq<Deploy>, string>, localize: Localizer): (Cell, string) {
    match deploys
    case Failure(_) => (ERROR_CELL, NOT_AVAILABLE)
    case Success(ds) =>
      if ds == [] then (NA_CELL, NOT_AVAILABLE)
      else
        var status := ds[0].status.GetOr(NOT_AVAILABLE);
        (Cell(status, Bold(StatusColor(status))), FormatTimestamp(ds[0].createdAt, localize))
  }

  /** The services-table row of the service `s` at position `pos`. */
  function ServiceRow(s: Service, pos: nat, fetch: DeployFetcher, localize: Localizer): Row {
    var cells := if TypeOf(s) != CRON_JOB then DeployCells(fetch(pos, IdOf(s), 1), localize)
                 else (NA_CELL, NOT_AVAILABLE);
    [Cell(NameOf(s), Plain), Cell(TypeOf(s), Plain), cells.0, Cell(cells.1, Plain),
     Cell(FormatTimestamp(s.updatedAt, localize), Plain)]
  }

  /** The cron-table row of one cron service. */
  function CronRow(s: Service, localize: Localizer): Row {
    var details := DetailsOf(s);
    var lastRun := details.lastSuccessfulRunAt;
    [Cell(NameOf(s), Plain),
     Cell(details.schedule.GetOr(NOT_AVAILABLE), Plain),
     Cell(if Truthy(lastRun) then FormatTimestamp(lastRun, localize) else NOT_AVAILABLE, Plain),
     if Truthy(lastRun) then Cell("succeeded", Bold(Green)) else NA_CELL]
  }

  /** The deploy lookup a service causes in the services loop, if any. */
  function LookupOf(s: Service): seq<DeployLookup> {
    if TypeOf(s) != CRON_JOB then [DeployLookup(IdOf(s), 1)] else []
  }

  // ---------------------------------------------------------------------
  // The output of build_services_output

  function ServiceRows(services: seq<Service>, fetch: DeployFetcher, localize: Localizer): seq<Row> {
    seq(|services|, i requires 0 <= i < |services| => ServiceRow(services[i], i, fetch, localize))
  }

  function CronRows(crons: seq<Service>, localize: Localizer): seq<Row> {
    seq(|crons|, i requires 0 <= i < |crons| => CronRow(crons[i], localize))
  }

  /** `[s for s in services if s.get("type") == "cron_job"]`. */
  function CronServices(services: seq<Service>): (crons: seq<Service>)
    ensures |crons| <= |services|
    ensures forall k :: 0 <= k < |crons| ==> IsCron(crons[k])
  {
    if services == [] then []
    else (if IsCron(services[0]) then [services[0]] else []) + CronServices(services[1..])
  }

  /** The deploy lookups the services loop makes, in order. */
  function DeployLookups(services: seq<Service>): (lookups: seq<DeployLookup>)
    ensures |lookups| <= |services|
    ensures forall k :: 0 <= k < |lookups| ==> lookups[k].limit == 1
  {
    if services == [] then [] else LookupOf(services[0]) + DeployLookups(services[1..])
  }

  function ErrorTable(message: string): Table {
    Table(None, [], [[Cell("Error fetching services: " + message, Colored(Red))]])
  }

  const EMPTY_TABLE := Table(None, [], [[Cell("No services found", Colored(Yellow))]])

  function ServicesTable(rows: seq<Row>): Table {
    Table(Some("Render Services"), SERVICE_COLUMNS, rows)
  }

  function CronTable(rows: seq<Row>): Table {
    Table(Some("Cron Jobs"), CRON_COLUMNS, rows)
  }

  function ServicesOutput(fetched: Result<seq<Service>, string>, fetch: DeployFetcher, localize: Localizer): Output {
    match fetched
    case Failure(message) => Single(ErrorTable(message))
    case Success(services) =>
      if services == [] then Single(EMPTY_TABLE)
      else
        var main := ServicesTable(ServiceRows(services, fetch, localize));
        var crons := CronServices(services);
        if crons == [] then Single(main) else Pair(main, CronTable(CronRows(crons, localize)))
  }

  function ServicesLookups(fetched: Result<seq<Service>, string>): seq<DeployLookup> {
    match fetched
    case Failure(_) => []
    case Success(services) => DeployLookups(services)
  }

  /** The main table of an output: the only table, or the first of the pair. */
  function MainTable(out: Output): Table {
    match out
    case Single(t) => t
    case Pair(t, _) => t
  }

  /** Builds the output table(s) the way build_services_output does and
      reports the deploy lookups it made, in order. */
  method BuildServicesOutput(fetched: Result<seq<Service>, string>, fetch: DeployFetcher, localize: Localizer)
    returns (out: Output, lookups: seq<DeployLookup>)
    ensures out == ServicesOutput(fetched, fetch, localize)
    ensures lookups == ServicesLookups(fetched)
  {
    if fetched.Failure? {
      return Single(ErrorTable(fetched.error)), [];
    }
    var services := fetched.value;
    if services == [] {
      return Single(EMPTY_TABLE), [];
    }
    var rows;
    rows, lookups := BuildServiceRows(services, fetch, localize);
    var table := ServicesTable(rows);

    var cronServices := CronServices(services);
    if cronServices == [] {
      return Single(table), lookups;
    }
    var cronRows := BuildCronRows(cronServices, localize);
    return Pair(table, CronTable(cronRows)), lookups;
  }

  /** The loop over all services: one row each, looking up the latest deploy
      of every service that is not a cron job. */
  method BuildServiceRows(services: seq<Service>, fetch: DeployFetcher, localize: Localizer)
    returns (rows: seq<Row>, lookups: seq<DeployLookup>)
    ensures rows == ServiceRows(services, fetch, localize)
    ensures lookups == DeployLookups(services)
  {
    rows := [];
    lookups := [];
    var i := 0;
    while i < |services|
      invariant 0 <= i <= |services|
      invariant |rows| == i
      invariant forall k :: 0 <= k < i ==> rows[k] == ServiceRow(services[k], k, fetch, localize)
      invariant lookups == DeployLookups(services[..i])
    {
      var service := services[i];
      var serviceType := service.serviceType.GetOr(NOT_AVAILABLE);
      var name := service.name.GetOr(NOT_AVAILABLE);
      var serviceId := service.id.GetOr("");

      var latestStatus := NA_CELL;
      var latestDeployTime := NOT_AVAILABLE;
      if serviceType != CRON_JOB {
        lookups := lookups + [DeployLookup(serviceId, 1)];
        match fetch(i, serviceId, 1)
        case Success(deploys) =>
          if deploys != [] {
            var latest := deploys[0];
            var status := latest.status.GetOr(NOT_AVAILABLE);
            var color := StatusColor(status);
            latestStatus := Cell(status, Bold(color));
            latestDeployTime := FormatTimestamp(latest.createdAt, localize);
          }
        case Failure(_) =>
          latestStatus := ERROR_CELL;
      }
      var updatedAt := FormatTimestamp(service.updatedAt, localize);

      rows := rows + [[Cell(name, Plain), Cell(serviceType, Plain), latestStatus,
                       Cell(latestDeployTime, Plain), Cell(updatedAt, Plain)]];
      DeployLookupsAppend(services[..i], service);
      assert services[..i + 1] == services[..i] + [service];
      i := i + 1;
    }
    assert services[..i] == services;
  }

  /** The loop over the cron services: one row each. */
  method BuildCronRows(crons: seq<Service>, localize: Localizer) returns (cronRows: seq<Row>)
    ensures cronRows == CronRows(crons, localize)
  {
    cronRows := [];
    var j := 0;
    while j < |crons|
      invariant 0 <= j <= |crons|
      invariant |cronRows| == j
      invariant forall k :: 0 <= k < j ==> cronRows[k] == CronRow(crons[k], localize)
    {
      var service := crons[j];
      var name := service.name.GetOr(NOT_AVAILABLE);
      var details := service.serviceDetails.GetOr(ServiceDetails(None, None));
      var schedule := details.schedule.GetOr(NOT_AVAILABLE);
      var lastRunTs := details.lastSuccessfulRunAt;
      var lastRun := if Truthy(lastRunTs) then FormatTimestamp(lastRunTs, localize) else NOT_AVAILABLE;
      var jobStatus := if Truthy(lastRunTs) then Cell("succeeded", Bold(Green)) else NA_CELL;
      cronRows := cronRows + [[Cell(name, Plain), Cell(schedule, Plain), Cell(lastRun, Plain), jobStatus]];
      j := j + 1;
    }
  }

  // ---------------------------------------------------------------------
  // Filters and lookups

  lemma {:induction false} DeployLookupsAppend(services: seq<Service>, s: Service)
    ensures DeployLookups(services + [s]) == DeployLookups(services) + LookupOf(s)
  {
    if services == [] {
      assert [s][1..] == [];
    } else {
      assert (services + [s])[1..] == services[1..] + [s];
      DeployLookupsAppend(services[1..], s);
    }
  }

  /** The lookups of a concatenation are those of each part, in order. */
  lemma {:induction false} DeployLookupsConcat(a: seq<Service>, b: seq<Service>)
    ensures DeployLookups(a + b) == DeployLookups(a) + DeployLookups(b)
  {
    if a == [] {
      assert a + b == b;
    } else {
      assert (a + b)[1..] == a[1..] + b;
      DeployLookupsConcat(a[1..], b);
    }
  }

  /** The cron filter keeps order: filtering a concatenation concatenates the filtered parts. */
  lemma {:induction false} CronServicesConcat(a: seq<Service>, b: seq<Service>)
    ensures CronServices(a + b) == CronServices(a) + CronServices(b)
  {
    if a == [] {
      assert a + b == b;
    } else {
      assert (a + b)[1..] == a[1..] + b;
      CronServicesConcat(a[1..], b);
    }
  }

  /** The cron table lists exactly the cron services of the input. */
  lemma {:induction false} CronServicesMembers(services: seq<Service>)
    ensures forall s :: s in CronServices(services) <==> s in services && IsCron(s)
    ensures |CronServices(services)| <= |services|
  {
    if services != [] {
      CronServicesMembers(services[1..]);
      assert services == [services[0]] + services[1..];
    }
  }

  /** The two cron tests agree: a missing type reads as "N/A", which is not "cron_job". */
  lemma TypeTestMatchesCronFilter(s: Service)
    ensures TypeOf(s) != CRON_JOB <==> !IsCron(s)
    ensures s.serviceType == None ==> !IsCron(s) && LookupOf(s) == [DeployLookup(IdOf(s), 1)]
  {
  }

  /** Every service outside the cron table is looked up once, with limit 1;
      no cron service is looked up. */
  lemma {:induction false} LookupsPartition(services: seq<Service>)
    ensures |DeployLookups(services)| + |CronServices(services)| == |services|
    ensures forall k :: 0 <= k < |DeployLookups(services)| ==> DeployLookups(services)[k].limit == 1
  {
    if services != [] {
      LookupsPartition(services[1..]);
      var d := DeployLookups(services);
      assert d == LookupOf(services[0]) + DeployLookups(services[1..]);
      forall k | 0 <= k < |d|
        ensures d[k].limit == 1
      {
        if k >= |LookupOf(services[0])| {
          assert d[k] == DeployLookups(services[1..])[k - |LookupOf(services[0])|];
        }
      }
    }
  }

  /** A service's lookup sits where the service sits: after those of the
      services before it and before those of the services after it. */
  lemma LookupsInOrder(before: seq<Service>, s: Service, after: seq<Service>)
    ensures DeployLookups(before + [s] + after) == DeployLookups(before) + LookupOf(s) + DeployLookups(after)
    ensures LookupOf(s) == if IsCron(s) then [] else [DeployLookup(IdOf(s), 1)]
  {
    DeployLookupsConcat(before + [s], after);
    DeployLookupsAppend(before, s);
  }

  lemma {:induction false} NoCronIffEmptyFilter(services: seq<Service>)
    ensures CronServices(services) == [] <==> forall i :: 0 <= i < |services| ==> !IsCron(services[i])
  {
    if services != [] {
      NoCronIffEmptyFilter(services[1..]);
      if !IsCron(services[0]) && CronServices(services[1..]) != [] {
        var i :| 0 <= i < |services[1..]| && IsCron(services[1..][i]);
        assert IsCron(services[i + 1]);
      }
    }
  }

  // ---------------------------------------------------------------------
  // Properties of the output

  /** A failed services fetch gives one table with one error row, and no deploy lookups. */
  lemma FetchFailureGivesErrorRow(message: string, fetch: DeployFetcher, localize: Localizer)
    ensures ServicesOutput(Failure(message), fetch, localize).Single?
    ensures ServicesOutput(Failure(message), fetch, localize).table.rows
      == [[Cell("Error fetching services: " + message, Colored(Red))]]
    ensures ServicesLookups(Failure(message)) == []
  {
  }

  /** An empty service list gives one table with the placeholder row, and no deploy lookups. */
  lemma EmptyServicesGivePlaceholder(fetch: DeployFetcher, localize: Localizer)
    ensures ServicesOutput(Success([]), fetch, localize) == Single(Table(None, [], [[Cell("No services found", Colored(Yellow))]]))
    ensures ServicesLookups(Success([])) == []
  {
  }

  /** The services table has one row per service, in input order, cron
      services included, each carrying the service's name and type. */
  lemma OneRowPerService(services: seq<Service>, fetch: DeployFetcher, localize: Localizer)
    requires services != []
    ensures var t := MainTable(ServicesOutput(Success(services), fetch, localize));
      && t.title == Some("Render Services")
      && t.columns == SERVICE_COLUMNS
      && |t.rows| == |services|
      && forall i :: 0 <= i < |services| ==>
           t.rows[i] == ServiceRow(services[i], i, fetch, localize)
           && t.rows[i][0] == Cell(NameOf(services[i]), Plain)
           && t.rows[i][1] == Cell(TypeOf(services[i]), Plain)
  {
  }

  /** A cron service's Status and Latest Deploy cells stay "N/A" and it
      causes no lookup, whatever the deploy fetcher would return. */
  lemma CronServiceRow(s: Service, pos: nat, fetch: DeployFetcher, localize: Localizer)
    requires IsCron(s)
    ensures ServiceRow(s, pos, fetch, localize)[2] == Cell("N/A", Plain)
    ensures ServiceRow(s, pos, fetch, localize)[3] == Cell("N/A", Plain)
    ensures LookupOf(s) == []
  {
  }

  /** The Status and Latest Deploy cells of a non-cron service, by what its lookup returned. */
  lemma NonCronServiceRow(s: Service, pos: nat, fetch: DeployFetcher, localize: Localizer)
    requires !IsCron(s)
    ensures var r := ServiceRow(s, pos, fetch, localize);
      match fetch(pos, IdOf(s), 1)
      case Failure(_) => r[2] == Cell("Error", Colored(Red)) && r[3] == Cell("N/A", Plain)
      case Success(ds) =>
        if ds == [] then r[2] == Cell("N/A", Plain) && r[3] == Cell("N/A", Plain)
        else
          var status := ds[0].status.GetOr("N/A");
          r[2] == Cell(status, Bold(StatusColor(status)))
          && r[3] == Cell(FormatTimestamp(ds[0].createdAt, localize), Plain)
    ensures LookupOf(s) == [DeployLookup(IdOf(s), 1)]
  {
  }

  /** A lookup failure stays in its own row: changing the outcome of the
      lookup made for the service at position `j`, a failure included,
      leaves every other row as it was. The lookups made (`ServicesLookups`)
      take no fetcher at all, so they never depend on what a lookup returns. */
  lemma LookupFailureIsolated(services: seq<Service>, fetch: DeployFetcher, other: DeployFetcher, j: nat, localize: Localizer)
    requires forall pos, x, n :: pos != j ==> fetch(pos, x, n) == other(pos, x, n)
    ensures |ServiceRows(services, fetch, localize)| == |ServiceRows(services, other, localize)| == |services|
    ensures forall i :: 0 <= i < |services| && i != j ==>
      ServiceRows(services, fetch, localize)[i] == ServiceRows(services, other, localize)[i]
  {
    forall i | 0 <= i < |services| && i != j
      ensures ServiceRows(services, fetch, localize)[i] == ServiceRows(services, other, localize)[i]
    {
      assert fetch(i, IdOf(services[i]), 1) == other(i, IdOf(services[i]), 1);
    }
  }

  /** Two services with the same id are looked up separately: one lookup can
      fail while the other succeeds, and only the failing row shows "Error". */
  lemma SameIdLookedUpSeparately(fetch: DeployFetcher, localize: Localizer)
    requires forall x, n :: fetch(0, x, n) == Failure("timeout") && fetch(1, x, n) == Success([])
    ensures var a := Service(Some("x"), Some("a"), Some("web_service"), None, None);
      var b := Service(Some("x"), Some("b"), Some("web_service"), None, None);
      var rows := ServiceRows([a, b], fetch, localize);
      && rows[0][2] == Cell("Error", Colored(Red))
      && rows[1][2] == Cell("N/A", Plain)
  {
    assert "web_service" != CRON_JOB by { assert "web_service"[0] != CRON_JOB[0]; }
  }

  /** The output is a pair exactly when the services fetch succeeded and
      some service has type "cron_job"; a failed fetch and an empty list give
      a single table. */
  lemma PairIffCron(fetched: Result<seq<Service>, string>, fetch: DeployFetcher, localize: Localizer)
    ensures ServicesOutput(fetched, fetch, localize).Pair?
      <==> fetched.Success? && exists i :: 0 <= i < |fetched.value| && IsCron(fetched.value[i])
  {
    if fetched.Success? {
      NoCronIffEmptyFilter(fetched.value);
    }
  }

  /** The cron table has one row per cron service, in input order. */
  lemma CronTableRows(services: seq<Service>, fetch: DeployFetcher, localize: Localizer)
    requires ServicesOutput(Success(services), fetch, localize).Pair?
    ensures var t := ServicesOutput(Success(services), fetch, localize).crons;
      var crons := CronServices(services);
      && t.title == Some("Cron Jobs")
      && t.columns == CRON_COLUMNS
      && |t.rows| == |crons|
      && forall k :: 0 <= k < |crons| ==> t.rows[k] == CronRow(crons[k], localize) && IsCron(crons[k])
  {
    CronServicesMembers(services);
    var crons := CronServices(services);
    assert forall k :: 0 <= k < |crons| ==> crons[k] in crons;
  }

  /** A cron row: the schedule defaults to "N/A", the status is "succeeded"
      exactly when a last successful run is recorded, and the guarded Last Run
      cell is just the formatted timestamp. */
  lemma CronRowCells(s: Service, localize: Localizer)
    ensures var r := CronRow(s, localize);
      var details := DetailsOf(s);
      && r[0] == Cell(NameOf(s), Plain)
      && r[1] == Cell(if details.schedule.Some? then details.schedule.value else "N/A", Plain)
      && r[2] == Cell(FormatTimestamp(details.lastSuccessfulRunAt, localize), Plain)
      && (r[3] == Cell("succeeded", Bold(Green)) <==> Truthy(details.lastSuccessfulRunAt))
      && (!Truthy(details.lastSuccessfulRunAt) ==> r[3] == Cell("N/A", Plain))
    ensures s.serviceDetails == None ==> CronRow(s, localize)[1..] == [Cell("N/A", Plain), Cell("N/A", Plain), Cell("N/A", Plain)]
  {
  }

  /** One web service and one cron job: two tables, with the cron job
      listed in both. */
  lemma WebAndCronExample(fetch: DeployFetcher, localize: Localizer)
    ensures var web := Service(Some("srv-1"), Some("api"), Some("web_service"), None, None);
      var cron := Service(Some("srv-2"), Some("nightly"), Some("cron_job"), None, None);
      var out := ServicesOutput(Success([web, cron]), fetch, localize);
      && out.Pair?
      && |out.services.rows| == 2 && out.services.rows[1][0] == Cell("nightly", Plain)
      && out.crons.rows == [[Cell("nightly", Plain), Cell("N/A", Plain), Cell("N/A", Plain), Cell("N/A", Plain)]]
      && ServicesLookups(Success([web, cron])) == [DeployLookup("srv-1", 1)]
  {
    var web := Service(Some("srv-1"), Some("api"), Some("web_service"), None, None);
    var cron := Service(Some("srv-2"), Some("nightly"), Some("cron_job"), None, None);
    assert CronServices([web, cron]) == [cron] by {
      assert [web, cron][1..] == [cron];
      assert [cron][1..] == [];
    }
    assert DeployLookups([web, cron]) == [DeployLookup("srv-1", 1)] by {
      assert "web_service" != CRON_JOB by { assert "web_service"[0] != CRON_JOB[0]; }
      assert LookupOf(web) == [DeployLookup("srv-1", 1)];
      assert [web, cron][1..] == [cron];
      assert [cron][1..] == [];
    }
  }
}
