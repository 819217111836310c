/**
 * The upstream API client: request building (GET without filters, POST with a filter body
 * built from a fixed table), the missing-key guard, and the classification of every HTTP
 * outcome into the plugin's error taxonomy with the error-log entry it produces.
 */
module ApiClient {
  import opened Wrappers
  import opened Php
  import opened JsonApi

  // Error-log categories (the `error_type` column of the log).
  const ApiAuth := "API_AUTH"
  const ApiConnection := "API_CONNECTION"
  const ApiNotFound := "API_NOT_FOUND"
  const ApiRateLimit := "API_RATE_LIMIT"
  const ApiServerError := "API_SERVER_ERROR"
  const ApiTimeout := "API_TIMEOUT"
  const ApiResponse := "API_RESPONSE"
  const ApiParseError := "API_PARSE_ERROR"

  const Categories: set<string> :=
    {ApiAuth, ApiConnection, ApiNotFound, ApiRateLimit, ApiServerError, ApiTimeout, ApiResponse, ApiParseError}

  /** The statuses that get a category of their own; every other non-200 status is API_RESPONSE. */
  const ClassifiedStatuses: set<nat> := {401, 404, 429, 500, 502, 503, 408}

  /** JSON:API media type sent as Content-Type, and the request timeout in seconds. */
  const MediaType := "application/vnd.api+json"
  const TimeoutSeconds := 30

  /** A `WP_Error`: its code and message. */
  datatype WpError = WpError(code: string, message: string)

  const NoApiKey := WpError("no_api_key", "API key not configured")
  const ParseFailure := WpError("parse_error", "Failed to parse API response")

  /** A decoded response document, or the `WP_Error` returned in its place. */
  datatype ApiResult<T> = Ok(doc: T) | Err(error: WpError)

  datatype ParamValue = PInt(n: nat) | PStr(s: string)

  /** Query parameters, in the order `http_build_query` writes them. */
  type Params = seq<(string, ParamValue)>

  /** One entry of the POST body's `data.filters` list. */
  datatype Clause = Clause(fieldName: string, operation: string, criteria: string)

  datatype Verb = HttpGet | HttpPost

  /** An HTTP request as the plugin issues it; `filters` is the POST body and [] for a GET. */
  datatype Request = Request(
    verb: Verb, endpoint: string, params: Params, filters: seq<Clause>,
    contentType: string, authorization: string, timeout: nat)

  datatype Parsed<T> = Valid(doc: T) | Invalid(reason: string)

  /** What the HTTP layer hands back: a transport error, or a status line and a body that parses or not. */
  datatype HttpOutcome<T> =
    | TransportError(code: string, message: string)
    | Reply(status: nat, reason: string, body: string, json: Parsed<T>)

  /** A row of the error log as `paf_log_api_error` receives it. */
  datatype LogEntry = LogEntry(
    category: string, message: string, endpoint: string, request: Option<Request>,
    responseBody: Option<string>, status: Option<nat>)

  /** The outcome of one API call: what the caller gets, and the log entry written on the way. */
  datatype Processed<T> = Processed(result: ApiResult<T>, entry: Option<LogEntry>)

  /** `paf_is_api_configured`: a key that `empty()` rejects. */
  predicate Configured(apiKey: string) {
    !EmptyString(apiKey)
  }

  /** The category of a non-200 status. */
  function Category(status: nat): (c: string)
    ensures c in Categories && c != ApiConnection && c != ApiParseError
    ensures c == ApiResponse <==> status !in ClassifiedStatuses
  {
    match status
    case 401 => ApiAuth
    case 404 => ApiNotFound
    case 429 => ApiRateLimit
    case 500 => ApiServerError
    case 502 => ApiServerError
    case 503 => ApiServerError
    case 408 => ApiTimeout
    case _ => ApiResponse
  }

  /** Logged response bodies are cut to their first 500 characters. */
  const LoggedBodyLimit := 500

  /** `paf_process_api_response`. */
  function Process<T>(outcome: HttpOutcome<T>, req: Request): (p: Processed<T>)
    ensures p.result.Ok? <==> outcome.Reply? && outcome.status == 200 && outcome.json.Valid?
    ensures p.result.Ok? ==> p.result.doc == outcome.json.doc && p.entry == None
    ensures p.result.Err? ==>
      && p.entry.Some? && p.entry.value.category in Categories
      && p.entry.value.endpoint == req.endpoint && p.entry.value.request == Some(req)
    ensures outcome.TransportError? ==>
      p.result == Err(WpError(outcome.code, outcome.message)) && p.entry.value.category == ApiConnection
    ensures outcome.Reply? && outcome.status != 200 ==>
      && p.result.Err? && p.result.error.code == p.entry.value.category == Category(outcome.status)
      && p.entry.value.status == (if outcome.status == 0 then None else Some(outcome.status))
    ensures outcome.Reply? && outcome.status == 200 && outcome.json.Invalid? ==>
      p.result == Err(ParseFailure) && p.entry.value.category == ApiParseError
    ensures outcome.Reply? && p.result.Err? ==>
      p.entry.value.responseBody == Some(Prefix(outcome.body, LoggedBodyLimit))
  {
    match outcome
    case TransportError(code, message) =>
      Processed(Err(WpError(code, message)),
        Some(LogEntry(ApiConnection, message, req.endpoint, Some(req), None, None)))
    case Reply(status, reason, body, json) =>
      if status != 200 then
        var category := Category(status);
        Processed(Err(WpError(category, "API returned status code: " + Decimal(status))),
          Some(LogEntry(category, "HTTP " + Decimal(status) + ": " + reason, req.endpoint, Some(req),
            Some(Prefix(body, LoggedBodyLimit)), if status == 0 then None else Some(status))))
      else
        match json
        case Invalid(reason) =>
          Processed(Err(ParseFailure),
            Some(LogEntry(ApiParseError, "Failed to parse JSON response: " + reason, req.endpoint, Some(req),
              Some(Prefix(body, LoggedBodyLimit)), None)))
        case Valid(doc) => Processed(Ok(doc), None)
  }

  /**
   * `paf_api_get` / `paf_api_post` given the HTTP layer's answer to each request: without a
   * key nothing is sent and one API_AUTH entry is logged.
   */
  function Call<T>(apiKey: string, req: Request, server: Request -> HttpOutcome<T>): (p: Processed<T>)
    ensures p.result.Err? <==> p.entry.Some?
    ensures !Configured(apiKey) ==>
      p == Processed(Err(NoApiKey), Some(LogEntry(ApiAuth, "API key not configured", req.endpoint, None, None, None)))
    ensures Configured(apiKey) ==> p == Process(server(req), req)
  {
    if !Configured(apiKey) then
      Processed(Err(NoApiKey), Some(LogEntry(ApiAuth, "API key not configured", req.endpoint, None, None, None)))
    else Process(server(req), req)
  }

  /** A request with the headers every call carries. */
  function MakeRequest(apiKey: string, verb: Verb, endpoint: string, params: Params, filters: seq<Clause>): Request {
    Request(verb, endpoint, params, filters, MediaType, apiKey, TimeoutSeconds)
  }

  /** `paf_has_filters`: some value is non-empty. */
  function HasFilters(filters: Pairs): (r: bool)
    ensures r <==> exists i :: 0 <= i < |filters| && !EmptyString(filters[i].1)
  {
    if filters == [] then false
    else if !EmptyString(filters[0].1) then true
    else
      var r := HasFilters(filters[1..]);
      assert r ==> exists i :: 0 <= i < |filters| && !EmptyString(filters[i].1) by {
        if r {
          var i :| 0 <= i < |filters[1..]| && !EmptyString(filters[1..][i].1);
          assert filters[i + 1] == filters[1..][i];
        }
      }
      assert (exists i :: 0 <= i < |filters| && !EmptyString(filters[i].1)) ==> r by {
        if exists i :: 0 <= i < |filters| && !EmptyString(filters[i].1) {
          var i :| 0 <= i < |filters| && !EmptyString(filters[i].1);
          assert i > 0 && filters[1..][i - 1] == filters[i];
        }
      }
      r
  }

  /** A row of the fixed table from filter key to upstream field and operation. */
  datatype FilterRow = FilterRow(key: string, fieldName: string, operation: string)

  const FilterTable: seq<FilterRow> := [
    FilterRow("location", "postalcode", "equals"),
    FilterRow("distance", "distance", "radius"),
    FilterRow("age", "ageGroup", "equals"),
    FilterRow("sex", "sex", "equals"),
    FilterRow("size", "sizeGroup", "equals"),
    FilterRow("breed", "breeds.name", "equals")]

  predicate Populated(row: FilterRow, filters: Pairs) {
    !EmptyString(Get(filters, row.key))
  }

  function RowClause(row: FilterRow, filters: Pairs, sanitize: string -> string): Clause {
    Clause(row.fieldName, row.operation, sanitize(Get(filters, row.key)))
  }

  /** The table-driven definition of the filter body: one clause per populated row, in table order. */
  function ClausesFor(rows: seq<FilterRow>, filters: Pairs, sanitize: string -> string): seq<Clause> {
    if rows == [] then []
    else
      (if Populated(rows[0], filters) then [RowClause(rows[0], filters, sanitize)] else [])
      + ClausesFor(rows[1..], filters, sanitize)
  }

  /** The positions holding `true`, in increasing order. */
  function Positions(flags: seq<bool>): (idx: seq<nat>)
    ensures forall k :: 0 <= k < |idx| ==> idx[k] < |flags|
  {
    if flags == [] then []
    else
      var rest := Positions(flags[1..]);
      (if flags[0] then [0] else []) + seq(|rest|, k requires 0 <= k < |rest| => rest[k] + 1)
  }

  /** One step of `Positions`: position 0 if set, then the rest shifted by one. */
  lemma PositionsStep(flags: seq<bool>)
    requires flags != []
    ensures var idx := Positions(flags); var rest := Positions(flags[1..]);
      var head := if flags[0] then 1 else 0;
      && |idx| == head + |rest|
      && (head == 1 ==> idx[0] == 0)
      && (forall k :: 0 <= k < |rest| ==> idx[k + head] == rest[k] + 1)
  {
  }

  lemma {:induction false} PositionsIncreasing(flags: seq<bool>)
    ensures var idx := Positions(flags);
      forall a, b :: 0 <= a < b < |idx| ==> idx[a] < idx[b]
  {
    if flags != [] {
      PositionsIncreasing(flags[1..]);
      PositionsStep(flags);
      var rest := Positions(flags[1..]);
      var idx := Positions(flags);
      var head := if flags[0] then 1 else 0;
      forall a, b | 0 <= a < b < |idx|
        ensures idx[a] < idx[b]
      {
        assert idx[b] == rest[b - head] + 1;
        if a >= head {
          assert idx[a] == rest[a - head] + 1;
        }
      }
    }
  }

  /** Every listed position holds `true`. */
  lemma {:induction false} PositionsSound(flags: seq<bool>)
    ensures var idx := Positions(flags);
      forall k :: 0 <= k < |idx| ==> flags[idx[k]]
  {
    if flags != [] {
      PositionsSound(flags[1..]);
      PositionsStep(flags);
      var rest := Positions(flags[1..]);
      var idx := Positions(flags);
      var head := if flags[0] then 1 else 0;
      forall k | head <= k < |idx|
        ensures flags[idx[k]]
      {
        assert flags[idx[k]] == flags[1..][rest[k - head]];
      }
    }
  }

  /** Every position holding `true` is listed. */
  lemma {:induction false} PositionsComplete(flags: seq<bool>, i: nat)
    requires i < |flags| && flags[i]
    ensures i in Positions(flags)
  {
    var idx := Positions(flags);
    var rest := Positions(flags[1..]);
    var head := if flags[0] then 1 else 0;
    PositionsStep(flags);
    if i == 0 {
      assert idx[0] == i;
    } else {
      assert flags[1..][i - 1];
      PositionsComplete(flags[1..], i - 1);
      var k :| 0 <= k < |rest| && rest[k] == i - 1;
      assert idx[k + head] == i;
    }
  }

  /** Whether each row is populated. */
  function RowFlags(rows: seq<FilterRow>, filters: Pairs): (flags: seq<bool>)
    ensures |flags| == |rows| && forall i :: 0 <= i < |rows| ==> (flags[i] <==> Populated(rows[i], filters))
  {
    seq(|rows|, i requires 0 <= i < |rows| => Populated(rows[i], filters))
  }

  /** The positions of the populated rows. */
  function PopulatedRows(rows: seq<FilterRow>, filters: Pairs): seq<nat> {
    Positions(RowFlags(rows, filters))
  }

  /** The k-th clause is the clause of the k-th populated row. */
  lemma {:induction false} ClausesOfPopulatedRows(rows: seq<FilterRow>, filters: Pairs, sanitize: string -> string)
    ensures var cs := ClausesFor(rows, filters, sanitize); var idx := PopulatedRows(rows, filters);
      && |cs| == |idx| && (forall k :: 0 <= k < |idx| ==> idx[k] < |rows|)
      && (forall k :: 0 <= k < |idx| ==> cs[k] == RowClause(rows[idx[k]], filters, sanitize))
  {
    if rows != [] {
      ClausesOfPopulatedRows(rows[1..], filters, sanitize);
      var flags := RowFlags(rows, filters);
      assert RowFlags(rows[1..], filters) == flags[1..];
      PositionsStep(flags);
      var rest := PopulatedRows(rows[1..], filters);
      var cs := ClausesFor(rows, filters, sanitize);
      var idx := PopulatedRows(rows, filters);
      var head := if flags[0] then 1 else 0;
      forall k | 0 <= k < |idx|
        ensures cs[k] == RowClause(rows[idx[k]], filters, sanitize)
      {
        if k >= head {
          assert rows[idx[k]] == rows[1..][rest[k - head]];
        }
      }
    }
  }

  /** The populated rows are listed in table order, each once, and exactly the populated ones. */
  lemma {:induction false} PopulatedRowsInOrder(rows: seq<FilterRow>, filters: Pairs)
    ensures var idx := PopulatedRows(rows, filters);
      && (forall a, b :: 0 <= a < b < |idx| ==> idx[a] < idx[b])
      && (forall k :: 0 <= k < |idx| ==> idx[k] < |rows| && Populated(rows[idx[k]], filters))
      && (forall i :: 0 <= i < |rows| ==> (Populated(rows[i], filters) <==> i in idx))
  {
    var flags := RowFlags(rows, filters);
    assert PopulatedRows(rows, filters) == Positions(flags);
    PositionsIncreasing(flags);
    PositionsSound(flags);
    forall i | 0 <= i < |rows| && Populated(rows[i], filters)
      ensures i in PopulatedRows(rows, filters)
    {
      PositionsComplete(flags, i);
    }
  }

  /** The clause a row contributes: one when populated, none otherwise. */
  function RowContribution(row: FilterRow, filters: Pairs, sanitize: string -> string): seq<Clause> {
    if Populated(row, filters) then [RowClause(row, filters, sanitize)] else []
  }

  /** Appending a row to the table appends that row's clause, if any, to the body. */
  lemma {:induction false} ClausesForSnoc(rows: seq<FilterRow>, row: FilterRow, filters: Pairs, sanitize: string -> string)
    ensures ClausesFor(rows + [row], filters, sanitize)
      == ClausesFor(rows, filters, sanitize) + (if Populated(row, filters) then [RowClause(row, filters, sanitize)] else [])
  {
    if rows != [] {
      assert (rows + [row])[1..] == rows[1..] + [row];
      ClausesForSnoc(rows[1..], row, filters, sanitize);
    }
  }

  /** The body after the first `n + 1` table rows, given the body after the first `n`. */
  lemma TableStep(n: nat, filters: Pairs, sanitize: string -> string)
    requires n < |FilterTable|
    ensures ClausesFor(FilterTable[..n + 1], filters, sanitize)
      == ClausesFor(FilterTable[..n], filters, sanitize) + RowContribution(FilterTable[n], filters, sanitize)
  {
    assert FilterTable[..n + 1] == FilterTable[..n] + [FilterTable[n]];
    ClausesForSnoc(FilterTable[..n], FilterTable[n], filters, sanitize);
  }

  /** One block of `paf_build_filter_body`: append the row's clause when `empty()` does not hold for its value. */
  method AppendIfSet(clauses: seq<Clause>, row: FilterRow, filters: Pairs, sanitize: string -> string)
    returns (r: seq<Clause>)
    ensures r == clauses + RowContribution(row, filters, sanitize)
  {
    var value := Get(filters, row.key);
    if !EmptyString(value) {
      r := clauses + [Clause(row.fieldName, row.operation, sanitize(value))];
    } else {
      r := clauses;
    }
  }

  /** `paf_build_filter_body`: the six blocks, in the source's order. */
  method BuildFilterBody(filters: Pairs, sanitize: string -> string) returns (clauses: seq<Clause>)
    ensures clauses == ClausesFor(FilterTable, filters, sanitize)
  {
    clauses := [];
    assert FilterTable[..0] == [];
    clauses := AppendIfSet(clauses, FilterRow("location", "postalcode", "equals"), filters, sanitize);
    TableStep(0, filters, sanitize);
    clauses := AppendIfSet(clauses, FilterRow("distance", "distance", "radius"), filters, sanitize);
    TableStep(1, filters, sanitize);
    clauses := AppendIfSet(clauses, FilterRow("age", "ageGroup", "equals"), filters, sanitize);
    TableStep(2, filters, sanitize);
    clauses := AppendIfSet(clauses, FilterRow("sex", "sex", "equals"), filters, sanitize);
    TableStep(3, filters, sanitize);
    clauses := AppendIfSet(clauses, FilterRow("size", "sizeGroup", "equals"), filters, sanitize);
    TableStep(4, filters, sanitize);
    clauses := AppendIfSet(clauses, FilterRow("breed", "breeds.name", "equals"), filters, sanitize);
    TableStep(5, filters, sanitize);
    assert FilterTable[..6] == FilterTable;
  }

  /** The six keys of the filter table. */
  const FilterKeys: set<string> := {"location", "distance", "age", "sex", "size", "breed"}

  /** The table row of a filter key. */
  function RowOf(k: string): (row: nat)
    requires k in FilterKeys
    ensures row < |FilterTable| && FilterTable[row].key == k
  {
    if k == "location" then 0
    else if k == "distance" then 1
    else if k == "age" then 2
    else if k == "sex" then 3
    else if k == "size" then 4
    else 5
  }

  /** A PHP array: no key twice. */
  predicate DistinctKeys(filters: Pairs) {
    forall i, j :: 0 <= i < j < |filters| ==> filters[i].0 != filters[j].0
  }

  /**
   * For a filter set that uses only the table's keys, each once (what the AJAX handler passes),
   * `paf_has_filters` holds exactly when the POST body has a clause.
   */
  lemma {:induction false} HasFiltersIffClauses(filters: Pairs, sanitize: string -> string)
    requires DistinctKeys(filters)
    requires forall i :: 0 <= i < |filters| ==> filters[i].0 in FilterKeys
    ensures HasFilters(filters) <==> ClausesFor(FilterTable, filters, sanitize) != []
  {
    if HasFilters(filters) {
      ClausesOfPopulatedRows(FilterTable, filters, sanitize);
      PopulatedRowsInOrder(FilterTable, filters);
      var i :| 0 <= i < |filters| && !EmptyString(filters[i].1);
      var k := filters[i].0;
      assert HasKey(filters, k);
      GetFinds(filters, k);
      assert Get(filters, k) == filters[i].1;
      var row := RowOf(k);
      assert Populated(FilterTable[row], filters);
      assert row in PopulatedRows(FilterTable, filters);
    } else {
      forall row | 0 <= row < |FilterTable|
        ensures !Populated(FilterTable[row], filters)
      {
        var k := FilterTable[row].key;
        GetFinds(filters, k);
        if HasKey(filters, k) {
          var i :| 0 <= i < |filters| && filters[i].0 == k && Get(filters, k) == filters[i].1;
        }
      }
      NoClausesWhenNonePopulated(FilterTable, filters, sanitize);
    }
  }

  lemma {:induction false} NoClausesWhenNonePopulated(rows: seq<FilterRow>, filters: Pairs, sanitize: string -> string)
    requires forall i :: 0 <= i < |rows| ==> !Populated(rows[i], filters)
    ensures ClausesFor(rows, filters, sanitize) == []
  {
    if rows != [] {
      assert forall i :: 0 <= i < |rows[1..]| ==> rows[1..][i] == rows[i + 1];
      NoClausesWhenNonePopulated(rows[1..], filters, sanitize);
    }
  }

  const SearchInclude := "pictures,breeds,organizations,locations"
  const DetailInclude := "pictures,breeds,colors,organizations,locations,contacts"

  function SearchEndpoint(petType: string): string {
    "/public/animals/search/available/" + petType + "/"
  }

  /** The query parameters of a search: paging, side-loads, and a distance sort when a location is given. */
  function SearchParams(filters: Pairs, page: int, limit: int): (ps: Params)
    ensures ("sort", PStr("distance")) in ps <==> !EmptyString(Get(filters, "location"))
    ensures |ps| >= 3 && ps[..3] == [("page", PInt(Absint(page))), ("limit", PInt(Absint(limit))), ("include", PStr(SearchInclude))]
  {
    [("page", PInt(Absint(page))), ("limit", PInt(Absint(limit))), ("include", PStr(SearchInclude))]
    + (if !EmptyString(Get(filters, "location")) then [("sort", PStr("distance"))] else [])
  }

  /** The request `paf_search_pets` issues on a cache miss: a POST with the filter body iff some filter is set. */
  function SearchRequest(apiKey: string, petType: string, filters: Pairs, page: int, limit: int,
                         sanitize: string -> string): (r: Request)
    ensures r.verb == HttpPost <==> HasFilters(filters)
    ensures r.verb == HttpGet ==> r.filters == []
    ensures r.verb == HttpPost ==> r.filters == ClausesFor(FilterTable, filters, sanitize)
    ensures r.endpoint == SearchEndpoint(petType) && r.params == SearchParams(filters, page, limit)
  {
    if HasFilters(filters) then
      MakeRequest(apiKey, HttpPost, SearchEndpoint(petType), SearchParams(filters, page, limit),
        ClausesFor(FilterTable, filters, sanitize))
    else MakeRequest(apiKey, HttpGet, SearchEndpoint(petType), SearchParams(filters, page, limit), [])
  }

  function DetailRequest(apiKey: string, petId: string): Request {
    MakeRequest(apiKey, HttpGet, "/public/animals/" + petId, [("include", PStr(DetailInclude))], [])
  }

  function BreedsRequest(apiKey: string, petType: string): Request {
    MakeRequest(apiKey, HttpGet, "/public/animals/breeds/" + petType + "/", [], [])
  }
}
