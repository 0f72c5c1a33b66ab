/**
 * The class-based revision of the connector (tap_appstore/streams.py): one
 * stream object per report kind, a bookmark per stream in the shared state,
 * and a driver that walks the report windows from the bookmark up to the
 * extraction time, writing records, bookmarks and state as it goes.
 */
module Streams {
  import opened Wrappers
  import opened Calendar
  import opened TimeFormat
  import opened Tsv
  import opened ReportWindows
  import opened Singer
  import opened Vendor
  import Text

  /** The key properties every stream's records share. */
  const KEY_PROPERTIES: seq<string> := ["_line_id", "_time_extracted", "_api_report_date"]

  /** The two stream classes: daily sales-and-trends reports and the monthly financial report. */
  datatype Family = Sales | Financial

  /** The fixed request fields of one sales report kind. */
  datatype Template = Template(reportType: string, frequency: string, reportSubType: string, version: string)

  /** `SALES_API_REQUEST_FIELDS`. */
  function SalesTemplate(name: string): Option<Template> {
    if name == "subscription_event_report" then Some(Template("SUBSCRIPTION_EVENT", "DAILY", "SUMMARY", "1_3"))
    else if name == "subscriber_report" then Some(Template("SUBSCRIBER", "DAILY", "DETAILED", "1_3"))
    else if name == "subscription_report" then Some(Template("SUBSCRIPTION", "DAILY", "SUMMARY", "1_3"))
    else if name == "sales_report" then Some(Template("SALES", "DAILY", "SUMMARY", "1_0"))
    else if name == "subscription_offer_code_redemption_report" then
      Some(Template("SUBSCRIPTION_OFFER_CODE_REDEMPTION", "DAILY", "SUMMARY", "1_0"))
    else if name == "newsstand_report" then Some(Template("NEWSSTAND", "DAILY", "DETAILED", "1_0"))
    else if name == "pre_order_report" then Some(Template("PRE_ORDER", "DAILY", "SUMMARY", "1_0"))
    else None
  }

  /** `STREAMS`: the stream class registered under each name. */
  function Registry(name: string): Option<Family> {
    if name == "financial_report" then Some(Financial)
    else if SalesTemplate(name).Some? then Some(Sales)
    else None
  }

  /** Every registered stream name, in the registry's order. */
  const STREAM_NAMES: seq<string> := [
    "subscription_event_report", "subscriber_report", "subscription_report", "sales_report",
    "subscription_offer_code_redemption_report", "newsstand_report", "pre_order_report", "financial_report"]

  /** The registry holds exactly the eight names, and every sales stream has its template. */
  lemma RegistryNames(name: string)
    ensures Registry(name).Some? <==> name in STREAM_NAMES
    ensures Registry(name) == Some(Sales) ==> SalesTemplate(name).Some?
    ensures Registry(name) == Some(Financial) <==> name == "financial_report"
  {
  }

  /** `delta`: a day for sales streams, a month for the financial stream. */
  function DeltaOf(f: Family): Delta {
    match f
    case Sales => Day
    case Financial => Month
  }

  /** `report_date_format`: `%Y-%m-%d` for sales streams, `%Y-%m` for the financial stream. */
  function ReportDate(f: Family, d: DateTime): string {
    match f
    case Sales => FormatDay(d)
    case Financial => FormatMonth(d)
  }

  /** The endpoint each stream class downloads from. */
  function EndpointOf(f: Family): Endpoint {
    match f
    case Sales => SalesAndTrends
    case Financial => Finance
  }

  function TemplateFields(t: Template): Filters {
    map["reportType" := t.reportType, "frequency" := t.frequency,
        "reportSubType" := t.reportSubType, "version" := t.version]
  }

  /**
   * `get_api_request_fields`: the report date in the stream's format and the
   * vendor number, plus the template fields for a sales stream that has one;
   * a sales stream without a template (only logged) and the financial stream
   * send the two base fields alone.
   */
  function RequestFields(f: Family, name: string, vendor: Value, d: DateTime): (r: Filters)
    ensures "reportDate" in r && r["reportDate"] == ReportDate(f, d)
    ensures "vendorNumber" in r && r["vendorNumber"] == Show(vendor)
    ensures f.Sales? && SalesTemplate(name).Some? ==>
      var t := SalesTemplate(name).value;
      r.Keys == {"reportDate", "vendorNumber", "reportType", "frequency", "reportSubType", "version"}
      && r["reportType"] == t.reportType && r["frequency"] == t.frequency
      && r["reportSubType"] == t.reportSubType && r["version"] == t.version
    ensures f.Financial? || SalesTemplate(name).None? ==> r.Keys == {"reportDate", "vendorNumber"}
  {
    var base := map["reportDate" := ReportDate(f, d), "vendorNumber" := Show(vendor)];
    match f
    case Financial => base
    case Sales => if SalesTemplate(name).Some? then base + TemplateFields(SalesTemplate(name).value) else base
  }

  /** What `_attempt_download_report` gives the loop. */
  datatype Fetched =
    | Report(rows: seq<Row>)   // the parsed report
    | Missing                  // an APIError, logged; the method returns None
    | JsonRejected             // a JSON object instead of the report: `parse_api_response` raises

  /** `_attempt_download_report` followed by `parse_api_response`. */
  function AttemptDownload(response: Response): (r: Fetched)
    ensures response.ApiError? <==> r.Missing?
    ensures response.Replied? && response.reply.JsonReply? <==> r.JsonRejected?
    ensures response.Replied? && response.reply.TsvReply? ==> r == Report(Parse(response.reply.text))
  {
    match response
    case ApiError(_) => Missing
    case Replied(JsonReply(_)) => JsonRejected
    case Replied(TsvReply(text)) => Report(Parse(text))
  }

  /** `get_report`: the request for window `d` and what comes of it. */
  function GetReport(respond: (Endpoint, Filters) -> Response, f: Family, name: string, vendor: Value, d: DateTime): Fetched {
    AttemptDownload(respond(EndpointOf(f), RequestFields(f, name, vendor, d)))
  }

  /** The report of each window, for a given service. */
  function Fetcher(respond: (Endpoint, Filters) -> Response, f: Family, name: string, vendor: Value): DateTime -> Fetched {
    (d: DateTime) => GetReport(respond, f, name, vendor, d)
  }

  /** The requests made for the windows `ws`, in order. */
  function RequestsFor(f: Family, name: string, vendor: Value, ws: seq<DateTime>): seq<Request> {
    seq(|ws|, k requires 0 <= k < |ws| => Request(EndpointOf(f), RequestFields(f, name, vendor, ws[k])))
  }

  lemma RequestsForAppend(f: Family, name: string, vendor: Value, ws: seq<DateTime>, w: DateTime)
    ensures RequestsFor(f, name, vendor, ws + [w]) ==
      RequestsFor(f, name, vendor, ws) + [Request(EndpointOf(f), RequestFields(f, name, vendor, w))]
  {
    var r := RequestsFor(f, name, vendor, ws + [w]);
    assert forall k :: 0 <= k < |ws| ==> r[k] == RequestsFor(f, name, vendor, ws)[k];
  }

  /**
   * `get_bookmark`: the stream's stored `start_date`, else the configured
   * one, read in the bookmark form; the financial stream moves it back to the
   * first instant of its month.  With neither value, or a text that is not in
   * the bookmark form, the run fails.
   */
  function LoadBookmark(f: Family, b: Bookmarks, name: string, config: Config): (r: Result<DateTime, Failure>)
    ensures var text := if GetBookmark(b, name, "start_date").Some? then GetBookmark(b, name, "start_date") else config.startDate;
      && (text.None? ==> r == Failure(MissingStartDate(name)))
      && (text.Some? && ParseBookmark(text.value).None? ==> r == Failure(MalformedBookmark(text.value)))
      && (text.Some? && ParseBookmark(text.value).Some? ==>
            r == Success(if f.Financial? then StartOfMonth(ParseBookmark(text.value).value) else ParseBookmark(text.value).value))
  {
    var text := match GetBookmark(b, name, "start_date")
      case Some(v) => Some(v)
      case None => config.startDate;
    match text
    case None => Failure(MissingStartDate(name))
    case Some(t) =>
      match ParseBookmark(t)
      case None => Failure(MalformedBookmark(t))
      case Some(d) => Success(if f.Financial? then StartOfMonth(d) else d)
  }

  /** The bookmark a run writes is what the next run starts from (a financial one from its month's start). */
  lemma BookmarkReadBack(f: Family, b: Bookmarks, name: string, config: Config, d: DateTime)
    requires d.year <= 9999
    ensures LoadBookmark(f, SetBookmark(b, name, "start_date", FormatBookmark(d)), name, config)
      == Success(if f.Financial? then StartOfMonth(d) else d)
  {
    BookmarkRoundTrip(d);
  }

  /** A financial bookmark is the start of its month, whatever time of the month was stored. */
  lemma FinancialBookmarkNormalised(b: Bookmarks, name: string, config: Config)
    requires LoadBookmark(Financial, b, name, config).Success?
    ensures var d := LoadBookmark(Financial, b, name, config).value;
      d.day == 1 && d.hour == 0 && d.minute == 0 && d.second == 0
    ensures LoadBookmark(Financial, b, name, config).value
      == StartOfMonth(LoadBookmark(Sales, b, name, config).value)
  {
  }

  /** A report line's cells as record values. */
  function LineValues(line: Row): (r: Record)
    ensures r.Keys == line.Keys
    ensures forall k :: k in line ==> r[k] == Str(line[k])
  {
    map k | k in line :: Str(line[k])
  }

  /**
   * The record written for the `index`-th line of a window: the synthetic
   * fields, then the line's columns unpacked over them.
   */
  function Enrich(line: Row, index: int, extraction: DateTime, reportDate: string, vendor: Value): Record {
    map["_line_id" := Int(index), "_time_extracted" := Str(FormatBookmark(extraction)),
        "_api_report_date" := Str(reportDate), "vendor_number" := vendor] + LineValues(line)
  }

  /**
   * A record has the line's columns and the four synthetic fields; a column
   * of the line wins over a synthetic field of the same name.
   */
  lemma EnrichFields(line: Row, index: int, extraction: DateTime, reportDate: string, vendor: Value)
    ensures var r := Enrich(line, index, extraction, reportDate, vendor);
      && r.Keys == line.Keys + {"_line_id", "_time_extracted", "_api_report_date", "vendor_number"}
      && (forall k :: k in line ==> r[k] == Str(line[k]))
      && ("_line_id" !in line ==> r["_line_id"] == Int(index))
      && ("_time_extracted" !in line ==> r["_time_extracted"] == Str(FormatBookmark(extraction)))
      && ("_api_report_date" !in line ==> r["_api_report_date"] == Str(reportDate))
      && ("vendor_number" !in line ==> r["vendor_number"] == vendor)
  {
  }

  /** The records of one window, one per line, numbered from 1 in line order. */
  function WindowEvents(name: string, rows: seq<Row>, extraction: DateTime, reportDate: string, vendor: Value): seq<Event> {
    seq(|rows|, k requires 0 <= k < |rows| => RecordMsg(name, Enrich(rows[k], k + 1, extraction, reportDate, vendor), extraction))
  }

  /**
   * A window's records: as many as the report has lines, the k-th built from
   * line k with `_line_id` k + 1, all of the stream and the extraction time.
   */
  lemma WindowEventsAt(name: string, rows: seq<Row>, extraction: DateTime, reportDate: string, vendor: Value)
    ensures |WindowEvents(name, rows, extraction, reportDate, vendor)| == |rows|
    ensures forall k :: 0 <= k < |rows| ==>
      WindowEvents(name, rows, extraction, reportDate, vendor)[k]
      == RecordMsg(name, Enrich(rows[k], k + 1, extraction, reportDate, vendor), extraction)
    ensures RecordCount(WindowEvents(name, rows, extraction, reportDate, vendor)) == |rows|
  {
    var events := WindowEvents(name, rows, extraction, reportDate, vendor);
    forall k | 0 <= k < |rows|
      ensures events[k] == RecordMsg(name, Enrich(rows[k], k + 1, extraction, reportDate, vendor), extraction)
    {
      WindowEventAt(name, rows, extraction, reportDate, vendor, k);
    }
    AllRecords(events);
  }

  lemma WindowEventAt(name: string, rows: seq<Row>, extraction: DateTime, reportDate: string, vendor: Value, k: nat)
    requires k < |rows|
    ensures WindowEvents(name, rows, extraction, reportDate, vendor)[k]
      == RecordMsg(name, Enrich(rows[k], k + 1, extraction, reportDate, vendor), extraction)
  {
  }

  /**
   * The loop of `query_report` over the windows `ws`, from bookmarks `b`:
   * per window the records, then the bookmark `window + delta` and a state
   * message; after the last window a final state message.  A window without
   * a report (the `None` the loop cannot iterate) or with a JSON reply ends
   * the run with no further message.
   */
  function Drive(name: string, f: Family, vendor: Value, extraction: DateTime,
                 report: DateTime -> Fetched, ws: seq<DateTime>, b: Bookmarks): Outcome
    decreases |ws|
  {
    if ws == [] then Outcome([StateMsg(b)], b, [], [], None)
    else
      var w := ws[0];
      match report(w)
      case Missing => Outcome([], b, [], [w], Some(NoReport))
      case JsonRejected => Outcome([], b, [], [w], Some(JsonResponse))
      case Report(rows) =>
        var value := FormatBookmark(Step(DeltaOf(f), w));
        var next := SetBookmark(b, name, "start_date", value);
        var rest := Drive(name, f, vendor, extraction, report, ws[1..], next);
        Outcome(WindowEvents(name, rows, extraction, ReportDate(f, w), vendor) + [StateMsg(next)] + rest.events,
                rest.bookmarks, [value] + rest.writes, [w] + rest.fetched, rest.failure)
  }

  /** `query_report` from a loaded start: write the start bookmark, then walk the windows. */
  function QueryReportFrom(name: string, f: Family, vendor: Value, extraction: DateTime,
                           report: DateTime -> Fetched, start: DateTime, b: Bookmarks): Outcome
  {
    var first := FormatBookmark(start);
    var run := Drive(name, f, vendor, extraction, report, Windows(DeltaOf(f), start, extraction),
                     SetBookmark(b, name, "start_date", first));
    run.(writes := [first] + run.writes)
  }

  /** `query_report`: load the bookmark (which may fail), then run from it. */
  function QueryReportSpec(name: string, f: Family, config: Config, extraction: DateTime,
                           report: DateTime -> Fetched, b: Bookmarks): Outcome
  {
    match LoadBookmark(f, b, name, config)
    case Failure(e) => Outcome([], b, [], [], Some(e))
    case Success(start) => QueryReportFrom(name, f, config.vendor, extraction, report, start, b)
  }

  /** `run` with `events`, `writes` and `fetched` already done in front of it. */
  function After(events: seq<Event>, writes: seq<string>, fetched: seq<DateTime>, run: Outcome): Outcome {
    Outcome(events + run.events, run.bookmarks, writes + run.writes, fetched + run.fetched, run.failure)
  }

  lemma AfterAfter(e1: seq<Event>, w1: seq<string>, f1: seq<DateTime>,
                   e2: seq<Event>, w2: seq<string>, f2: seq<DateTime>, run: Outcome)
    ensures After(e1, w1, f1, After(e2, w2, f2, run)) == After(e1 + e2, w1 + w2, f1 + f2, run)
  {
    assert e1 + (e2 + run.events) == e1 + e2 + run.events;
    assert w1 + (w2 + run.writes) == w1 + w2 + run.writes;
    assert f1 + (f2 + run.fetched) == f1 + f2 + run.fetched;
  }

  /** One eligible window with a report: its records and state message, then the rest from the next window. */
  lemma DriveReportStep(name: string, f: Family, vendor: Value, extraction: DateTime,
                        report: DateTime -> Fetched, w: DateTime, b: Bookmarks)
    requires Eligible(DeltaOf(f), w, extraction) && report(w).Report?
    ensures var value := FormatBookmark(Step(DeltaOf(f), w));
      var next := SetBookmark(b, name, "start_date", value);
      Drive(name, f, vendor, extraction, report, Windows(DeltaOf(f), w, extraction), b)
      == After(WindowEvents(name, report(w).rows, extraction, ReportDate(f, w), vendor) + [StateMsg(next)], [value], [w],
               Drive(name, f, vendor, extraction, report, Windows(DeltaOf(f), Step(DeltaOf(f), w), extraction), next))
  {
    var ws := Windows(DeltaOf(f), w, extraction);
    assert ws[0] == w && ws[1..] == Windows(DeltaOf(f), Step(DeltaOf(f), w), extraction);
  }

  /** One eligible window without a report: the run stops there. */
  lemma DriveFailStep(name: string, f: Family, vendor: Value, extraction: DateTime,
                      report: DateTime -> Fetched, w: DateTime, b: Bookmarks)
    requires Eligible(DeltaOf(f), w, extraction) && !report(w).Report?
    ensures Drive(name, f, vendor, extraction, report, Windows(DeltaOf(f), w, extraction), b)
      == Outcome([], b, [], [w], Some(if report(w).Missing? then NoReport else JsonResponse))
  {
    var ws := Windows(DeltaOf(f), w, extraction);
    assert ws[0] == w;
  }

  /** No eligible window: the final state message only. */
  lemma DriveDone(name: string, f: Family, vendor: Value, extraction: DateTime,
                  report: DateTime -> Fetched, w: DateTime, b: Bookmarks)
    requires !Eligible(DeltaOf(f), w, extraction)
    ensures Drive(name, f, vendor, extraction, report, Windows(DeltaOf(f), w, extraction), b)
      == Outcome([StateMsg(b)], b, [], [], None)
  {
  }

  lemma AfterNothing(run: Outcome)
    ensures After([], [], [], run) == run
  {
    assert [] + run.events == run.events && [] + run.writes == run.writes && [] + run.fetched == run.fetched;
  }

  /** Writing the same bookmark twice keeps the second value only. */
  lemma SetBookmarkTwice(b: Bookmarks, name: string, key: string, v1: string, v2: string)
    ensures SetBookmark(SetBookmark(b, name, key, v1), name, key, v2) == SetBookmark(b, name, key, v2)
  {
    var inner := if name in b then b[name] else map[];
    assert inner[key := v1][key := v2] == inner[key := v2];
  }

  /**
   * What a walk over `ws` from bookmarks `b` leaves, window by window: it
   * requests a prefix of `ws`; every window before the last requested one
   * had a report, and after each of those the bookmark written is the
   * window's end; a run that fails, fails at the last window requested,
   * which had no report, and writes nothing more; a run that does not fail
   * requested every window and ends with a state message.  The bookmarks
   * left are `b` with the last value written, or `b` itself.
   */
  ghost predicate Trail(name: string, f: Family, report: DateTime -> Fetched, ws: seq<DateTime>, b: Bookmarks, r: Outcome) {
    && TrailPrefix(ws, r)
    && TrailWrites(f, report, r)
    && TrailEnd(report, ws, r)
    && TrailBookmarks(name, b, r)
  }

  /** A prefix of the windows is requested; one bookmark per window, but none for a failed one. */
  ghost predicate TrailPrefix(ws: seq<DateTime>, r: Outcome) {
    && |r.fetched| <= |ws| && r.fetched == ws[..|r.fetched|]
    && |r.writes| == (if r.failure.Some? then |r.fetched| - 1 else |r.fetched|)
  }

  /** Each bookmark written is the end of a requested window that had a report. */
  ghost predicate TrailWrites(f: Family, report: DateTime -> Fetched, r: Outcome) {
    && |r.writes| <= |r.fetched|
    && (forall k :: 0 <= k < |r.writes| ==>
          report(r.fetched[k]).Report? && r.writes[k] == FormatBookmark(Step(DeltaOf(f), r.fetched[k])))
  }

  /** How the walk ends: every window and a final state message, or the window without a report. */
  ghost predicate TrailEnd(report: DateTime -> Fetched, ws: seq<DateTime>, r: Outcome) {
    && (r.failure.None? ==> r.fetched == ws && r.events != [] && r.events[|r.events| - 1] == StateMsg(r.bookmarks))
    && (r.failure.Some? ==>
          && r.fetched != []
          && !report(r.fetched[|r.fetched| - 1]).Report?
          && r.failure == Some(if report(r.fetched[|r.fetched| - 1]).Missing? then NoReport else JsonResponse))
  }

  /** The bookmarks left: the last value written, or those at the start. */
  ghost predicate TrailBookmarks(name: string, b: Bookmarks, r: Outcome) {
    r.bookmarks == (if r.writes == [] then b else SetBookmark(b, name, "start_date", r.writes[|r.writes| - 1]))
  }

  /** A window with a report, as `Drive` takes it: its records and state message, then the rest. */
  lemma DriveStep(name: string, f: Family, vendor: Value, extraction: DateTime,
                  report: DateTime -> Fetched, ws: seq<DateTime>, b: Bookmarks)
    requires ws != [] && report(ws[0]).Report?
    ensures var next := SetBookmark(b, name, "start_date", FormatBookmark(Step(DeltaOf(f), ws[0])));
      Drive(name, f, vendor, extraction, report, ws, b)
      == After(WindowEvents(name, report(ws[0]).rows, extraction, ReportDate(f, ws[0]), vendor) + [StateMsg(next)],
               [FormatBookmark(Step(DeltaOf(f), ws[0]))], [ws[0]],
               Drive(name, f, vendor, extraction, report, ws[1..], next))
  {
  }

  lemma PrefixCons<T>(ws: seq<T>, p: seq<T>)
    requires ws != [] && |p| < |ws| && p == ws[1..][..|p|]
    ensures [ws[0]] + p == ws[..|p| + 1]
  {
    assert forall k :: 1 <= k <= |p| ==> ([ws[0]] + p)[k] == ws[k];
  }

  /** The trail of a window with a report followed by the trail of the rest. */
  lemma TrailCons(name: string, f: Family, report: DateTime -> Fetched, ws: seq<DateTime>, b: Bookmarks,
                  step: seq<Event>, value: string, rest: Outcome)
    requires ws != [] && report(ws[0]).Report?
    requires value == FormatBookmark(Step(DeltaOf(f), ws[0]))
    requires Trail(name, f, report, ws[1..], SetBookmark(b, name, "start_date", value), rest)
    ensures Trail(name, f, report, ws, b, After(step, [value], [ws[0]], rest))
  {
    var r := After(step, [value], [ws[0]], rest);
    PrefixCons(ws, rest.fetched);
    TrailWritesCons(f, report, ws[0], value, r, rest);
    TrailEndCons(report, ws, r, rest);
    TrailBookmarksCons(name, b, value, r, rest);
  }

  lemma TrailWritesCons(f: Family, report: DateTime -> Fetched, w: DateTime, value: string, r: Outcome, rest: Outcome)
    requires report(w).Report? && value == FormatBookmark(Step(DeltaOf(f), w))
    requires r.fetched == [w] + rest.fetched && r.writes == [value] + rest.writes
    requires TrailWrites(f, report, rest)
    ensures TrailWrites(f, report, r)
  {
    forall k | 0 <= k < |r.writes|
      ensures report(r.fetched[k]).Report? && r.writes[k] == FormatBookmark(Step(DeltaOf(f), r.fetched[k]))
    {
      if k > 0 {
        assert r.fetched[k] == rest.fetched[k - 1] && r.writes[k] == rest.writes[k - 1];
      }
    }
  }

  lemma TrailEndCons(report: DateTime -> Fetched, ws: seq<DateTime>, r: Outcome, rest: Outcome)
    requires ws != []
    requires r.fetched == [ws[0]] + rest.fetched && r.failure == rest.failure && r.bookmarks == rest.bookmarks
    requires |r.events| >= |rest.events| && r.events[|r.events| - |rest.events|..] == rest.events
    requires TrailEnd(report, ws[1..], rest)
    ensures TrailEnd(report, ws, r)
  {
    if rest.failure.None? {
      assert [ws[0]] + ws[1..] == ws;
      assert r.events[|r.events| - 1] == r.events[|r.events| - |rest.events|..][|rest.events| - 1];
    } else {
      assert r.fetched[|r.fetched| - 1] == rest.fetched[|rest.fetched| - 1];
    }
  }

  lemma TrailBookmarksCons(name: string, b: Bookmarks, value: string, r: Outcome, rest: Outcome)
    requires r.writes == [value] + rest.writes && r.bookmarks == rest.bookmarks
    requires TrailBookmarks(name, SetBookmark(b, name, "start_date", value), rest)
    ensures TrailBookmarks(name, b, r)
  {
    if rest.writes != [] {
      SetBookmarkTwice(b, name, "start_date", value, rest.writes[|rest.writes| - 1]);
      assert r.writes[|r.writes| - 1] == rest.writes[|rest.writes| - 1];
    }
  }

  lemma {:induction false} DriveTrail(name: string, f: Family, vendor: Value, extraction: DateTime,
                                      report: DateTime -> Fetched, ws: seq<DateTime>, b: Bookmarks)
    ensures Trail(name, f, report, ws, b, Drive(name, f, vendor, extraction, report, ws, b))
    decreases |ws|
  {
    if ws != [] && report(ws[0]).Report? {
      var w := ws[0];
      var value := FormatBookmark(Step(DeltaOf(f), w));
      var next := SetBookmark(b, name, "start_date", value);
      DriveStep(name, f, vendor, extraction, report, ws, b);
      DriveTrail(name, f, vendor, extraction, report, ws[1..], next);
      TrailCons(name, f, report, ws, b,
                WindowEvents(name, report(w).rows, extraction, ReportDate(f, w), vendor) + [StateMsg(next)],
                value, Drive(name, f, vendor, extraction, report, ws[1..], next));
    }
  }

  /** The rows of the reports of the windows `ws`; a window without a report has none. */
  function RowsOf(report: DateTime -> Fetched, ws: seq<DateTime>): nat {
    if ws == [] then 0 else (if report(ws[0]).Report? then |report(ws[0]).rows| else 0) + RowsOf(report, ws[1..])
  }

  /** A walk writes one record per row of the reports of the windows it requested. */
  lemma {:induction false} DriveRecords(name: string, f: Family, vendor: Value, extraction: DateTime,
                                        report: DateTime -> Fetched, ws: seq<DateTime>, b: Bookmarks)
    ensures RecordCount(Drive(name, f, vendor, extraction, report, ws, b).events)
      == RowsOf(report, Drive(name, f, vendor, extraction, report, ws, b).fetched)
    decreases |ws|
  {
    if ws == [] {
      assert [StateMsg(b)][..0] == [];
    } else if report(ws[0]).Report? {
      var w := ws[0];
      var next := SetBookmark(b, name, "start_date", FormatBookmark(Step(DeltaOf(f), w)));
      var records := WindowEvents(name, report(w).rows, extraction, ReportDate(f, w), vendor);
      DriveStep(name, f, vendor, extraction, report, ws, b);
      DriveRecords(name, f, vendor, extraction, report, ws[1..], next);
      WindowEventsAt(name, report(w).rows, extraction, ReportDate(f, w), vendor);
      RecordsCons(report, w, records, next, Drive(name, f, vendor, extraction, report, ws[1..], next));
    } else {
      assert [ws[0]][1..] == [];
    }
  }

  /** The record count of one window with a report followed by the rest. */
  lemma RecordsCons(report: DateTime -> Fetched, w: DateTime, records: seq<Event>, next: Bookmarks, rest: Outcome)
    requires report(w).Report? && RecordCount(records) == |report(w).rows|
    requires RecordCount(rest.events) == RowsOf(report, rest.fetched)
    ensures RecordCount((records + [StateMsg(next)]) + rest.events) == RowsOf(report, [w] + rest.fetched)
  {
    RecordCountAppend(records + [StateMsg(next)], rest.events);
    RecordCountAppend(records, [StateMsg(next)]);
    assert [StateMsg(next)][..0] == [];
    assert ([w] + rest.fetched)[1..] == rest.fetched;
  }

  /**
   * `query_report` from a start: the first bookmark written is the start;
   * the windows requested are the report windows from the start, in order,
   * each one `delta` after the previous and ending no later than the
   * extraction time; each later bookmark is the end of a window that had a
   * report.  A run that does not fail requested every window up to the
   * first one ending after the extraction time and ends with a state
   * message; the stream's bookmark is then the last value written, and no
   * other bookmark changes.
   */
  lemma QueryReportTrail(name: string, f: Family, vendor: Value, extraction: DateTime,
                         report: DateTime -> Fetched, start: DateTime, b: Bookmarks)
    ensures |QueryReportFrom(name, f, vendor, extraction, report, start, b).writes| >= 1
    ensures QueryReportFrom(name, f, vendor, extraction, report, start, b).writes[0] == FormatBookmark(start)
    ensures Trail(name, f, report, Windows(DeltaOf(f), start, extraction),
                  SetBookmark(b, name, "start_date", FormatBookmark(start)),
                  Drive(name, f, vendor, extraction, report, Windows(DeltaOf(f), start, extraction),
                        SetBookmark(b, name, "start_date", FormatBookmark(start))))
    ensures QueryReportFrom(name, f, vendor, extraction, report, start, b).fetched
      == Drive(name, f, vendor, extraction, report, Windows(DeltaOf(f), start, extraction),
               SetBookmark(b, name, "start_date", FormatBookmark(start))).fetched
    ensures IsChain(DeltaOf(f), start, extraction, Windows(DeltaOf(f), start, extraction))
    ensures QueryReportFrom(name, f, vendor, extraction, report, start, b).bookmarks
      == SetBookmark(b, name, "start_date", QueryReportFrom(name, f, vendor, extraction, report, start, b).writes[
           |QueryReportFrom(name, f, vendor, extraction, report, start, b).writes| - 1])
  {
    var first := FormatBookmark(start);
    var b1 := SetBookmark(b, name, "start_date", first);
    var run := Drive(name, f, vendor, extraction, report, Windows(DeltaOf(f), start, extraction), b1);
    DriveTrail(name, f, vendor, extraction, report, Windows(DeltaOf(f), start, extraction), b1);
    WindowsChain(DeltaOf(f), start, extraction);
    if run.writes != [] {
      SetBookmarkTwice(b, name, "start_date", first, run.writes[|run.writes| - 1]);
    }
  }

  /**
   * The windows requested are consecutive report windows: the first is the
   * start, each is one `delta` after the previous, starts strictly later,
   * and ends no later than the extraction time.
   */
  lemma QueryReportWindows(name: string, f: Family, vendor: Value, extraction: DateTime,
                           report: DateTime -> Fetched, start: DateTime, b: Bookmarks, k: nat)
    requires k < |QueryReportFrom(name, f, vendor, extraction, report, start, b).fetched|
    ensures k == 0 ==> QueryReportFrom(name, f, vendor, extraction, report, start, b).fetched[k] == start
    ensures k > 0 ==>
      && QueryReportFrom(name, f, vendor, extraction, report, start, b).fetched[k]
         == Step(DeltaOf(f), QueryReportFrom(name, f, vendor, extraction, report, start, b).fetched[k - 1])
      && Instant(QueryReportFrom(name, f, vendor, extraction, report, start, b).fetched[k - 1])
         < Instant(QueryReportFrom(name, f, vendor, extraction, report, start, b).fetched[k])
    ensures NotAfter(Step(DeltaOf(f), QueryReportFrom(name, f, vendor, extraction, report, start, b).fetched[k]), extraction)
  {
    QueryReportTrail(name, f, vendor, extraction, report, start, b);
    var ws := Windows(DeltaOf(f), start, extraction);
    var fetched := QueryReportFrom(name, f, vendor, extraction, report, start, b).fetched;
    assert fetched[k] == ws[k];
    if k > 0 {
      assert fetched[k - 1] == ws[k - 1];
    }
  }

  /**
   * No eligible window: no request and no record, one bookmark write (the
   * start) and one state message.
   */
  lemma NoEligibleWindow(name: string, f: Family, vendor: Value, extraction: DateTime,
                         report: DateTime -> Fetched, start: DateTime, b: Bookmarks)
    requires !NotAfter(Step(DeltaOf(f), start), extraction)
    ensures QueryReportFrom(name, f, vendor, extraction, report, start, b)
      == Outcome([StateMsg(SetBookmark(b, name, "start_date", FormatBookmark(start)))],
                 SetBookmark(b, name, "start_date", FormatBookmark(start)),
                 [FormatBookmark(start)], [], None)
    ensures RecordCount(QueryReportFrom(name, f, vendor, extraction, report, start, b).events) == 0
  {
    var b1 := SetBookmark(b, name, "start_date", FormatBookmark(start));
    assert [StateMsg(b1)][..0] == [];
  }

  /** The messages of one stream's run: its own records and state messages, no schema. */
  ghost predicate OwnEvents(name: string, events: seq<Event>) {
    forall k :: 0 <= k < |events| ==> !events[k].SchemaMsg? && (events[k].RecordMsg? ==> events[k].stream == name)
  }

  lemma OwnAppend(name: string, a: seq<Event>, b: seq<Event>)
    requires OwnEvents(name, a) && OwnEvents(name, b)
    ensures OwnEvents(name, a + b)
  {
    forall k | 0 <= k < |a + b|
      ensures !(a + b)[k].SchemaMsg? && ((a + b)[k].RecordMsg? ==> (a + b)[k].stream == name)
    {
      if k >= |a| {
        assert (a + b)[k] == b[k - |a|];
      }
    }
  }

  lemma {:induction false} DriveOwn(name: string, f: Family, vendor: Value, extraction: DateTime,
                                    report: DateTime -> Fetched, ws: seq<DateTime>, b: Bookmarks)
    ensures OwnEvents(name, Drive(name, f, vendor, extraction, report, ws, b).events)
    decreases |ws|
  {
    if ws != [] && report(ws[0]).Report? {
      var w := ws[0];
      var next := SetBookmark(b, name, "start_date", FormatBookmark(Step(DeltaOf(f), w)));
      DriveStep(name, f, vendor, extraction, report, ws, b);
      DriveOwn(name, f, vendor, extraction, report, ws[1..], next);
      OwnCons(name, report(w).rows, extraction, ReportDate(f, w), vendor, next,
              Drive(name, f, vendor, extraction, report, ws[1..], next).events);
    }
  }

  lemma OwnCons(name: string, rows: seq<Row>, extraction: DateTime, reportDate: string, vendor: Value,
                next: Bookmarks, rest: seq<Event>)
    requires OwnEvents(name, rest)
    ensures OwnEvents(name, WindowEvents(name, rows, extraction, reportDate, vendor) + [StateMsg(next)] + rest)
  {
    var records := WindowEvents(name, rows, extraction, reportDate, vendor);
    WindowEventsAt(name, rows, extraction, reportDate, vendor);
    OwnAppend(name, records, [StateMsg(next)]);
    OwnAppend(name, records + [StateMsg(next)], rest);
  }

  /**
   * A stream's `query_report` writes no schema and only records of its own
   * stream, and fails, if at all, for its bookmark or its reports.
   */
  lemma QueryReportOwn(name: string, f: Family, config: Config, extraction: DateTime,
                       report: DateTime -> Fetched, b: Bookmarks)
    ensures OwnEvents(name, QueryReportSpec(name, f, config, extraction, report, b).events)
    ensures QueryReportSpec(name, f, config, extraction, report, b).failure.Some? ==>
      QueryReportSpec(name, f, config, extraction, report, b).failure.value in
        {MissingStartDate(name), NoReport, JsonResponse} ||
      QueryReportSpec(name, f, config, extraction, report, b).failure.value.MalformedBookmark?
  {
    match LoadBookmark(f, b, name, config)
    case Failure(e) =>
    case Success(start) =>
      var b1 := SetBookmark(b, name, "start_date", FormatBookmark(start));
      DriveOwn(name, f, config.vendor, extraction, report, Windows(DeltaOf(f), start, extraction), b1);
      DriveTrail(name, f, config.vendor, extraction, report, Windows(DeltaOf(f), start, extraction), b1);
  }

  /** The two report lines of May 2023 and the one of June 2023 in the financial example. */
  const MayLine: Row := map["test" := "2023-05", "apple_identifier" := "1"]
  const JuneLine: Row := map["test" := "2023-06", "apple_identifier" := "1"]

  /** The example service: reports for May and June of year `y` only. */
  function ExampleReports(y: int): DateTime -> Fetched {
    (d: DateTime) =>
      if d.year == y && d.month == 5 then Report([MayLine, MayLine])
      else if d.year == y && d.month == 6 then Report([JuneLine])
      else Missing
  }

  lemma ExampleDigits()
    ensures Year(Civil(2023, 5, 1, 0, 0, 0)) == "2023"
    ensures Two(0) == "00" && Two(1) == "01" && Two(5) == "05" && Two(6) == "06" && Two(7) == "07"
  {
    assert Decimal(2, 1) == "2";
    assert Decimal(20, 2) == "20";
    assert Decimal(202, 3) == "202";
    assert Decimal(2023, 4) == "2023";
    assert Decimal(0, 1) == "0";
    assert Decimal(0, 2) == "00";
  }

  /** The bookmark text of midnight on the first of a month. */
  lemma FirstBookmark(y: int, m: int)
    requires 1 <= y && 1 <= m <= 12
    ensures WellFormed(Civil(y, m, 1, 0, 0, 0))
    ensures FormatBookmark(Civil(y, m, 1, 0, 0, 0)) == Year(Civil(y, m, 1, 0, 0, 0)) + "-" + Two(m) + "-01T00:00:00Z"
    ensures FormatMonth(Civil(y, m, 1, 0, 0, 0)) == Year(Civil(y, m, 1, 0, 0, 0)) + "-" + Two(m)
  {
    MidnightFirst(Civil(y, m, 1, 0, 0, 0));
  }

  /** Midnight on the first of a month is written as its month followed by `-01T00:00:00Z`. */
  lemma MidnightFirst(d: DateTime)
    requires d.day == 1 && d.hour == 0 && d.minute == 0 && d.second == 0
    ensures FormatBookmark(d) == FormatMonth(d) + "-01T00:00:00Z"
  {
    SmallDigits();
    var ym := FormatMonth(d);
    assert ClockTime(d) == "00" + ":" + "00" + ":" + "00" == "00:00:00";
    assert FormatDay(d) == ym + "-" + "01";
    assert FormatBookmark(d) == ym + "-" + "01" + "T" + "00:00:00" + "Z";
    assert ym + "-" + "01" + "T" + "00:00:00" + "Z" == ym + "-01T00:00:00Z";
  }

  lemma SmallDigits()
    ensures Two(0) == "00" && Two(1) == "01"
  {
    assert Decimal(0, 1) == "0";
  }

  /** Midnight on the first of a month, one month later, is midnight on the first of the next month. */
  lemma NextFirst(y: int, m: int)
    requires 1 <= y && 1 <= m < 12
    ensures WellFormed(Civil(y, m, 1, 0, 0, 0)) && WellFormed(Civil(y, m + 1, 1, 0, 0, 0))
    ensures Step(Month, Civil(y, m, 1, 0, 0, 0)) == Civil(y, m + 1, 1, 0, 0, 0)
    ensures Instant(Civil(y, m, 1, 0, 0, 0)) < Instant(Civil(y, m + 1, 1, 0, 0, 0))
  {
  }

  /** Monthly windows from the first of May up to the first of July: May and June. */
  lemma MayJuneWindows(y: int)
    requires 1 <= y
    ensures WellFormed(Civil(y, 5, 1, 0, 0, 0)) && WellFormed(Civil(y, 6, 1, 0, 0, 0)) && WellFormed(Civil(y, 7, 1, 0, 0, 0))
    ensures Windows(Month, Civil(y, 5, 1, 0, 0, 0), Civil(y, 7, 1, 0, 0, 0))
      == [Civil(y, 5, 1, 0, 0, 0), Civil(y, 6, 1, 0, 0, 0)]
  {
    NextFirst(y, 5);
    NextFirst(y, 6);
    NextFirst(y, 7);
    var may: DateTime, june: DateTime, july: DateTime := Civil(y, 5, 1, 0, 0, 0), Civil(y, 6, 1, 0, 0, 0), Civil(y, 7, 1, 0, 0, 0);
    assert Windows(Month, july, july) == [];
    assert Windows(Month, june, july) == [june] + Windows(Month, july, july);
    assert Windows(Month, may, july) == [may] + Windows(Month, june, july);
  }

  /** The bookmark and report-date texts of the first of a month of 2023. */
  lemma Texts2023(m: int, mm: string)
    requires 1 <= m <= 12 && Two(m) == mm
    ensures WellFormed(Civil(2023, m, 1, 0, 0, 0))
    ensures FormatBookmark(Civil(2023, m, 1, 0, 0, 0)) == "2023-" + mm + "-01T00:00:00Z"
    ensures FormatMonth(Civil(2023, m, 1, 0, 0, 0)) == "2023-" + mm
  {
    FirstBookmark(2023, m);
    ExampleDigits();
    assert Year(Civil(2023, m, 1, 0, 0, 0)) == "2023";
  }

  /** The report dates of the financial example in 2023. */
  lemma ExampleMonths()
    ensures FormatMonth(Civil(2023, 5, 1, 0, 0, 0)) == "2023-05"
    ensures FormatMonth(Civil(2023, 6, 1, 0, 0, 0)) == "2023-06"
  {
    ExampleDigits();
    Texts2023(5, "05");
    Texts2023(6, "06");
  }

  /** The run of the financial example, window by window. */
  lemma ExampleRun(y: int)
    requires 1 <= y
    ensures WellFormed(Civil(y, 5, 1, 0, 0, 0)) && WellFormed(Civil(y, 6, 1, 0, 0, 0)) && WellFormed(Civil(y, 7, 1, 0, 0, 0))
    ensures var may: DateTime, june: DateTime, july: DateTime := Civil(y, 5, 1, 0, 0, 0), Civil(y, 6, 1, 0, 0, 0), Civil(y, 7, 1, 0, 0, 0);
      var b0 := SetBookmark(map[], "financial_report", "start_date", FormatBookmark(may));
      var b1 := SetBookmark(b0, "financial_report", "start_date", FormatBookmark(june));
      var b2 := SetBookmark(b1, "financial_report", "start_date", FormatBookmark(july));
      QueryReportFrom("financial_report", Financial, Str("123"), july, ExampleReports(y), may, map[])
      == Outcome(WindowEvents("financial_report", [MayLine, MayLine], july, FormatMonth(may), Str("123")) + [StateMsg(b1)]
                 + (WindowEvents("financial_report", [JuneLine], july, FormatMonth(june), Str("123")) + [StateMsg(b2)]
                    + [StateMsg(b2)]),
                 b2, [FormatBookmark(may), FormatBookmark(june), FormatBookmark(july)], [may, june], None)
  {
    MayJuneWindows(y);
    NextFirst(y, 5);
    NextFirst(y, 6);
    var may: DateTime, june: DateTime := Civil(y, 5, 1, 0, 0, 0), Civil(y, 6, 1, 0, 0, 0);
    assert ExampleReports(y)(may) == Report([MayLine, MayLine]);
    assert ExampleReports(y)(june) == Report([JuneLine]);
    FromTwo("financial_report", Financial, Str("123"), Civil(y, 7, 1, 0, 0, 0), ExampleReports(y), may, june, map[]);
  }

  /** `query_report` from a start with two windows, both with a report. */
  lemma FromTwo(name: string, f: Family, vendor: Value, extraction: DateTime,
                report: DateTime -> Fetched, start: DateTime, w2: DateTime, b: Bookmarks)
    requires Windows(DeltaOf(f), start, extraction) == [start, w2]
    requires report(start).Report? && report(w2).Report?
    ensures var v1, v2 := FormatBookmark(Step(DeltaOf(f), start)), FormatBookmark(Step(DeltaOf(f), w2));
      var b0 := SetBookmark(b, name, "start_date", FormatBookmark(start));
      var b1 := SetBookmark(b0, name, "start_date", v1);
      var b2 := SetBookmark(b1, name, "start_date", v2);
      QueryReportFrom(name, f, vendor, extraction, report, start, b)
      == Outcome(WindowEvents(name, report(start).rows, extraction, ReportDate(f, start), vendor) + [StateMsg(b1)]
                 + (WindowEvents(name, report(w2).rows, extraction, ReportDate(f, w2), vendor) + [StateMsg(b2)]
                    + [StateMsg(b2)]),
                 b2, [FormatBookmark(start), v1, v2], [start, w2], None)
  {
    var first := FormatBookmark(start);
    var b0 := SetBookmark(b, name, "start_date", first);
    var run := Drive(name, f, vendor, extraction, report, [start, w2], b0);
    assert QueryReportFrom(name, f, vendor, extraction, report, start, b) == run.(writes := [first] + run.writes);
    DriveTwo(name, f, vendor, extraction, report, start, w2, b0);
    ConsTwo(first, FormatBookmark(Step(DeltaOf(f), start)), FormatBookmark(Step(DeltaOf(f), w2)));
  }

  lemma ConsTwo<T>(x: T, y: T, z: T)
    ensures [x] + [y, z] == [x, y, z]
  {
  }

  /** Two windows that both have a report: each one's records and state message, then the closing one. */
  lemma DriveTwo(name: string, f: Family, vendor: Value, extraction: DateTime,
                 report: DateTime -> Fetched, w1: DateTime, w2: DateTime, b0: Bookmarks)
    requires report(w1).Report? && report(w2).Report?
    ensures var v1, v2 := FormatBookmark(Step(DeltaOf(f), w1)), FormatBookmark(Step(DeltaOf(f), w2));
      var b1 := SetBookmark(b0, name, "start_date", v1);
      var b2 := SetBookmark(b1, name, "start_date", v2);
      Drive(name, f, vendor, extraction, report, [w1, w2], b0)
      == Outcome(WindowEvents(name, report(w1).rows, extraction, ReportDate(f, w1), vendor) + [StateMsg(b1)]
                 + (WindowEvents(name, report(w2).rows, extraction, ReportDate(f, w2), vendor) + [StateMsg(b2)]
                    + [StateMsg(b2)]),
                 b2, [v1, v2], [w1, w2], None)
  {
    var v1, v2 := FormatBookmark(Step(DeltaOf(f), w1)), FormatBookmark(Step(DeltaOf(f), w2));
    var b1 := SetBookmark(b0, name, "start_date", v1);
    var b2 := SetBookmark(b1, name, "start_date", v2);
    var e1 := WindowEvents(name, report(w1).rows, extraction, ReportDate(f, w1), vendor) + [StateMsg(b1)];
    var e2 := WindowEvents(name, report(w2).rows, extraction, ReportDate(f, w2), vendor) + [StateMsg(b2)];
    var last := Drive(name, f, vendor, extraction, report, [], b2);
    assert [w2][1..] == [];
    DriveStep(name, f, vendor, extraction, report, [w2], b1);
    var r2 := After(e2, [v2], [w2], last);
    assert [w1, w2][1..] == [w2];
    DriveStep(name, f, vendor, extraction, report, [w1, w2], b0);
    AfterTwo(e1, v1, w1, e2, v2, w2, b2);
  }

  lemma AfterTwo(e1: seq<Event>, v1: string, w1: DateTime, e2: seq<Event>, v2: string, w2: DateTime, b: Bookmarks)
    ensures After(e1, [v1], [w1], After(e2, [v2], [w2], Outcome([StateMsg(b)], b, [], [], None)))
      == Outcome(e1 + (e2 + [StateMsg(b)]), b, [v1, v2], [w1, w2], None)
  {
    assert [v1] + ([v2] + []) == [v1, v2];
    assert [w1] + ([w2] + []) == [w1, w2];
  }

  /** The bookmarks of the example: written three times, the last value is the first of July. */
  lemma ExampleBookmarks(name: string, v0: string, v1: string, v2: string)
    ensures SetBookmark(SetBookmark(SetBookmark(map[], name, "start_date", v0), name, "start_date", v1), name, "start_date", v2)
      == map[name := map["start_date" := v2]]
  {
    SetBookmarkTwice(map[], name, "start_date", v0, v1);
    SetBookmarkTwice(map[], name, "start_date", v1, v2);
  }

  /**
   * The financial example, in any year: from the first of May with the
   * extraction at the first of July, the May and June reports are
   * requested; the bookmarks written are the start, the first of June and
   * the first of July, the last of which is the stream's bookmark at the
   * end; the run does not fail.  For 2023 the texts are those of `Texts2023`:
   * "2023-05-01T00:00:00Z", "2023-06-01T00:00:00Z" and "2023-07-01T00:00:00Z".
   */
  lemma FinancialExampleBookmarks(y: int)
    requires 1 <= y
    ensures WellFormed(Civil(y, 5, 1, 0, 0, 0)) && WellFormed(Civil(y, 6, 1, 0, 0, 0)) && WellFormed(Civil(y, 7, 1, 0, 0, 0))
    ensures var run := QueryReportFrom("financial_report", Financial, Str("123"), Civil(y, 7, 1, 0, 0, 0),
                                       ExampleReports(y), Civil(y, 5, 1, 0, 0, 0), map[]);
      && run.writes == [FormatBookmark(Civil(y, 5, 1, 0, 0, 0)), FormatBookmark(Civil(y, 6, 1, 0, 0, 0)),
                        FormatBookmark(Civil(y, 7, 1, 0, 0, 0))]
      && run.fetched == [Civil(y, 5, 1, 0, 0, 0), Civil(y, 6, 1, 0, 0, 0)]
      && run.failure == None
      && run.bookmarks == map["financial_report" := map["start_date" := FormatBookmark(Civil(y, 7, 1, 0, 0, 0))]]
  {
    ExampleRun(y);
    ExampleBookmarks("financial_report", FormatBookmark(Civil(y, 5, 1, 0, 0, 0)), FormatBookmark(Civil(y, 6, 1, 0, 0, 0)),
                     FormatBookmark(Civil(y, 7, 1, 0, 0, 0)));
  }

  /**
   * The records of the financial example: three, numbered 1 and 2 for May
   * and 1 for June, each with its month as report date and the extraction
   * time, then a state message after each month and a final one.
   */
  lemma FinancialExampleRecords(y: int)
    requires 1 <= y
    ensures WellFormed(Civil(y, 5, 1, 0, 0, 0)) && WellFormed(Civil(y, 6, 1, 0, 0, 0)) && WellFormed(Civil(y, 7, 1, 0, 0, 0))
    ensures var run := QueryReportFrom("financial_report", Financial, Str("123"), Civil(y, 7, 1, 0, 0, 0),
                                       ExampleReports(y), Civil(y, 5, 1, 0, 0, 0), map[]);
      && RecordCount(run.events) == 3
      && |run.events| == 6
      && run.events[0] == RecordMsg("financial_report",
           Enrich(MayLine, 1, Civil(y, 7, 1, 0, 0, 0), FormatMonth(Civil(y, 5, 1, 0, 0, 0)), Str("123")), Civil(y, 7, 1, 0, 0, 0))
      && run.events[1] == RecordMsg("financial_report",
           Enrich(MayLine, 2, Civil(y, 7, 1, 0, 0, 0), FormatMonth(Civil(y, 5, 1, 0, 0, 0)), Str("123")), Civil(y, 7, 1, 0, 0, 0))
      && run.events[2].StateMsg? && run.events[3] == RecordMsg("financial_report",
           Enrich(JuneLine, 1, Civil(y, 7, 1, 0, 0, 0), FormatMonth(Civil(y, 6, 1, 0, 0, 0)), Str("123")), Civil(y, 7, 1, 0, 0, 0))
      && run.events[4].StateMsg? && run.events[5].StateMsg?
  {
    ExampleRun(y);
    var may: DateTime, june: DateTime, july: DateTime := Civil(y, 5, 1, 0, 0, 0), Civil(y, 6, 1, 0, 0, 0), Civil(y, 7, 1, 0, 0, 0);
    var name, vendor := "financial_report", Str("123");
    var b0 := SetBookmark(map[], name, "start_date", FormatBookmark(may));
    var b1 := SetBookmark(b0, name, "start_date", FormatBookmark(june));
    var b2 := SetBookmark(b1, name, "start_date", FormatBookmark(july));
    ExampleEvents(name, vendor, july, FormatMonth(may), FormatMonth(june), b1, b2);
  }

  /** The events of the example, as they come out of `Drive`. */
  lemma ExampleEvents(name: string, vendor: Value, extraction: DateTime, mayDate: string, juneDate: string,
                      b1: Bookmarks, b2: Bookmarks)
    ensures var events := WindowEvents(name, [MayLine, MayLine], extraction, mayDate, vendor) + [StateMsg(b1)]
                          + (WindowEvents(name, [JuneLine], extraction, juneDate, vendor) + [StateMsg(b2)] + [StateMsg(b2)]);
      && RecordCount(events) == 3
      && |events| == 6
      && events[0] == RecordMsg(name, Enrich(MayLine, 1, extraction, mayDate, vendor), extraction)
      && events[1] == RecordMsg(name, Enrich(MayLine, 2, extraction, mayDate, vendor), extraction)
      && events[2].StateMsg? && events[3] == RecordMsg(name, Enrich(JuneLine, 1, extraction, juneDate, vendor), extraction)
      && events[4].StateMsg? && events[5].StateMsg?
  {
    var mayEvents := WindowEvents(name, [MayLine, MayLine], extraction, mayDate, vendor);
    var juneEvents := WindowEvents(name, [JuneLine], extraction, juneDate, vendor);
    WindowEventsAt(name, [MayLine, MayLine], extraction, mayDate, vendor);
    WindowEventsAt(name, [JuneLine], extraction, juneDate, vendor);
    StateAddsNoRecord(mayEvents, b1);
    StateAddsNoRecord(juneEvents, b2);
    StateAddsNoRecord(juneEvents + [StateMsg(b2)], b2);
    RecordCountAppend(mayEvents + [StateMsg(b1)], juneEvents + [StateMsg(b2)] + [StateMsg(b2)]);
  }

  /** A state message adds no record. */
  lemma StateAddsNoRecord(events: seq<Event>, b: Bookmarks)
    ensures RecordCount(events + [StateMsg(b)]) == RecordCount(events)
  {
    assert (events + [StateMsg(b)])[..|events|] == events;
  }

  class Stream {
    const name: string
    const family: Family
    const api: Client
    const config: Config
    const state: State
    const out: Output

    constructor (name: string, family: Family, api: Client, config: Config, state: State, out: Output)
      ensures this.name == name && this.family == family && this.api == api
      ensures this.config == config && this.state == state && this.out == out
    {
      this.name := name;
      this.family := family;
      this.api := api;
      this.config := config;
      this.state := state;
      this.out := out;
    }

    method GetBookmark() returns (r: Result<DateTime, Failure>)
      ensures r == LoadBookmark(family, state.bookmarks, name, config)
    {
      r := LoadBookmark(family, state.bookmarks, name, config);
    }

    method UpdateBookmark(value: DateTime)
      modifies state
      ensures state.bookmarks == SetBookmark(old(state.bookmarks), name, "start_date", FormatBookmark(value))
      ensures state.writes == old(state.writes) + [BookmarkWrite(name, "start_date", FormatBookmark(value))]
    {
      state.WriteBookmark(name, "start_date", FormatBookmark(value));
    }

    method GetReport(d: DateTime) returns (r: Fetched)
      modifies api
      ensures r == Fetcher(api.respond, family, name, config.vendor)(d)
      ensures api.requests == old(api.requests) + [Request(EndpointOf(family), RequestFields(family, name, config.vendor, d))]
    {
      var response := api.Download(EndpointOf(family), RequestFields(family, name, config.vendor, d));
      r := AttemptDownload(response);
    }

    /** Writes the records of one window, numbered from 1. */
    method WriteRecords(rows: seq<Row>, extraction: DateTime, reportDate: string)
      modifies out
      ensures out.events == old(out.events) + WindowEvents(name, rows, extraction, reportDate, config.vendor)
    {
      ghost var events := WindowEvents(name, rows, extraction, reportDate, config.vendor);
      var i := 0;
      while i < |rows|
        invariant 0 <= i <= |rows|
        invariant out.events == old(out.events) + events[..i]
      {
        var data := Enrich(rows[i], i + 1, extraction, reportDate, config.vendor);
        assert events[i] == RecordMsg(name, data, extraction);
        out.Write(RecordMsg(name, data, extraction));
        assert events[..i + 1] == events[..i] + [events[i]];
        i := i + 1;
      }
      assert events[..i] == events;
    }

    /**
     * One pass of the loop of `query_report`: request the window's report;
     * with a report, write its records, move the bookmark to the window's
     * end and write the state.  Without one nothing else happens here (the
     * caller stops).
     */
    method VisitWindow(cursor: DateTime, extraction: DateTime) returns (rep: Fetched)
      modifies state, api, out
      ensures rep == Fetcher(api.respond, family, name, config.vendor)(cursor)
      ensures api.requests == old(api.requests) + [Request(EndpointOf(family), RequestFields(family, name, config.vendor, cursor))]
      ensures !rep.Report? ==> state.bookmarks == old(state.bookmarks) && state.writes == old(state.writes) && out.events == old(out.events)
      ensures rep.Report? ==>
        var value := FormatBookmark(Step(DeltaOf(family), cursor));
        var next := SetBookmark(old(state.bookmarks), name, "start_date", value);
        && state.bookmarks == next
        && state.writes == old(state.writes) + [BookmarkWrite(name, "start_date", value)]
        && out.events == old(out.events)
             + (WindowEvents(name, rep.rows, extraction, ReportDate(family, cursor), config.vendor) + [StateMsg(next)])
    {
      rep := GetReport(cursor);
      if rep.Report? {
        var reportDate := ReportDate(family, cursor);
        WriteRecords(rep.rows, extraction, reportDate);
        UpdateBookmark(Step(DeltaOf(family), cursor));
        out.Write(StateMsg(state.bookmarks));
        Text.Associative(old(out.events), WindowEvents(name, rep.rows, extraction, reportDate, config.vendor), [StateMsg(state.bookmarks)]);
      }
    }

    /**
     * The loop's invariant: the whole walk `total` is what is done so far
     * (`emitted`, `written`, `fetched`, on top of the logs `events0`,
     * `writes0`, `requests0` found at the start) followed by the walk from
     * `cursor` with the current bookmarks.
     */
    ghost predicate Walking(total: Outcome, extraction: DateTime, cursor: DateTime,
                            events0: seq<Event>, writes0: seq<BookmarkWrite>, requests0: seq<Request>,
                            emitted: seq<Event>, written: seq<string>, fetched: seq<DateTime>)
      reads this, state, out, api
    {
      && total == After(emitted, written, fetched,
           Drive(name, family, config.vendor, extraction, Fetcher(api.respond, family, name, config.vendor),
                 Windows(DeltaOf(family), cursor, extraction), state.bookmarks))
      && out.events == events0 + emitted
      && state.writes == writes0 + StartDateWrites(name, written)
      && api.requests == requests0 + RequestsFor(family, name, config.vendor, fetched)
    }

    /** The logs and the bookmarks are those the whole walk `total` leaves. */
    ghost predicate Walked(total: Outcome, events0: seq<Event>, writes0: seq<BookmarkWrite>, requests0: seq<Request>)
      reads this, state, out, api
    {
      && out.events == events0 + total.events
      && state.bookmarks == total.bookmarks
      && state.writes == writes0 + StartDateWrites(name, total.writes)
      && api.requests == requests0 + RequestsFor(family, name, config.vendor, total.fetched)
    }

    /**
     * One turn of the loop of `query_report`: with a report the invariant
     * holds one window further on, without one the walk has ended.
     */
    method Advance(cursor: DateTime, extraction: DateTime, ghost total: Outcome,
                   ghost events0: seq<Event>, ghost writes0: seq<BookmarkWrite>, ghost requests0: seq<Request>,
                   ghost emitted: seq<Event>, ghost written: seq<string>, ghost fetched: seq<DateTime>)
      returns (rep: Fetched, ghost emitted': seq<Event>, ghost written': seq<string>, ghost fetched': seq<DateTime>)
      requires Walking(total, extraction, cursor, events0, writes0, requests0, emitted, written, fetched)
      requires Eligible(DeltaOf(family), cursor, extraction)
      modifies state, api, out
      ensures rep.Report? ==>
        Walking(total, extraction, Step(DeltaOf(family), cursor), events0, writes0, requests0, emitted', written', fetched')
      ensures !rep.Report? ==>
        Walked(total, events0, writes0, requests0) && total.failure == Some(if rep.Missing? then NoReport else JsonResponse)
    {
      var delta := DeltaOf(family);
      ghost var report := Fetcher(api.respond, family, name, config.vendor);
      ghost var before := state.bookmarks;
      rep := VisitWindow(cursor, extraction);
      RequestsForAppend(family, name, config.vendor, fetched, cursor);
      Text.Associative(requests0, RequestsFor(family, name, config.vendor, fetched),
        [Request(EndpointOf(family), RequestFields(family, name, config.vendor, cursor))]);
      if !rep.Report? {
        DriveFailStep(name, family, config.vendor, extraction, report, cursor, before);
        emitted', written', fetched' := emitted, written, fetched + [cursor];
        assert StartDateWrites(name, written + []) == StartDateWrites(name, written);
        return;
      }
      DriveReportStep(name, family, config.vendor, extraction, report, cursor, before);
      var value := FormatBookmark(Step(delta, cursor));
      ghost var step := WindowEvents(name, rep.rows, extraction, ReportDate(family, cursor), config.vendor) + [StateMsg(state.bookmarks)];
      AfterAfter(emitted, written, fetched, step, [value], [cursor],
        Drive(name, family, config.vendor, extraction, report, Windows(delta, Step(delta, cursor), extraction), state.bookmarks));
      StartDateWritesAppend(name, written, value);
      Text.Associative(writes0, StartDateWrites(name, written), [BookmarkWrite(name, "start_date", value)]);
      Text.Associative(events0, emitted, step);
      emitted', written', fetched' := emitted + step, written + [value], fetched + [cursor];
    }

    /**
     * The loop of `query_report` from window `cursor`, then the final state
     * message: what it writes, the bookmarks it leaves, the requests it
     * makes and how it ends are those of `Drive`.
     */
    method Walk(cursor: DateTime, extraction: DateTime) returns (failure: Option<Failure>)
      modifies state, api, out
      ensures var run := Drive(name, family, config.vendor, extraction, Fetcher(api.respond, family, name, config.vendor),
                               Windows(DeltaOf(family), cursor, extraction), old(state.bookmarks));
        && out.events == old(out.events) + run.events
        && state.bookmarks == run.bookmarks
        && state.writes == old(state.writes) + StartDateWrites(name, run.writes)
        && api.requests == old(api.requests) + RequestsFor(family, name, config.vendor, run.fetched)
        && failure == run.failure
    {
      var cursor := cursor;
      var delta := DeltaOf(family);
      ghost var total := Drive(name, family, config.vendor, extraction, Fetcher(api.respond, family, name, config.vendor),
                               Windows(delta, cursor, extraction), state.bookmarks);
      ghost var events0, writes0, requests0 := out.events, state.writes, api.requests;
      ghost var emitted: seq<Event>, written: seq<string>, fetched: seq<DateTime> := [], [], [];
      AfterNothing(total);
      assert StartDateWrites(name, written) == [];
      while NotAfter(Step(delta, cursor), extraction)
        invariant Walking(total, extraction, cursor, events0, writes0, requests0, emitted, written, fetched)
        decreases Instant(extraction) - Instant(cursor)
      {
        var rep;
        rep, emitted, written, fetched := Advance(cursor, extraction, total, events0, writes0, requests0, emitted, written, fetched);
        if !rep.Report? {
          return Some(if rep.Missing? then NoReport else JsonResponse);
        }
        cursor := Step(delta, cursor);
      }
      DriveDone(name, family, config.vendor, extraction, Fetcher(api.respond, family, name, config.vendor), cursor, state.bookmarks);
      assert written + [] == written && fetched + [] == fetched;
      out.Write(StateMsg(state.bookmarks));
      Text.Associative(events0, emitted, [StateMsg(state.bookmarks)]);
      assert Walked(total, events0, writes0, requests0);
      failure := None;
    }

    /**
     * `query_report`: everything it writes, the bookmarks it leaves, the
     * requests it makes and how it ends are those of `QueryReportSpec`.
     */
    method QueryReport(schema: Schema, extraction: DateTime) returns (failure: Option<Failure>)
      modifies state, api, out
      ensures var run := QueryReportSpec(name, family, config, extraction,
                                         Fetcher(api.respond, family, name, config.vendor), old(state.bookmarks));
        && out.events == old(out.events) + run.events
        && state.bookmarks == run.bookmarks
        && state.writes == old(state.writes) + StartDateWrites(name, run.writes)
        && api.requests == old(api.requests) + RequestsFor(family, name, config.vendor, run.fetched)
        && failure == run.failure
    {
      var loaded := GetBookmark();
      if loaded.Failure? {
        assert StartDateWrites(name, []) == [];
        return Some(loaded.error);
      }
      var start := loaded.value;
      UpdateBookmark(start);
      ghost var mid := state.writes;
      failure := Walk(start, extraction);
      ghost var run := Drive(name, family, config.vendor, extraction, Fetcher(api.respond, family, name, config.vendor),
                             Windows(DeltaOf(family), start, extraction),
                             SetBookmark(old(state.bookmarks), name, "start_date", FormatBookmark(start)));
      StartDateWritesCons(name, FormatBookmark(start), run.writes);
      Text.Associative(old(state.writes), [BookmarkWrite(name, "start_date", FormatBookmark(start))], StartDateWrites(name, run.writes));
    }
  }
}
