/**
 * The single-module revision of the connector (tap_appstore/__init__.py),
 * the one its console entry point runs: a fixed table of request fields for
 * four daily sales reports, a bookmark per stream in the shared state, a
 * daily walk from the bookmark (moved forward to at most 365 days before
 * the clock) that skips windows without a report, and the `Context` that
 * holds the catalog, the state and the per-stream record counts.
 */
module Tap {
  import opened Wrappers
  import opened Calendar
  import opened TimeFormat
  import opened Tsv
  import opened ReportWindows
  import opened Singer
  import opened Vendor
  import Streams
  import Text
  import ClassBased = Sync

  /** `API_REQUEST_FIELDS`: the four report kinds this revision knows. */
  function ApiTemplate(name: string): Option<Streams.Template> {
    if name == "subscription_event_report" then Some(Streams.Template("SUBSCRIPTION_EVENT", "DAILY", "SUMMARY", "1_2"))
    else if name == "subscriber_report" then Some(Streams.Template("SUBSCRIBER", "DAILY", "DETAILED", "1_3"))
    else if name == "subscription_report" then Some(Streams.Template("SUBSCRIPTION", "DAILY", "SUMMARY", "1_2"))
    else if name == "sales_report" then Some(Streams.Template("SALES", "DAILY", "SUMMARY", "1_0"))
    else None
  }

  /**
   * The two revisions' tables: every report kind of this one is a sales
   * stream of the class-based one with the same type, frequency and
   * sub-type; the versions agree except for the subscription event and
   * subscription reports, `1_2` here and `1_3` there.
   */
  lemma TemplateRevisions(name: string)
    ensures ApiTemplate(name).Some? ==> Streams.Registry(name) == Some(Streams.Sales)
    ensures ApiTemplate(name).Some? ==>
      var t, u := ApiTemplate(name).value, Streams.SalesTemplate(name).value;
      && t.reportType == u.reportType && t.frequency == u.frequency && t.reportSubType == u.reportSubType
      && (t.version == u.version <==> name != "subscription_event_report" && name != "subscription_report")
  {
  }

  /**
   * `get_api_request_fields`: the report date and the vendor number as
   * text, with the stream's fixed fields; a stream outside the table raises.
   */
  function RequestFields(name: string, vendor: Value, reportDate: string): (r: Result<Filters, Failure>)
    ensures r.Failure? <==> ApiTemplate(name).None?
    ensures r.Failure? ==> r.error == UnknownStream(name)
    ensures r.Success? ==>
      var t := ApiTemplate(name).value;
      && r.value.Keys == {"reportDate", "vendorNumber", "reportType", "frequency", "reportSubType", "version"}
      && r.value["reportDate"] == reportDate && r.value["vendorNumber"] == Show(vendor)
      && r.value["reportType"] == t.reportType && r.value["frequency"] == t.frequency
      && r.value["reportSubType"] == t.reportSubType && r.value["version"] == t.version
  {
    match ApiTemplate(name)
    case None => Failure(UnknownStream(name))
    case Some(t) => Success(map["reportDate" := reportDate, "vendorNumber" := Show(vendor)] + Streams.TemplateFields(t))
  }

  /**
   * Where the two tables agree, the two revisions ask for the same thing
   * for a daily window; where they do not, only the version differs.
   */
  lemma RequestFieldsRevisions(name: string, vendor: Value, d: DateTime)
    requires ApiTemplate(name).Some?
    ensures var mine, theirs := RequestFields(name, vendor, FormatDay(d)).value, Streams.RequestFields(Streams.Sales, name, vendor, d);
      && mine.Keys == theirs.Keys
      && (forall k :: k in mine && k != "version" ==> mine[k] == theirs[k])
      && (name != "subscription_event_report" && name != "subscription_report" ==> mine == theirs)
  {
    TemplateRevisions(name);
  }

  /**
   * `_attempt_download_report`: an APIError and a JSON reply both give
   * `None` (logged); a report is parsed with `tsv_to_list`.
   */
  function AttemptDownload(response: Response): (r: Option<seq<Row>>)
    ensures r.None? <==> response.ApiError? || response.reply.JsonReply?
    ensures r.Some? ==> r.value == Parse(response.reply.text)
  {
    match response
    case ApiError(_) => None
    case Replied(JsonReply(_)) => None
    case Replied(TsvReply(text)) => Some(Parse(text))
  }

  /**
   * The revisions read a reply the same way, but where this one gives
   * `None` the class-based one ends the run.
   */
  lemma DownloadRevisions(response: Response)
    ensures AttemptDownload(response).None? <==> !Streams.AttemptDownload(response).Report?
    ensures AttemptDownload(response).Some? ==>
      Streams.AttemptDownload(response) == Streams.Report(AttemptDownload(response).value)
  {
  }

  /** `get_bookmark`: the stream's stored `start_date`, else the configured one. */
  function BookmarkText(b: Bookmarks, name: string, config: Config): Option<string> {
    match GetBookmark(b, name, "start_date")
    case Some(v) => Some(v)
    case None => config.startDate
  }

  /**
   * The stored value wins over the configuration, and a value written for
   * a stream is what that stream reads back, whatever the others hold.
   */
  lemma BookmarkTextReadBack(b: Bookmarks, name: string, other: string, config: Config, v: string)
    ensures BookmarkText(SetBookmark(b, name, "start_date", v), name, config) == Some(v)
    ensures other != name ==> BookmarkText(SetBookmark(b, name, "start_date", v), other, config) == BookmarkText(b, other, config)
    ensures GetBookmark(b, name, "start_date").None? ==> BookmarkText(b, name, config) == config.startDate
  {
  }

  /**
   * `strptime_to_utc(get_bookmark(name))`, on texts in the bookmark form
   * `%Y-%m-%dT%H:%M:%SZ`: neither a stored nor a configured value fails.
   * Any other text fails here, although the source's date parser reads many
   * more forms (a bare date, an offset, fractional seconds).
   */
  function LoadStart(b: Bookmarks, name: string, config: Config): Result<DateTime, Failure> {
    match BookmarkText(b, name, config)
    case None => Failure(MissingStartDate(name))
    case Some(t) =>
      match ParseBookmark(t)
      case None => Failure(MalformedBookmark(t))
      case Some(d) => Success(d)
  }

  /**
   * On texts in the bookmark form, this revision loads a start as the
   * class-based one loads a daily stream's bookmark. The two differ on other
   * texts, which only this revision's date parser reads; the model reads
   * neither.
   */
  lemma LoadStartRevisions(b: Bookmarks, name: string, config: Config)
    ensures LoadStart(b, name, config) == Streams.LoadBookmark(Streams.Sales, b, name, config)
  {
  }

  /** The furthest back, in days, the walk starts from the clock reading. */
  const LOOK_BACK_DAYS: nat := 365

  lemma LookBackRoom(it: DateTime, now: DateTime)
    requires DaysBetween(it, now) >= LOOK_BACK_DAYS
    ensures LOOK_BACK_DAYS <= DayNumber(now)
    ensures Instant(it) <= Instant(now) - LOOK_BACK_DAYS * SecondsPerDay
  {
    DayNumberBounds(it);
    DayNumberBounds(now);
    var gap := Instant(now) - Instant(it);
    assert gap / SecondsPerDay >= LOOK_BACK_DAYS;
    assert gap >= LOOK_BACK_DAYS * SecondsPerDay;
    assert (DayNumber(now) - DayNumber(it)) * SecondsPerDay > (LOOK_BACK_DAYS - 1) * SecondsPerDay;
  }

  /**
   * The look-back cap: when the clock reading `now` is at least 365 whole
   * days after the iterator, the iterator moves to `now - 365 days`.
   */
  function LookBack(it: DateTime, now: DateTime): (r: DateTime)
    ensures Instant(it) <= Instant(r)
    ensures Instant(now) - LOOK_BACK_DAYS * SecondsPerDay <= Instant(r)
    ensures DaysBetween(it, now) < LOOK_BACK_DAYS ==> r == it
    ensures DaysBetween(it, now) >= LOOK_BACK_DAYS ==> Instant(r) == Instant(now) - LOOK_BACK_DAYS * SecondsPerDay
  {
    if DaysBetween(it, now) >= LOOK_BACK_DAYS then
      LookBackRoom(it, now);
      SubDays(now, LOOK_BACK_DAYS)
    else
      assert Instant(now) - Instant(it) < LOOK_BACK_DAYS * SecondsPerDay;
      it
  }
  /**
   * The days a look-back run visits. When the clock reading `now` equals
   * the extraction time, the walk covers the whole 365 days. When `now` is
   * read later, but less than a day later, the day before `now` is not
   * eligible and the walk covers 364 days.
   */
  lemma LookBackDays(start: DateTime, now: DateTime, extraction: DateTime)
    requires DaysBetween(start, now) >= LOOK_BACK_DAYS
    ensures Instant(now) == Instant(extraction) ==>
      |Windows(Day, LookBack(start, now), extraction)| == LOOK_BACK_DAYS
    ensures Instant(extraction) < Instant(now) < Instant(extraction) + SecondsPerDay ==>
      |Windows(Day, LookBack(start, now), extraction)| == LOOK_BACK_DAYS - 1
  {
    var it := LookBack(start, now);
    DailyWindowsCount(it, extraction);
    var gap := Instant(extraction) - Instant(it);
    assert gap == Instant(extraction) - Instant(now) + LOOK_BACK_DAYS * SecondsPerDay;
    if Instant(extraction) < Instant(now) < Instant(extraction) + SecondsPerDay {
      assert (LOOK_BACK_DAYS - 1) * SecondsPerDay < gap < LOOK_BACK_DAYS * SecondsPerDay;
      assert gap / SecondsPerDay == LOOK_BACK_DAYS - 1;
    }
  }


  /** A report line's columns with the synthetic fields written over them. */
  function DayRecord(line: Row, index: int, extraction: DateTime, reportDate: string): Record {
    Streams.LineValues(line)
      + map["_line_id" := Int(index), "_time_extracted" := Str(FormatTimeExtracted(extraction)),
            "_api_report_date" := Str(reportDate)]
  }

  /**
   * A record has the line's columns and the three synthetic fields, and
   * here the synthetic fields win over columns of the same name.
   */
  lemma DayRecordFields(line: Row, index: int, extraction: DateTime, reportDate: string)
    ensures var r := DayRecord(line, index, extraction, reportDate);
      && r.Keys == line.Keys + {"_line_id", "_time_extracted", "_api_report_date"}
      && r["_line_id"] == Int(index)
      && r["_time_extracted"] == Str(FormatTimeExtracted(extraction))
      && r["_api_report_date"] == Str(reportDate)
      && (forall k :: k in line && k !in {"_line_id", "_time_extracted", "_api_report_date"} ==> r[k] == Str(line[k]))
  {
  }

  /** The records of one day, one per line, numbered from 1 in line order. */
  function DayEvents(name: string, rows: seq<Row>, extraction: DateTime, reportDate: string): (r: seq<Event>)
    ensures |r| == |rows|
  {
    seq(|rows|, k requires 0 <= k < |rows| => RecordMsg(name, DayRecord(rows[k], k + 1, extraction, reportDate), extraction))
  }

  /** A day with n lines adds n records. */
  lemma DayEventsCount(name: string, rows: seq<Row>, extraction: DateTime, reportDate: string)
    ensures RecordCount(DayEvents(name, rows, extraction, reportDate)) == |rows|
  {
    AllRecords(DayEvents(name, rows, extraction, reportDate));
  }

  /** What the request for one day comes to: the unknown-stream exception, a report, or `None`. */
  function DayFetch(respond: (Endpoint, Filters) -> Response, name: string, vendor: Value, d: DateTime): Result<Option<seq<Row>>, Failure> {
    match RequestFields(name, vendor, FormatDay(d))
    case Failure(e) => Failure(e)
    case Success(fields) => Success(AttemptDownload(respond(SalesAndTrends, fields)))
  }

  function DayFetcher(respond: (Endpoint, Filters) -> Response, name: string, vendor: Value): DateTime -> Result<Option<seq<Row>>, Failure> {
    (d: DateTime) => DayFetch(respond, name, vendor, d)
  }

  /** The fields sent for day `d` (the stream is one the table knows whenever a request is made). */
  function DayFilters(name: string, vendor: Value, d: DateTime): Filters {
    match RequestFields(name, vendor, FormatDay(d))
    case Success(fields) => fields
    case Failure(_) => map[]
  }

  /** The requests made for the days `ws`, in order. */
  function DayRequests(name: string, vendor: Value, ws: seq<DateTime>): seq<Request> {
    seq(|ws|, k requires 0 <= k < |ws| => Request(SalesAndTrends, DayFilters(name, vendor, ws[k])))
  }

  lemma DayRequestsAppend(name: string, vendor: Value, ws: seq<DateTime>, w: DateTime)
    ensures DayRequests(name, vendor, ws + [w]) == DayRequests(name, vendor, ws) + [Request(SalesAndTrends, DayFilters(name, vendor, w))]
  {
    var r := DayRequests(name, vendor, ws + [w]);
    assert forall k :: 0 <= k < |ws| ==> r[k] == DayRequests(name, vendor, ws)[k];
  }

  /**
   * The loop of `query_report` over the days `ws` from bookmarks `b`: a
   * day without a report is skipped with nothing written; a day with one
   * gives its records, the bookmark `day + 1 day` and a state message; the
   * exception of the request fields ends the run; a final state message
   * closes a run that went through.
   */
  function DriveDays(name: string, extraction: DateTime, report: DateTime -> Result<Option<seq<Row>>, Failure>,
                     ws: seq<DateTime>, b: Bookmarks): Outcome
    decreases |ws|
  {
    if ws == [] then Outcome([StateMsg(b)], b, [], [], None)
    else
      var w := ws[0];
      match report(w)
      case Failure(e) => Outcome([], b, [], [], Some(e))
      case Success(None) => Streams.After([], [], [w], DriveDays(name, extraction, report, ws[1..], b))
      case Success(Some(rows)) =>
        var value := FormatBookmark(AddDay(w));
        var next := SetBookmark(b, name, "start_date", value);
        Streams.After(DayEvents(name, rows, extraction, FormatDay(w)) + [StateMsg(next)], [value], [w],
                      DriveDays(name, extraction, report, ws[1..], next))
  }

  /**
   * `query_report`: load the start, write it as the bookmark, apply the
   * look-back to the clock reading `now`, then walk the days up to the
   * extraction time.
   */
  function QueryDaysSpec(name: string, config: Config, extraction: DateTime, now: DateTime,
                         report: DateTime -> Result<Option<seq<Row>>, Failure>, b: Bookmarks): Outcome
  {
    match LoadStart(b, name, config)
    case Failure(e) => Outcome([], b, [], [], Some(e))
    case Success(start) =>
      var first := FormatBookmark(start);
      var run := DriveDays(name, extraction, report, Windows(Day, LookBack(start, now), extraction),
                           SetBookmark(b, name, "start_date", first));
      run.(writes := [first] + run.writes)
  }

  /** A day for which the request went through and a report came back. */
  predicate Reported(report: DateTime -> Result<Option<seq<Row>>, Failure>, w: DateTime) {
    report(w).Success? && report(w).value.Some?
  }

  /** The bookmark values the days `ws` write: one per day with a report, its end. */
  function ReportedWrites(report: DateTime -> Result<Option<seq<Row>>, Failure>, ws: seq<DateTime>): seq<string>
    decreases |ws|
  {
    if ws == [] then []
    else (if Reported(report, ws[0]) then [FormatBookmark(AddDay(ws[0]))] else []) + ReportedWrites(report, ws[1..])
  }

  /** The lines of the reports of the days `ws`. */
  function DayRows(report: DateTime -> Result<Option<seq<Row>>, Failure>, ws: seq<DateTime>): nat
    decreases |ws|
  {
    if ws == [] then 0
    else (if Reported(report, ws[0]) then |report(ws[0]).value.value| else 0) + DayRows(report, ws[1..])
  }

  /** The number of state messages among the events. */
  function StateCount(events: seq<Event>): nat {
    if events == [] then 0
    else StateCount(events[..|events| - 1]) + (if events[|events| - 1].StateMsg? then 1 else 0)
  }

  lemma {:induction false} StateCountAppend(a: seq<Event>, b: seq<Event>)
    ensures StateCount(a + b) == StateCount(a) + StateCount(b)
    decreases |b|
  {
    if b == [] {
      assert a + b == a;
    } else {
      StateCountAppend(a, b[..|b| - 1]);
      assert (a + b)[..|a + b| - 1] == a + b[..|b| - 1];
    }
  }

  lemma {:induction false} NoStates(events: seq<Event>)
    requires forall k :: 0 <= k < |events| ==> events[k].RecordMsg?
    ensures StateCount(events) == 0
    decreases |events|
  {
    if events != [] {
      NoStates(events[..|events| - 1]);
    }
  }

  /**
   * The days requested are the first days of `ws`, all of them unless the
   * run failed, and then it failed with the exception of the next day's
   * request fields.
   */
  ghost predicate DaysPrefix(report: DateTime -> Result<Option<seq<Row>>, Failure>, ws: seq<DateTime>, r: Outcome) {
    && |r.fetched| <= |ws| && r.fetched == ws[..|r.fetched|]
    && (forall k :: 0 <= k < |r.fetched| ==> report(r.fetched[k]).Success?)
    && (r.failure.None? ==> r.fetched == ws)
    && (r.failure.Some? ==> |r.fetched| < |ws| && report(ws[|r.fetched|]) == Failure(r.failure.value))
  }

  /**
   * One bookmark write and one state message per day with a report, none
   * for a skipped day, then the closing state message of a run that went
   * through, which holds the final bookmarks; one record per report line.
   */
  ghost predicate DaysCounts(report: DateTime -> Result<Option<seq<Row>>, Failure>, r: Outcome) {
    && r.writes == ReportedWrites(report, r.fetched)
    && StateCount(r.events) == |r.writes| + (if r.failure.None? then 1 else 0)
    && RecordCount(r.events) == DayRows(report, r.fetched)
    && (r.failure.None? ==> |r.events| > 0 && r.events[|r.events| - 1] == StateMsg(r.bookmarks))
  }

  ghost predicate DaysTrail(name: string, report: DateTime -> Result<Option<seq<Row>>, Failure>,
                            ws: seq<DateTime>, b: Bookmarks, r: Outcome) {
    DaysPrefix(report, ws, r) && DaysCounts(report, r) && Streams.TrailBookmarks(name, b, r)
  }

  /** A skipped day, as `DriveDays` takes it. */
  lemma DaysSkipStep(name: string, extraction: DateTime, report: DateTime -> Result<Option<seq<Row>>, Failure>,
                     ws: seq<DateTime>, b: Bookmarks)
    requires ws != [] && report(ws[0]) == Success(None)
    ensures DriveDays(name, extraction, report, ws, b) == Streams.After([], [], [ws[0]], DriveDays(name, extraction, report, ws[1..], b))
  {
  }

  /** A day with a report, as `DriveDays` takes it. */
  lemma DaysReportStep(name: string, extraction: DateTime, report: DateTime -> Result<Option<seq<Row>>, Failure>,
                       ws: seq<DateTime>, b: Bookmarks)
    requires ws != [] && Reported(report, ws[0])
    ensures var next := SetBookmark(b, name, "start_date", FormatBookmark(AddDay(ws[0])));
      DriveDays(name, extraction, report, ws, b)
      == Streams.After(DayEvents(name, report(ws[0]).value.value, extraction, FormatDay(ws[0])) + [StateMsg(next)],
                       [FormatBookmark(AddDay(ws[0]))], [ws[0]], DriveDays(name, extraction, report, ws[1..], next))
  {
  }

  lemma DaysPrefixCons(report: DateTime -> Result<Option<seq<Row>>, Failure>, ws: seq<DateTime>, r: Outcome, rest: Outcome)
    requires ws != [] && report(ws[0]).Success?
    requires r.fetched == [ws[0]] + rest.fetched && r.failure == rest.failure
    requires DaysPrefix(report, ws[1..], rest)
    ensures DaysPrefix(report, ws, r)
  {
    Streams.PrefixCons(ws, rest.fetched);
    assert forall k :: 1 <= k < |r.fetched| ==> r.fetched[k] == rest.fetched[k - 1];
    if rest.failure.None? {
      assert [ws[0]] + ws[1..] == ws;
    } else {
      assert ws[|r.fetched|] == ws[1..][|rest.fetched|];
    }
  }

  lemma DaysCountsCons(report: DateTime -> Result<Option<seq<Row>>, Failure>, w: DateTime,
                       step: seq<Event>, written: seq<string>, rest: Outcome)
    requires report(w).Success?
    requires Reported(report, w) ==>
      written == [FormatBookmark(AddDay(w))] && RecordCount(step) == |report(w).value.value| && StateCount(step) == 1
    requires !Reported(report, w) ==> written == [] && step == []
    requires DaysCounts(report, rest)
    ensures DaysCounts(report, Streams.After(step, written, [w], rest))
  {
    var r := Streams.After(step, written, [w], rest);
    CountsWrites(report, w, written, rest.fetched, rest.writes);
    CountsStates(step, written, rest.events, rest.writes, if rest.failure.None? then 1 else 0);
    CountsRecords(report, w, step, rest.events, rest.fetched);
    if rest.failure.None? {
      CountsLast(step, rest.events, StateMsg(rest.bookmarks));
    }
  }

  lemma CountsWrites(report: DateTime -> Result<Option<seq<Row>>, Failure>, w: DateTime,
                     written: seq<string>, fetched: seq<DateTime>, writes: seq<string>)
    requires Reported(report, w) ==> written == [FormatBookmark(AddDay(w))]
    requires !Reported(report, w) ==> written == []
    requires writes == ReportedWrites(report, fetched)
    ensures written + writes == ReportedWrites(report, [w] + fetched)
  {
    assert ([w] + fetched)[1..] == fetched;
  }

  lemma CountsStates(step: seq<Event>, written: seq<string>, events: seq<Event>, writes: seq<string>, c: nat)
    requires StateCount(step) == |written|
    requires StateCount(events) == |writes| + c
    ensures StateCount(step + events) == |written + writes| + c
  {
    StateCountAppend(step, events);
  }

  lemma CountsRecords(report: DateTime -> Result<Option<seq<Row>>, Failure>, w: DateTime,
                      step: seq<Event>, events: seq<Event>, fetched: seq<DateTime>)
    requires report(w).Success?
    requires RecordCount(step) == (if Reported(report, w) then |report(w).value.value| else 0)
    requires RecordCount(events) == DayRows(report, fetched)
    ensures RecordCount(step + events) == DayRows(report, [w] + fetched)
  {
    RecordCountAppend(step, events);
    assert ([w] + fetched)[1..] == fetched;
  }

  lemma CountsLast(step: seq<Event>, events: seq<Event>, last: Event)
    requires |events| > 0 && events[|events| - 1] == last
    ensures |step + events| > 0 && (step + events)[|step + events| - 1] == last
  {
  }

  lemma DaysBookmarksSkip(name: string, b: Bookmarks, w: DateTime, rest: Outcome)
    requires Streams.TrailBookmarks(name, b, rest)
    ensures Streams.TrailBookmarks(name, b, Streams.After([], [], [w], rest))
  {
    assert [] + rest.writes == rest.writes;
  }

  /** What `DriveDays` does, as `DaysTrail` says. */
  lemma {:induction false} DriveDaysTrail(name: string, extraction: DateTime, report: DateTime -> Result<Option<seq<Row>>, Failure>,
                                          ws: seq<DateTime>, b: Bookmarks)
    ensures DaysTrail(name, report, ws, b, DriveDays(name, extraction, report, ws, b))
    decreases |ws|
  {
    if ws == [] {
      DaysTrailEmpty(name, extraction, report, b);
    } else if report(ws[0]).Failure? {
      DaysTrailFail(name, extraction, report, ws, b);
    } else if !Reported(report, ws[0]) {
      DaysSkipStep(name, extraction, report, ws, b);
      DriveDaysTrail(name, extraction, report, ws[1..], b);
      DaysTrailSkip(name, report, ws, b, DriveDays(name, extraction, report, ws[1..], b));
    } else {
      var w := ws[0];
      var next := SetBookmark(b, name, "start_date", FormatBookmark(AddDay(w)));
      DaysReportStep(name, extraction, report, ws, b);
      DriveDaysTrail(name, extraction, report, ws[1..], next);
      DaysTrailReport(name, report, ws, b, extraction,
                      DayEvents(name, report(w).value.value, extraction, FormatDay(w)) + [StateMsg(next)],
                      DriveDays(name, extraction, report, ws[1..], next));
    }
  }

  lemma DaysTrailEmpty(name: string, extraction: DateTime, report: DateTime -> Result<Option<seq<Row>>, Failure>, b: Bookmarks)
    ensures DaysTrail(name, report, [], b, DriveDays(name, extraction, report, [], b))
  {
    assert [StateMsg(b)] == [] + [StateMsg(b)];
    assert StateCount([StateMsg(b)]) == 1;
  }

  lemma DaysTrailFail(name: string, extraction: DateTime, report: DateTime -> Result<Option<seq<Row>>, Failure>,
                      ws: seq<DateTime>, b: Bookmarks)
    requires ws != [] && report(ws[0]).Failure?
    ensures DaysTrail(name, report, ws, b, DriveDays(name, extraction, report, ws, b))
  {
  }

  lemma DaysTrailSkip(name: string, report: DateTime -> Result<Option<seq<Row>>, Failure>,
                      ws: seq<DateTime>, b: Bookmarks, rest: Outcome)
    requires ws != [] && report(ws[0]) == Success(None)
    requires DaysTrail(name, report, ws[1..], b, rest)
    ensures DaysTrail(name, report, ws, b, Streams.After([], [], [ws[0]], rest))
  {
    DaysPrefixCons(report, ws, Streams.After([], [], [ws[0]], rest), rest);
    DaysCountsCons(report, ws[0], [], [], rest);
    DaysBookmarksSkip(name, b, ws[0], rest);
  }

  lemma DaysTrailReport(name: string, report: DateTime -> Result<Option<seq<Row>>, Failure>,
                        ws: seq<DateTime>, b: Bookmarks, extraction: DateTime, step: seq<Event>, rest: Outcome)
    requires ws != [] && Reported(report, ws[0])
    requires step == DayEvents(name, report(ws[0]).value.value, extraction, FormatDay(ws[0]))
                     + [StateMsg(SetBookmark(b, name, "start_date", FormatBookmark(AddDay(ws[0]))))]
    requires DaysTrail(name, report, ws[1..], SetBookmark(b, name, "start_date", FormatBookmark(AddDay(ws[0]))), rest)
    ensures DaysTrail(name, report, ws, b, Streams.After(step, [FormatBookmark(AddDay(ws[0]))], [ws[0]], rest))
  {
    var w := ws[0];
    var value := FormatBookmark(AddDay(w));
    var r := Streams.After(step, [value], [w], rest);
    DaysPrefixCons(report, ws, r, rest);
    DayStep(name, report(w).value.value, extraction, FormatDay(w), SetBookmark(b, name, "start_date", value));
    DaysCountsCons(report, w, step, [value], rest);
    Streams.TrailBookmarksCons(name, b, value, r, rest);
  }

  /** The records and state message one day with a report writes. */
  lemma DayStep(name: string, rows: seq<Row>, extraction: DateTime, reportDate: string, next: Bookmarks)
    ensures var step := DayEvents(name, rows, extraction, reportDate) + [StateMsg(next)];
      RecordCount(step) == |rows| && StateCount(step) == 1
  {
    var records := DayEvents(name, rows, extraction, reportDate);
    DayEventsCount(name, rows, extraction, reportDate);
    NoStates(records);
    RecordCountAppend(records, [StateMsg(next)]);
    StateCountAppend(records, [StateMsg(next)]);
    assert [StateMsg(next)][..0] == [];
  }

  /** A stream the table knows never fails in the loop: every day is requested. */
  lemma KnownStreamWalks(name: string, extraction: DateTime, respond: (Endpoint, Filters) -> Response, vendor: Value,
                         ws: seq<DateTime>, b: Bookmarks)
    requires ApiTemplate(name).Some?
    ensures DriveDays(name, extraction, DayFetcher(respond, name, vendor), ws, b).failure.None?
    ensures DriveDays(name, extraction, DayFetcher(respond, name, vendor), ws, b).fetched == ws
  {
    DriveDaysTrail(name, extraction, DayFetcher(respond, name, vendor), ws, b);
  }

  /**
   * A stream outside the table raises at the first day, before any request
   * and with nothing written; with no day to walk it goes through.
   */
  lemma UnknownStreamStops(name: string, extraction: DateTime, respond: (Endpoint, Filters) -> Response, vendor: Value,
                           ws: seq<DateTime>, b: Bookmarks)
    requires ApiTemplate(name).None?
    ensures DriveDays(name, extraction, DayFetcher(respond, name, vendor), ws, b)
      == if ws == [] then Outcome([StateMsg(b)], b, [], [], None) else Outcome([], b, [], [], Some(UnknownStream(name)))
  {
  }

  /** The messages of one stream's walk are its own records and state messages. */
  lemma {:induction false} DriveDaysOwn(name: string, extraction: DateTime, report: DateTime -> Result<Option<seq<Row>>, Failure>,
                                        ws: seq<DateTime>, b: Bookmarks)
    ensures Streams.OwnEvents(name, DriveDays(name, extraction, report, ws, b).events)
    decreases |ws|
  {
    if ws != [] && report(ws[0]).Success? {
      if report(ws[0]).value.None? {
        DaysSkipStep(name, extraction, report, ws, b);
        DriveDaysOwn(name, extraction, report, ws[1..], b);
        assert [] + DriveDays(name, extraction, report, ws[1..], b).events == DriveDays(name, extraction, report, ws[1..], b).events;
      } else {
        var w := ws[0];
        var next := SetBookmark(b, name, "start_date", FormatBookmark(AddDay(w)));
        DaysReportStep(name, extraction, report, ws, b);
        DriveDaysOwn(name, extraction, report, ws[1..], next);
        DayOwn(name, report(w).value.value, extraction, FormatDay(w), next, DriveDays(name, extraction, report, ws[1..], next).events);
      }
    }
  }

  lemma DayOwn(name: string, rows: seq<Row>, extraction: DateTime, reportDate: string, next: Bookmarks, rest: seq<Event>)
    requires Streams.OwnEvents(name, rest)
    ensures Streams.OwnEvents(name, DayEvents(name, rows, extraction, reportDate) + [StateMsg(next)] + rest)
  {
    var records := DayEvents(name, rows, extraction, reportDate);
    Streams.OwnAppend(name, records, [StateMsg(next)]);
    Streams.OwnAppend(name, records + [StateMsg(next)], rest);
  }

  /**
   * `query_report` from a start it could load: the start is the first
   * bookmark written, then one per day with a report; a stream the table
   * knows requests every day from the look-back start up to the
   * extraction time; one that it does not know requests nothing and fails
   * as soon as there is a day to walk; one state message per day with a
   * report and a closing one; one record per report line; the bookmarks
   * left hold the last value written.
   */
  lemma QueryDaysTrail(name: string, config: Config, extraction: DateTime, now: DateTime,
                       respond: (Endpoint, Filters) -> Response, b: Bookmarks)
    requires LoadStart(b, name, config).Success?
    ensures var start := LoadStart(b, name, config).value;
      var report := DayFetcher(respond, name, config.vendor);
      var r := QueryDaysSpec(name, config, extraction, now, report, b);
      && |r.writes| > 0 && r.writes[0] == FormatBookmark(start)
      && r.writes[1..] == ReportedWrites(report, r.fetched)
      && (ApiTemplate(name).Some? ==> r.failure.None? && r.fetched == Windows(Day, LookBack(start, now), extraction))
      && (ApiTemplate(name).None? ==>
            r.fetched == [] && (r.failure.None? <==> Windows(Day, LookBack(start, now), extraction) == []))
      && StateCount(r.events) == |r.writes| - 1 + (if r.failure.None? then 1 else 0)
      && RecordCount(r.events) == DayRows(report, r.fetched)
      && r.bookmarks == SetBookmark(b, name, "start_date", r.writes[|r.writes| - 1])
  {
    var start := LoadStart(b, name, config).value;
    var report := DayFetcher(respond, name, config.vendor);
    var ws := Windows(Day, LookBack(start, now), extraction);
    var first := FormatBookmark(start);
    var b1 := SetBookmark(b, name, "start_date", first);
    var run := DriveDays(name, extraction, report, ws, b1);
    QueryDaysOpen(name, config, extraction, now, report, b);
    DriveDaysTrail(name, extraction, report, ws, b1);
    TrailWithStart(name, report, ws, b, first, run, QueryDaysSpec(name, config, extraction, now, report, b));
    if ApiTemplate(name).None? {
      UnknownStreamStops(name, extraction, respond, config.vendor, ws, b1);
    } else {
      KnownStreamWalks(name, extraction, respond, config.vendor, ws, b1);
    }
  }

  /** The walk of the days after the start bookmark is written in front of it. */
  lemma TrailWithStart(name: string, report: DateTime -> Result<Option<seq<Row>>, Failure>, ws: seq<DateTime>,
                       b: Bookmarks, first: string, run: Outcome, r: Outcome)
    requires DaysTrail(name, report, ws, SetBookmark(b, name, "start_date", first), run)
    requires r == run.(writes := [first] + run.writes)
    ensures |r.writes| > 0 && r.writes[0] == first
    ensures r.writes[1..] == ReportedWrites(report, r.fetched)
    ensures StateCount(r.events) == |r.writes| - 1 + (if r.failure.None? then 1 else 0)
    ensures RecordCount(r.events) == DayRows(report, r.fetched)
    ensures r.bookmarks == SetBookmark(b, name, "start_date", r.writes[|r.writes| - 1])
  {
    assert r.writes[1..] == run.writes;
    if run.writes != [] {
      Streams.SetBookmarkTwice(b, name, "start_date", first, run.writes[|run.writes| - 1]);
      assert r.writes[|r.writes| - 1] == run.writes[|run.writes| - 1];
    }
  }

  /**
   * The days `query_report` requests: each one day after the previous from
   * the start moved by the look-back, none before the loaded start nor
   * more than 365 days before the clock reading, and each ends no later
   * than the extraction time.
   */
  lemma QueryDaysWindows(name: string, config: Config, extraction: DateTime, now: DateTime,
                         respond: (Endpoint, Filters) -> Response, b: Bookmarks, k: nat)
    requires LoadStart(b, name, config).Success?
    requires k < |QueryDaysSpec(name, config, extraction, now, DayFetcher(respond, name, config.vendor), b).fetched|
    ensures var start := LoadStart(b, name, config).value;
      var w := QueryDaysSpec(name, config, extraction, now, DayFetcher(respond, name, config.vendor), b).fetched[k];
      && Instant(w) == Instant(LookBack(start, now)) + k * SecondsPerDay
      && Instant(start) <= Instant(w)
      && Instant(now) - LOOK_BACK_DAYS * SecondsPerDay <= Instant(w)
      && NotAfter(AddDay(w), extraction)
  {
    var start := LoadStart(b, name, config).value;
    var it := LookBack(start, now);
    QueryDaysTrail(name, config, extraction, now, respond, b);
    var ws := Windows(Day, it, extraction);
    DailyWindowsInstants(it, extraction);
    WindowsChain(Day, it, extraction);
    assert k < |ws|;
  }

  /** A run with no day to walk writes the start bookmark and one state message, and requests nothing. */
  lemma NoEligibleDay(name: string, config: Config, extraction: DateTime, now: DateTime,
                      report: DateTime -> Result<Option<seq<Row>>, Failure>, b: Bookmarks)
    requires LoadStart(b, name, config).Success?
    requires !NotAfter(AddDay(LookBack(LoadStart(b, name, config).value, now)), extraction)
    ensures var start := LoadStart(b, name, config).value;
      var b1 := SetBookmark(b, name, "start_date", FormatBookmark(start));
      QueryDaysSpec(name, config, extraction, now, report, b) == Outcome([StateMsg(b1)], b1, [FormatBookmark(start)], [], None)
  {
  }

  /**
   * What `query_report` writes is its own stream's records and state
   * messages, and the failures it can end with are a missing or malformed
   * start and a stream outside the table.
   */
  lemma QueryDaysOwn(name: string, config: Config, extraction: DateTime, now: DateTime,
                     respond: (Endpoint, Filters) -> Response, b: Bookmarks)
    ensures var r := QueryDaysSpec(name, config, extraction, now, DayFetcher(respond, name, config.vendor), b);
      && Streams.OwnEvents(name, r.events)
      && (r.failure.Some? ==>
            r.failure.value in {MissingStartDate(name), UnknownStream(name)} || r.failure.value.MalformedBookmark?)
  {
    var report := DayFetcher(respond, name, config.vendor);
    if LoadStart(b, name, config).Success? {
      var start := LoadStart(b, name, config).value;
      var ws := Windows(Day, LookBack(start, now), extraction);
      var b1 := SetBookmark(b, name, "start_date", FormatBookmark(start));
      QueryDaysOpen(name, config, extraction, now, report, b);
      DriveDaysOwn(name, extraction, report, ws, b1);
      DaysFailure(name, extraction, respond, config.vendor, ws, b1);
    }
  }

  /** `query_report` from a start it could load is the walk of the days from the look-back start. */
  lemma QueryDaysOpen(name: string, config: Config, extraction: DateTime, now: DateTime,
                      report: DateTime -> Result<Option<seq<Row>>, Failure>, b: Bookmarks)
    requires LoadStart(b, name, config).Success?
    ensures var start := LoadStart(b, name, config).value;
      var run := DriveDays(name, extraction, report, Windows(Day, LookBack(start, now), extraction),
                           SetBookmark(b, name, "start_date", FormatBookmark(start)));
      QueryDaysSpec(name, config, extraction, now, report, b) == run.(writes := [FormatBookmark(start)] + run.writes)
  {
  }

  /** The only failure of the walk of the days is a stream outside the table. */
  lemma DaysFailure(name: string, extraction: DateTime, respond: (Endpoint, Filters) -> Response, vendor: Value,
                    ws: seq<DateTime>, b: Bookmarks)
    ensures var r := DriveDays(name, extraction, DayFetcher(respond, name, vendor), ws, b);
      r.failure.Some? ==> ApiTemplate(name).None? && r.failure.value == UnknownStream(name)
  {
    if ApiTemplate(name).None? {
      UnknownStreamStops(name, extraction, respond, vendor, ws, b);
    } else {
      KnownStreamWalks(name, extraction, respond, vendor, ws, b);
    }
  }

  /** `{s["tap_stream_id"]: s for s in streams}`: a later entry with the same name wins. */
  function StreamMap(catalog: seq<CatalogEntry>): map<string, CatalogEntry>
    decreases |catalog|
  {
    if catalog == [] then map[]
    else StreamMap(catalog[..|catalog| - 1])[catalog[|catalog| - 1].tapStreamId := catalog[|catalog| - 1]]
  }

  /** A name is in the map exactly when some catalog entry has it. */
  lemma {:induction false} StreamMapDomain(catalog: seq<CatalogEntry>, name: string)
    ensures name in StreamMap(catalog) <==> exists i :: 0 <= i < |catalog| && catalog[i].tapStreamId == name
    decreases |catalog|
  {
    if catalog != [] {
      var n := |catalog| - 1;
      StreamMapDomain(catalog[..n], name);
      assert forall i :: 0 <= i < n ==> catalog[..n][i] == catalog[i];
    }
  }

  /** A name maps to the last catalog entry that has it. */
  lemma {:induction false} StreamMapLast(catalog: seq<CatalogEntry>, i: nat)
    requires i < |catalog|
    requires forall j :: i < j < |catalog| ==> catalog[j].tapStreamId != catalog[i].tapStreamId
    ensures catalog[i].tapStreamId in StreamMap(catalog) && StreamMap(catalog)[catalog[i].tapStreamId] == catalog[i]
    decreases |catalog|
  {
    var n := |catalog| - 1;
    if i < n {
      StreamMapLast(catalog[..n], i);
    }
  }

  /** The stream-level metadata of `metadata.to_map`: that of the last entry with the empty breadcrumb. */
  function StreamLevel(md: seq<MetadataEntry>): Option<map<string, Meta>>
    decreases |md|
  {
    if md == [] then None
    else if md[|md| - 1].breadcrumb == [] then Some(md[|md| - 1].metadata)
    else StreamLevel(md[..|md| - 1])
  }

  /** The last stream-level entry gives the stream-level metadata. */
  lemma {:induction false} StreamLevelLast(md: seq<MetadataEntry>, k: nat)
    requires k < |md| && md[k].breadcrumb == []
    requires forall j :: k < j < |md| ==> md[j].breadcrumb != []
    ensures StreamLevel(md) == Some(md[k].metadata)
    decreases |md|
  {
    var n := |md| - 1;
    if k < n {
      StreamLevelLast(md[..n], k);
    }
  }

  /** Without a stream-level entry there is no stream-level metadata. */
  lemma {:induction false} StreamLevelNone(md: seq<MetadataEntry>)
    requires forall j :: 0 <= j < |md| ==> md[j].breadcrumb != []
    ensures StreamLevel(md) == None
    decreases |md|
  {
    if md != [] {
      StreamLevelNone(md[..|md| - 1]);
    }
  }

  /** The `selected` value of the stream-level metadata of `md`, `None` when absent. */
  function LevelFlag(md: seq<MetadataEntry>): Meta {
    match StreamLevel(md)
    case None => MNull
    case Some(m) => if "selected" in m then m["selected"] else MNull
  }

  /**
   * `Context.is_selected`: `False` for a name the catalog lacks; otherwise
   * the `selected` value of the stream-level metadata, `None` when absent.
   */
  function SelectedFlag(catalog: seq<CatalogEntry>, name: string): Meta {
    if name !in StreamMap(catalog) then MBool(false) else LevelFlag(StreamMap(catalog)[name].metadata)
  }

  /** At most one entry of `md` is stream-level. */
  predicate OneStreamLevel(md: seq<MetadataEntry>) {
    forall j1, j2 :: 0 <= j1 < j2 < |md| ==> md[j1].breadcrumb != [] || md[j2].breadcrumb != []
  }

  /**
   * With at most one stream-level entry, its `selected` value is truthy
   * exactly when some entry qualifies.
   */
  lemma LevelFlagMarked(s: CatalogEntry)
    requires OneStreamLevel(s.metadata)
    ensures Truthy(LevelFlag(s.metadata)) <==> ClassBased.Marked(s)
  {
    var md := s.metadata;
    if k :| 0 <= k < |md| && md[k].breadcrumb == [] {
      StreamLevelLast(md, k);
      assert forall j :: 0 <= j < |md| && ClassBased.Qualifies(md[j]) ==> j == k;
      if Truthy(LevelFlag(md)) {
        assert ClassBased.Qualifies(md[k]);
      }
    } else {
      StreamLevelNone(md);
    }
  }

  /**
   * For a stream whose name is its own in the catalog and which has at most
   * one stream-level entry, the two revisions select it alike.
   */
  lemma SelectionRevisions(catalog: seq<CatalogEntry>, i: nat)
    requires i < |catalog|
    requires forall j :: 0 <= j < |catalog| && j != i ==> catalog[j].tapStreamId != catalog[i].tapStreamId
    requires OneStreamLevel(catalog[i].metadata)
    ensures Truthy(SelectedFlag(catalog, catalog[i].tapStreamId)) <==> catalog[i] in ClassBased.Selected(catalog)
  {
    StreamMapLast(catalog, i);
    ClassBased.SelectedMembers(catalog, catalog[i]);
    LevelFlagMarked(catalog[i]);
  }

  /**
   * Where they differ: a stream whose first stream-level entry selects it
   * and whose second deselects it is selected by `get_selected_streams` but
   * not by `is_selected`.
   */
  lemma SelectionRevisionsDiffer(name: string, schema: Schema, keys: seq<string>)
    ensures var s := CatalogEntry(name, schema, keys,
                                  [MetadataEntry([], map["selected" := MBool(true)]), MetadataEntry([], map["selected" := MBool(false)])]);
      s in ClassBased.Selected([s]) && !Truthy(SelectedFlag([s], name))
  {
    var s := CatalogEntry(name, schema, keys,
                          [MetadataEntry([], map["selected" := MBool(true)]), MetadataEntry([], map["selected" := MBool(false)])]);
    ClassBased.SelectedMembers([s], s);
    assert ClassBased.Qualifies(s.metadata[0]);
    StreamMapLast([s], 0);
    StreamLevelLast(s.metadata, 1);
  }

  /** The walk from an eligible day `w` that has a report. */
  lemma DaysWindowReport(name: string, extraction: DateTime, report: DateTime -> Result<Option<seq<Row>>, Failure>,
                         w: DateTime, b: Bookmarks)
    requires Eligible(Day, w, extraction) && Reported(report, w)
    ensures var value := FormatBookmark(AddDay(w));
      var next := SetBookmark(b, name, "start_date", value);
      DriveDays(name, extraction, report, Windows(Day, w, extraction), b)
      == Streams.After(DayEvents(name, report(w).value.value, extraction, FormatDay(w)) + [StateMsg(next)], [value], [w],
                       DriveDays(name, extraction, report, Windows(Day, AddDay(w), extraction), next))
  {
    var ws := Windows(Day, w, extraction);
    assert ws[0] == w && ws[1..] == Windows(Day, AddDay(w), extraction);
    DaysReportStep(name, extraction, report, ws, b);
  }

  /** The walk from an eligible day `w` whose download gave nothing. */
  lemma DaysWindowSkip(name: string, extraction: DateTime, report: DateTime -> Result<Option<seq<Row>>, Failure>,
                       w: DateTime, b: Bookmarks)
    requires Eligible(Day, w, extraction) && report(w) == Success(None)
    ensures DriveDays(name, extraction, report, Windows(Day, w, extraction), b)
      == Streams.After([], [], [w], DriveDays(name, extraction, report, Windows(Day, AddDay(w), extraction), b))
  {
    var ws := Windows(Day, w, extraction);
    assert ws[0] == w && ws[1..] == Windows(Day, AddDay(w), extraction);
    DaysSkipStep(name, extraction, report, ws, b);
  }

  /** The walk from an eligible day `w` whose request fields raise. */
  lemma DaysWindowFail(name: string, extraction: DateTime, report: DateTime -> Result<Option<seq<Row>>, Failure>,
                       w: DateTime, b: Bookmarks)
    requires Eligible(Day, w, extraction) && report(w).Failure?
    ensures DriveDays(name, extraction, report, Windows(Day, w, extraction), b) == Outcome([], b, [], [], Some(report(w).error))
  {
    var ws := Windows(Day, w, extraction);
    assert ws[0] == w;
  }

  /** No eligible day: the final state message only. */
  lemma DaysWindowDone(name: string, extraction: DateTime, report: DateTime -> Result<Option<seq<Row>>, Failure>,
                       w: DateTime, b: Bookmarks)
    requires !Eligible(Day, w, extraction)
    ensures DriveDays(name, extraction, report, Windows(Day, w, extraction), b) == Outcome([StateMsg(b)], b, [], [], None)
  {
  }

  /**
   * After a day with a report the walk goes on from the next day with the
   * advanced bookmark, and what is done so far grows by that day's records,
   * its state message, its bookmark write and its request.
   */
  lemma DaysAdvance(name: string, extraction: DateTime, respond: (Endpoint, Filters) -> Response, vendor: Value,
                    cursor: DateTime, rows: seq<Row>, before: Bookmarks, total: Outcome,
                    emitted: seq<Event>, written: seq<string>, fetched: seq<DateTime>)
    requires Eligible(Day, cursor, extraction)
    requires DayFetch(respond, name, vendor, cursor) == Success(Some(rows))
    requires total == Streams.After(emitted, written, fetched,
      DriveDays(name, extraction, DayFetcher(respond, name, vendor), Windows(Day, cursor, extraction), before))
    ensures var value := FormatBookmark(AddDay(cursor));
      var next := SetBookmark(before, name, "start_date", value);
      var step := DayEvents(name, rows, extraction, FormatDay(cursor)) + [StateMsg(next)];
      && total == Streams.After(emitted + step, written + [value], fetched + [cursor],
           DriveDays(name, extraction, DayFetcher(respond, name, vendor), Windows(Day, AddDay(cursor), extraction), next))
      && RecordCount(emitted + step) == RecordCount(emitted) + |rows|
  {
    var report := DayFetcher(respond, name, vendor);
    assert report(cursor) == Success(Some(rows));
    var value := FormatBookmark(AddDay(cursor));
    var next := SetBookmark(before, name, "start_date", value);
    var step := DayEvents(name, rows, extraction, FormatDay(cursor)) + [StateMsg(next)];
    DaysWindowReport(name, extraction, report, cursor, before);
    Streams.AfterAfter(emitted, written, fetched, step, [value], [cursor],
      DriveDays(name, extraction, report, Windows(Day, AddDay(cursor), extraction), next));
    DayStep(name, rows, extraction, FormatDay(cursor), next);
    RecordCountAppend(emitted, step);
  }

  /** `counts` is `counts0` with `n` more records for the stream `name`. */
  lemma UpdateTwice<K, V>(m: map<K, V>, k: K, v: V, w: V)
    ensures m[k := v][k := w] == m[k := w]
  {
  }

  ghost predicate Tallied(counts: map<string, int>, counts0: map<string, int>, name: string, n: int) {
    name in counts0 && counts == counts0[name := counts0[name] + n]
  }

  lemma TalliedAs(counts: map<string, int>, counts0: map<string, int>, counts0': map<string, int>, name: string, n: int, n': int)
    requires Tallied(counts, counts0, name, n) && counts0 == counts0' && n == n'
    ensures Tallied(counts, counts0', name, n')
  {
  }

  /** Adding `n` records to a stream's count after `c` of them. */
  lemma CountsAdd(counts0: map<string, int>, name: string, c: int, n: int, c': int, m: map<string, int>, m': map<string, int>)
    requires Tallied(m, counts0, name, c) && Tallied(m', m, name, n) && c' == c + n
    ensures Tallied(m', counts0, name, c')
  {
  }

  /** One iteration of `sync` for the catalog entry at `k`: skipped unless selected, else its schema and `query_report`. */
  function TapEntrySpec(catalog: seq<CatalogEntry>, k: nat, config: Config, respond: (Endpoint, Filters) -> Response,
                        extraction: nat -> DateTime, now: nat -> DateTime, b: Bookmarks): ClassBased.SyncOutcome
    requires k < |catalog|
  {
    var e := catalog[k];
    if !Truthy(SelectedFlag(catalog, e.tapStreamId)) then ClassBased.SyncOutcome([], b, None)
    else
      var run := QueryDaysSpec(e.tapStreamId, config, extraction(k), now(k), DayFetcher(respond, e.tapStreamId, config.vendor), b);
      ClassBased.SyncOutcome([SchemaMsg(e.tapStreamId, e.schema, e.keyProperties)] + run.events, run.bookmarks, run.failure)
  }

  /**
   * `sync` from the catalog entry at `k`, the entry at `i` reading the
   * clocks `extraction(i)` and `now(i)`: the entries in catalog order on
   * the one shared state; a failure ends the run.
   */
  function TapSyncSpec(catalog: seq<CatalogEntry>, config: Config, respond: (Endpoint, Filters) -> Response,
                       extraction: nat -> DateTime, now: nat -> DateTime, k: nat, b: Bookmarks): ClassBased.SyncOutcome
    decreases |catalog| - k
  {
    if k >= |catalog| then ClassBased.SyncOutcome([], b, None)
    else
      var one := TapEntrySpec(catalog, k, config, respond, extraction, now, b);
      if one.failure.Some? then one
      else ClassBased.Resume(one.events, TapSyncSpec(catalog, config, respond, extraction, now, k + 1, one.bookmarks))
  }

  lemma TapSyncStep(catalog: seq<CatalogEntry>, config: Config, respond: (Endpoint, Filters) -> Response,
                    extraction: nat -> DateTime, now: nat -> DateTime, k: nat, b: Bookmarks)
    requires k < |catalog|
    ensures var one := TapEntrySpec(catalog, k, config, respond, extraction, now, b);
      TapSyncSpec(catalog, config, respond, extraction, now, k, b) ==
        if one.failure.Some? then one
        else ClassBased.Resume(one.events, TapSyncSpec(catalog, config, respond, extraction, now, k + 1, one.bookmarks))
  {
  }

  /** Past the last entry the run writes nothing more and goes through. */
  lemma TapSyncDone(catalog: seq<CatalogEntry>, config: Config, respond: (Endpoint, Filters) -> Response,
                    extraction: nat -> DateTime, now: nat -> DateTime, k: nat, b: Bookmarks)
    requires |catalog| <= k
    ensures TapSyncSpec(catalog, config, respond, extraction, now, k, b) == ClassBased.SyncOutcome([], b, None)
  {
  }

  /**
   * One iteration of `sync`: an unselected entry writes nothing and leaves
   * the bookmarks alone; a selected one writes its schema first, then only
   * its own stream's records and state messages.
   */
  lemma TapEntryShape(catalog: seq<CatalogEntry>, k: nat, config: Config, respond: (Endpoint, Filters) -> Response,
                      extraction: nat -> DateTime, now: nat -> DateTime, b: Bookmarks)
    requires k < |catalog|
    ensures var one := TapEntrySpec(catalog, k, config, respond, extraction, now, b);
      && (!Truthy(SelectedFlag(catalog, catalog[k].tapStreamId)) ==> one == ClassBased.SyncOutcome([], b, None))
      && (Truthy(SelectedFlag(catalog, catalog[k].tapStreamId)) ==>
            && |one.events| > 0
            && one.events[0] == SchemaMsg(catalog[k].tapStreamId, catalog[k].schema, catalog[k].keyProperties)
            && Streams.OwnEvents(catalog[k].tapStreamId, one.events[1..]))
  {
    var e := catalog[k];
    if Truthy(SelectedFlag(catalog, e.tapStreamId)) {
      QueryDaysOwn(e.tapStreamId, config, extraction(k), now(k), respond, b);
      var run := QueryDaysSpec(e.tapStreamId, config, extraction(k), now(k), DayFetcher(respond, e.tapStreamId, config.vendor), b);
      assert ([SchemaMsg(e.tapStreamId, e.schema, e.keyProperties)] + run.events)[1..] == run.events;
    }
  }

  /**
   * Every record `sync` writes sits under the schema of its own stream, the
   * last schema written before it, and the output opens with a schema.
   */
  lemma {:induction false} TapSyncFramed(catalog: seq<CatalogEntry>, config: Config, respond: (Endpoint, Filters) -> Response,
                                         extraction: nat -> DateTime, now: nat -> DateTime, k: nat, b: Bookmarks)
    ensures ClassBased.Framed(TapSyncSpec(catalog, config, respond, extraction, now, k, b).events)
    ensures ClassBased.Opens(TapSyncSpec(catalog, config, respond, extraction, now, k, b).events)
    decreases |catalog| - k
  {
    if k < |catalog| {
      var one := TapEntrySpec(catalog, k, config, respond, extraction, now, b);
      TapSyncStep(catalog, config, respond, extraction, now, k, b);
      TapEntryShape(catalog, k, config, respond, extraction, now, b);
      if one.events != [] {
        assert one.events == [one.events[0]] + one.events[1..];
        ClassBased.FramedEntry(one.events[0], one.events[1..]);
      }
      if one.failure.None? {
        TapSyncFramed(catalog, config, respond, extraction, now, k + 1, one.bookmarks);
        var rest := TapSyncSpec(catalog, config, respond, extraction, now, k + 1, one.bookmarks);
        if one.events != [] {
          ClassBased.FramedAppend(one.events, rest.events);
        } else {
          assert one.events + rest.events == rest.events;
        }
      }
    }
  }

  /**
   * `Context`: the configuration, the catalog's streams, the shared state,
   * the lazily built name-to-entry map and the per-stream counts.
   */
  class Context {
    const config: Config
    const catalog: seq<CatalogEntry>
    const state: State
    var streamMap: map<string, CatalogEntry>
    var newCounts: map<string, int>
    var updatedCounts: map<string, int>

    constructor (config: Config, catalog: seq<CatalogEntry>, state: State)
      ensures this.config == config && this.catalog == catalog && this.state == state
      ensures streamMap == map[] && newCounts == map[] && updatedCounts == map[]
      ensures Valid()
    {
      this.config := config;
      this.catalog := catalog;
      this.state := state;
      streamMap := map[];
      newCounts := map[];
      updatedCounts := map[];
    }

    /** The map is not built yet, or it is the catalog's. */
    ghost predicate Valid()
      reads this`streamMap
    {
      streamMap == map[] || streamMap == StreamMap(catalog)
    }

    /**
     * `get_catalog_entry`: build the map on first use (again while it is
     * empty), then look the name up.
     */
    method GetCatalogEntry(name: string) returns (r: Option<CatalogEntry>)
      requires Valid()
      modifies this`streamMap
      ensures Valid()
      ensures r == if name in StreamMap(catalog) then Some(StreamMap(catalog)[name]) else None
      ensures streamMap == StreamMap(catalog)
      ensures old(streamMap) != map[] ==> streamMap == old(streamMap)
    {
      if streamMap == map[] {
        streamMap := StreamMap(catalog);
      }
      r := if name in streamMap then Some(streamMap[name]) else None;
    }

    /** `is_selected`. */
    method IsSelected(name: string) returns (m: Meta)
      requires Valid()
      modifies this`streamMap
      ensures Valid()
      ensures streamMap == StreamMap(catalog)
      ensures m == SelectedFlag(catalog, name)
    {
      var stream := GetCatalogEntry(name);
      if stream.None? {
        return MBool(false);
      }
      var level := StreamLevel(stream.value.metadata);
      m := if level.Some? && "selected" in level.value then level.value["selected"] else MNull;
      assert m == LevelFlag(stream.value.metadata);
    }

    /** The records of one day, each counted as new for the stream. */
    method WriteDayRecords(out: Output, name: string, rows: seq<Row>, extraction: DateTime, reportDate: string)
      requires name in newCounts
      modifies this`newCounts, out
      ensures out.events == old(out.events) + DayEvents(name, rows, extraction, reportDate)
      ensures newCounts == old(newCounts)[name := old(newCounts)[name] + |rows|]
    {
      ghost var events := DayEvents(name, rows, extraction, reportDate);
      for i := 0 to |rows|
        invariant out.events == old(out.events) + events[..i]
        invariant newCounts == old(newCounts)[name := old(newCounts)[name] + i]
      {
        var data := DayRecord(rows[i], i + 1, extraction, reportDate);
        assert events[i] == RecordMsg(name, data, extraction);
        out.Write(RecordMsg(name, data, extraction));
        UpdateTwice(old(newCounts), name, old(newCounts)[name] + i, old(newCounts)[name] + i + 1);
        newCounts := newCounts[name := newCounts[name] + 1];
        assert events[..i + 1] == events[..i] + [events[i]];
      }
      assert events[..|rows|] == events;
    }

    /** The request fields for day `cursor` (which may raise) and the download. */
    method FetchDay(api: Client, name: string, cursor: DateTime) returns (rep: Result<Option<seq<Row>>, Failure>)
      modifies api
      ensures rep == DayFetch(api.respond, name, config.vendor, cursor)
      ensures api.requests == old(api.requests) + (if rep.Success? then [Request(SalesAndTrends, DayFilters(name, config.vendor, cursor))] else [])
    {
      var fields := RequestFields(name, config.vendor, FormatDay(cursor));
      if fields.Failure? {
        return Failure(fields.error);
      }
      var response := api.Download(SalesAndTrends, fields.value);
      rep := Success(AttemptDownload(response));
    }

    /** A day with a report: its records, the bookmark `day + 1 day`, a state message. */
    method RecordDay(out: Output, name: string, rows: seq<Row>, cursor: DateTime, extraction: DateTime, ghost counts: map<string, int>)
      requires name in counts && newCounts == counts
      modifies this`newCounts, state, out
      ensures var value := FormatBookmark(AddDay(cursor));
        var next := SetBookmark(old(state.bookmarks), name, "start_date", value);
        && state.bookmarks == next
        && state.writes == old(state.writes) + [BookmarkWrite(name, "start_date", value)]
        && out.events == old(out.events) + (DayEvents(name, rows, extraction, FormatDay(cursor)) + [StateMsg(next)])
        && Tallied(newCounts, counts, name, |rows|)
    {
      var reportDate := FormatDay(cursor);
      WriteDayRecords(out, name, rows, extraction, reportDate);
      state.WriteBookmark(name, "start_date", FormatBookmark(AddDay(cursor)));
      out.Write(StateMsg(state.bookmarks));
      Text.Associative(old(out.events), DayEvents(name, rows, extraction, reportDate), [StateMsg(state.bookmarks)]);
    }

    /**
     * The loop's invariant: the whole walk `total` is what is done so far
     * (`emitted`, `written`, `fetched`, on top of the logs and counts found
     * at the start) followed by the walk from `cursor` with the current
     * bookmarks.
     */
    ghost predicate DaysWalking(total: Outcome, api: Client, out: Output, name: string, extraction: DateTime, cursor: DateTime,
                                events0: seq<Event>, writes0: seq<BookmarkWrite>, requests0: seq<Request>, counts0: map<string, int>,
                                emitted: seq<Event>, written: seq<string>, fetched: seq<DateTime>)
      reads this, state, api, out
    {
      && total == Streams.After(emitted, written, fetched,
           DriveDays(name, extraction, DayFetcher(api.respond, name, config.vendor), Windows(Day, cursor, extraction), state.bookmarks))
      && out.events == events0 + emitted
      && state.writes == writes0 + StartDateWrites(name, written)
      && api.requests == requests0 + DayRequests(name, config.vendor, fetched)
      && Tallied(newCounts, counts0, name, RecordCount(emitted))
    }

    /** The logs, the bookmarks and the counts are those the whole walk `total` leaves. */
    ghost predicate DaysWalked(total: Outcome, api: Client, out: Output, name: string,
                               events0: seq<Event>, writes0: seq<BookmarkWrite>, requests0: seq<Request>, counts0: map<string, int>)
      reads this, state, api, out
    {
      && out.events == events0 + total.events
      && state.bookmarks == total.bookmarks
      && state.writes == writes0 + StartDateWrites(name, total.writes)
      && api.requests == requests0 + DayRequests(name, config.vendor, total.fetched)
      && Tallied(newCounts, counts0, name, RecordCount(total.events))
    }

    /**
     * One turn of the loop: a day with a report or without one leaves the
     * invariant one day further on; the exception of the request fields
     * ends the walk.
     */
    method AdvanceDay(api: Client, out: Output, name: string, cursor: DateTime, extraction: DateTime, ghost total: Outcome,
                      ghost events0: seq<Event>, ghost writes0: seq<BookmarkWrite>, ghost requests0: seq<Request>,
                      ghost counts0: map<string, int>,
                      ghost emitted: seq<Event>, ghost written: seq<string>, ghost fetched: seq<DateTime>)
      returns (rep: Result<Option<seq<Row>>, Failure>, ghost emitted': seq<Event>, ghost written': seq<string>, ghost fetched': seq<DateTime>)
      requires DaysWalking(total, api, out, name, extraction, cursor, events0, writes0, requests0, counts0, emitted, written, fetched)
      requires Eligible(Day, cursor, extraction)
      modifies this`newCounts, state, api, out
      ensures rep.Success? ==>
        DaysWalking(total, api, out, name, extraction, AddDay(cursor), events0, writes0, requests0, counts0, emitted', written', fetched')
      ensures rep.Failure? ==>
        DaysWalked(total, api, out, name, events0, writes0, requests0, counts0) && total.failure == Some(rep.error)
    {
      ghost var report := DayFetcher(api.respond, name, config.vendor);
      ghost var before := state.bookmarks;
      ghost var counts := newCounts;
      assert Tallied(counts, counts0, name, RecordCount(emitted));
      rep := FetchDay(api, name, cursor);
      assert report(cursor) == rep;
      if rep.Failure? {
        DaysWindowFail(name, extraction, report, cursor, before);
        assert emitted + [] == emitted && written + [] == written && fetched + [] == fetched;
        return rep, emitted, written, fetched;
      }
      DayRequestsAppend(name, config.vendor, fetched, cursor);
      Text.Associative(requests0, DayRequests(name, config.vendor, fetched), [Request(SalesAndTrends, DayFilters(name, config.vendor, cursor))]);
      if rep.value.None? {
        DaysWindowSkip(name, extraction, report, cursor, before);
        Streams.AfterAfter(emitted, written, fetched, [], [], [cursor],
          DriveDays(name, extraction, report, Windows(Day, AddDay(cursor), extraction), before));
        assert emitted + [] == emitted && written + [] == written;
        return rep, emitted, written, fetched + [cursor];
      }
      DaysAdvance(name, extraction, api.respond, config.vendor, cursor, rep.value.value, state.bookmarks, total, emitted, written, fetched);
      emitted', written', fetched' := AdvanceReported(api, out, name, cursor, extraction, rep.value.value, total,
                                                      events0, writes0, requests0, counts0, counts, emitted, written, fetched);
    }

    /**
     * The turn of the loop for a day with a report, once the walk is known
     * to go on from the next day: the records, the bookmark and its state
     * message are written and the stream's count grows by the day's rows.
     */
    method AdvanceReported(api: Client, out: Output, name: string, cursor: DateTime, extraction: DateTime, rows: seq<Row>,
                           ghost total: Outcome, ghost events0: seq<Event>, ghost writes0: seq<BookmarkWrite>,
                           ghost requests0: seq<Request>, ghost counts0: map<string, int>, ghost counts: map<string, int>,
                           ghost emitted: seq<Event>, ghost written: seq<string>, ghost fetched: seq<DateTime>)
      returns (ghost emitted': seq<Event>, ghost written': seq<string>, ghost fetched': seq<DateTime>)
      requires var value := FormatBookmark(AddDay(cursor));
        var next := SetBookmark(state.bookmarks, name, "start_date", value);
        var step := DayEvents(name, rows, extraction, FormatDay(cursor)) + [StateMsg(next)];
        && total == Streams.After(emitted + step, written + [value], fetched + [cursor],
             DriveDays(name, extraction, DayFetcher(api.respond, name, config.vendor), Windows(Day, AddDay(cursor), extraction), next))
        && RecordCount(emitted + step) == RecordCount(emitted) + |rows|
      requires out.events == events0 + emitted
      requires state.writes == writes0 + StartDateWrites(name, written)
      requires api.requests == requests0 + DayRequests(name, config.vendor, fetched + [cursor])
      requires Tallied(counts, counts0, name, RecordCount(emitted)) && newCounts == counts
      modifies this`newCounts, state, out
      ensures DaysWalking(total, api, out, name, extraction, AddDay(cursor), events0, writes0, requests0, counts0, emitted', written', fetched')
    {
      ghost var value := FormatBookmark(AddDay(cursor));
      ghost var step := DayEvents(name, rows, extraction, FormatDay(cursor)) + [StateMsg(SetBookmark(state.bookmarks, name, "start_date", value))];
      StartDateWritesAppend(name, written, value);
      Text.Associative(writes0, StartDateWrites(name, written), [BookmarkWrite(name, "start_date", value)]);
      Text.Associative(events0, emitted, step);
      emitted', written', fetched' := emitted + step, written + [value], fetched + [cursor];
      RecordDay(out, name, rows, cursor, extraction, counts);
      CountsAdd(counts0, name, RecordCount(emitted), |rows|, RecordCount(emitted'), counts, newCounts);
    }

    /**
     * The `while` loop of `query_report` from `cursor` and the final state
     * message: what it writes, the bookmarks, the requests and the count of
     * new records are those of the walk `total`.
     */
    method WalkDays(api: Client, out: Output, name: string, cursor: DateTime, extraction: DateTime, ghost total: Outcome,
                    ghost events0: seq<Event>, ghost writes0: seq<BookmarkWrite>, ghost requests0: seq<Request>,
                    ghost counts0: map<string, int>)
      returns (failure: Option<Failure>)
      requires DaysWalking(total, api, out, name, extraction, cursor, events0, writes0, requests0, counts0, [], [], [])
      modifies this`newCounts, state, api, out
      ensures DaysWalked(total, api, out, name, events0, writes0, requests0, counts0)
      ensures failure == total.failure
    {
      var cursor := cursor;
      ghost var emitted: seq<Event>, written: seq<string>, fetched: seq<DateTime> := [], [], [];
      while NotAfter(AddDay(cursor), extraction)
        invariant DaysWalking(total, api, out, name, extraction, cursor, events0, writes0, requests0, counts0, emitted, written, fetched)
        decreases Instant(extraction) - Instant(cursor)
      {
        var rep;
        rep, emitted, written, fetched := AdvanceDay(api, out, name, cursor, extraction, total, events0, writes0, requests0, counts0,
                                                     emitted, written, fetched);
        if rep.Failure? {
          return Some(rep.error);
        }
        cursor := AddDay(cursor);
      }
      DaysWindowDone(name, extraction, DayFetcher(api.respond, name, config.vendor), cursor, state.bookmarks);
      assert written + [] == written && fetched + [] == fetched;
      Streams.StateAddsNoRecord(emitted, state.bookmarks);
      out.Write(StateMsg(state.bookmarks));
      Text.Associative(events0, emitted, [StateMsg(state.bookmarks)]);
      failure := None;
    }

    /**
     * `query_report` once the start is loaded: write it back as the
     * bookmark, look back at most a year from `now` and walk the days that
     * end by `extraction`.
     */
    method QueryFromStart(api: Client, out: Output, name: string, start: DateTime, extraction: DateTime, now: DateTime)
      returns (failure: Option<Failure>)
      requires name in newCounts
      modifies this`newCounts, state, api, out
      ensures var run := DriveDays(name, extraction, DayFetcher(api.respond, name, config.vendor),
                                   Windows(Day, LookBack(start, now), extraction),
                                   SetBookmark(old(state.bookmarks), name, "start_date", FormatBookmark(start)));
        && out.events == old(out.events) + run.events
        && state.bookmarks == run.bookmarks
        && state.writes == old(state.writes) + StartDateWrites(name, [FormatBookmark(start)] + run.writes)
        && api.requests == old(api.requests) + DayRequests(name, config.vendor, run.fetched)
        && Tallied(newCounts, old(newCounts), name, RecordCount(run.events))
        && failure == run.failure
    {
      var first := FormatBookmark(start);
      state.WriteBookmark(name, "start_date", first);
      var cursor := LookBack(start, now);
      ghost var total := DriveDays(name, extraction, DayFetcher(api.respond, name, config.vendor), Windows(Day, cursor, extraction),
                                   state.bookmarks);
      Streams.AfterNothing(total);
      assert StartDateWrites(name, []) == [] && DayRequests(name, config.vendor, []) == [];
      assert Tallied(newCounts, newCounts, name, 0);
      failure := WalkDays(api, out, name, cursor, extraction, total, out.events, state.writes, api.requests, newCounts);
      StartDateWritesCons(name, first, total.writes);
      Text.Associative(old(state.writes), [BookmarkWrite(name, "start_date", first)], StartDateWrites(name, total.writes));
    }

    /**
     * `query_report`: load the stream's start, write it back as the
     * bookmark, look back at most a year from `now` and walk the days that
     * end by `extraction`; everything it writes, the bookmarks it leaves,
     * the requests it makes, the stream's count and how it ends are those
     * of `QueryDaysSpec`.
     */
    method QueryReport(api: Client, out: Output, entry: CatalogEntry, extraction: DateTime, now: DateTime)
      returns (failure: Option<Failure>)
      requires entry.tapStreamId in newCounts
      modifies this`newCounts, state, api, out
      ensures var name := entry.tapStreamId;
        var run := QueryDaysSpec(name, config, extraction, now, DayFetcher(api.respond, name, config.vendor), old(state.bookmarks));
        && out.events == old(out.events) + run.events
        && state.bookmarks == run.bookmarks
        && state.writes == old(state.writes) + StartDateWrites(name, run.writes)
        && api.requests == old(api.requests) + DayRequests(name, config.vendor, run.fetched)
        && Tallied(newCounts, old(newCounts), name, RecordCount(run.events))
        && failure == run.failure
    {
      var name := entry.tapStreamId;
      var loaded := LoadStart(state.bookmarks, name, config);
      if loaded.Failure? {
        assert Tallied(newCounts, newCounts, name, 0);
        return Some(loaded.error);
      }
      QueryDaysOpen(name, config, extraction, now, DayFetcher(api.respond, name, config.vendor), state.bookmarks);
      failure := QueryFromStart(api, out, name, loaded.value, extraction, now);
    }

    /**
     * One turn of `sync`'s loop, for the catalog entry at `i`: a stream that
     * is not selected is skipped; otherwise its schema is written, its counts
     * start from zero and `query_report` runs at the clock readings
     * `extraction(i)` and `now(i)`.
     */
    method SyncEntryAt(api: Client, out: Output, i: nat, extraction: nat -> DateTime, now: nat -> DateTime)
      returns (failure: Option<Failure>)
      requires i < |catalog| && Valid()
      modifies this`streamMap, this`newCounts, this`updatedCounts, state, api, out
      ensures Valid()
      ensures var one := TapEntrySpec(catalog, i, config, api.respond, extraction, now, old(state.bookmarks));
        && out.events == old(out.events) + one.events
        && state.bookmarks == one.bookmarks
        && failure == one.failure
      ensures var name := catalog[i].tapStreamId;
        if Truthy(SelectedFlag(catalog, name)) then
          && Tallied(newCounts, old(newCounts)[name := 0], name,
                     RecordCount(TapEntrySpec(catalog, i, config, api.respond, extraction, now, old(state.bookmarks)).events))
          && updatedCounts == old(updatedCounts)[name := 0]
        else newCounts == old(newCounts) && updatedCounts == old(updatedCounts)
    {
      var entry := catalog[i];
      var name := entry.tapStreamId;
      var selected := IsSelected(name);
      if !Truthy(selected) {
        assert old(out.events) + [] == old(out.events);
        return None;
      }
      ghost var b := state.bookmarks;
      ghost var run := QueryDaysSpec(name, config, extraction(i), now(i), DayFetcher(api.respond, name, config.vendor), b);
      var schema := SchemaMsg(name, entry.schema, entry.keyProperties);
      out.Write(schema);
      newCounts := newCounts[name := 0];
      updatedCounts := updatedCounts[name := 0];
      ghost var zeroed := newCounts;
      failure := QueryReport(api, out, entry, extraction(i), now(i));
      Text.Associative(old(out.events), [schema], run.events);
      RecordCountAppend([schema], run.events);
      assert RecordCount([schema]) == 0;
      TalliedAs(newCounts, zeroed, old(newCounts)[name := 0], name, RecordCount(run.events),
                RecordCount(TapEntrySpec(catalog, i, config, api.respond, extraction, now, old(state.bookmarks)).events));
    }

    /**
     * One turn of `sync`'s loop, with the run `total` known to be what is
     * written so far (`emitted`, on top of the output `events0` found at the
     * start) followed by the run from entry `i`: the run ends here, or goes
     * on from entry `i + 1` with this entry's output added.
     */
    method SyncTurn(api: Client, out: Output, i: nat, extraction: nat -> DateTime, now: nat -> DateTime,
                    ghost total: ClassBased.SyncOutcome, ghost events0: seq<Event>, ghost emitted: seq<Event>)
      returns (failure: Option<Failure>, ghost emitted': seq<Event>)
      requires i < |catalog| && Valid()
      requires total == ClassBased.Resume(emitted, TapSyncSpec(catalog, config, api.respond, extraction, now, i, state.bookmarks))
      requires out.events == events0 + emitted
      modifies this`streamMap, this`newCounts, this`updatedCounts, state, api, out
      ensures Valid()
      ensures failure.None? ==>
        && total == ClassBased.Resume(emitted', TapSyncSpec(catalog, config, api.respond, extraction, now, i + 1, state.bookmarks))
        && out.events == events0 + emitted'
      ensures failure.Some? ==>
        out.events == events0 + total.events && state.bookmarks == total.bookmarks && failure == total.failure
    {
      ghost var b := state.bookmarks;
      TapSyncStep(catalog, config, api.respond, extraction, now, i, b);
      failure := SyncEntryAt(api, out, i, extraction, now);
      ghost var one := TapEntrySpec(catalog, i, config, api.respond, extraction, now, b);
      Text.Associative(events0, emitted, one.events);
      emitted' := emitted + one.events;
      if failure.None? {
        ghost var rest := TapSyncSpec(catalog, config, api.respond, extraction, now, i + 1, one.bookmarks);
        ClassBased.ResumeResume(emitted, one.events, rest);
      }
    }

    /**
     * `sync`: the catalog entries in order on the one shared state; what it
     * writes, the bookmarks it leaves and how it ends are those of
     * `TapSyncSpec`, the entry at `i` reading the clocks `extraction(i)`
     * and `now(i)`.
     */
    method Sync(api: Client, out: Output, extraction: nat -> DateTime, now: nat -> DateTime) returns (failure: Option<Failure>)
      requires Valid()
      modifies this, state, api, out
      ensures Valid()
      ensures var total := TapSyncSpec(catalog, config, api.respond, extraction, now, 0, old(state.bookmarks));
        && out.events == old(out.events) + total.events
        && state.bookmarks == total.bookmarks
        && failure == total.failure
    {
      ghost var total := TapSyncSpec(catalog, config, api.respond, extraction, now, 0, state.bookmarks);
      ghost var emitted: seq<Event> := [];
      var i := 0;
      assert total == ClassBased.Resume(emitted, total);
      while i < |catalog|
        invariant i <= |catalog| && Valid()
        invariant total == ClassBased.Resume(emitted, TapSyncSpec(catalog, config, api.respond, extraction, now, i, state.bookmarks))
        invariant out.events == old(out.events) + emitted
        decreases |catalog| - i
      {
        var f;
        f, emitted := SyncTurn(api, out, i, extraction, now, total, old(out.events), emitted);
        if f.Some? {
          return f;
        }
        i := i + 1;
      }
      TapSyncDone(catalog, config, api.respond, extraction, now, i, state.bookmarks);
      assert emitted + [] == emitted;
      failure := None;
    }
  }
}
