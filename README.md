# tap_appstore — a verified model of the extraction engine

This project models the incremental extraction engine of the App Store Connect
Singer connector `tap_appstore`. The repository holds two revisions of it:

- the single-module revision, `tap_appstore/__init__.py`, which the console
  entry point runs;
- the class-based revision, `tap_appstore/streams.py` with
  `tap_appstore/sync.py`.

Both revisions do the same job. They pick the selected streams of the
catalog, load each stream's bookmark from the shared state, walk the report
windows from that bookmark up to the extraction time, download each window's
tab-separated report, write one record per report line, and move the bookmark
forward after each window. The model keeps each revision as written, with
their differences. Lemmas relate the two revisions where they agree and show
an input where they do not.

The files:

| file | module | what it holds |
|---|---|---|
| `wrappers.dfy` | `Wrappers` | `Option` and `Result` |
| `calendar.dfy` | `Calendar` | civil date-times on one fixed UTC timeline: a day later, a month later (day clamped), the start of a month, whole days between two instants |
| `timeformat.dfy` | `TimeFormat` | the bookmark text `%Y-%m-%dT%H:%M:%SZ`, the report dates `%Y-%m-%d` and `%Y-%m`, the extraction time `%Y-%m-%dT%H:%M:%S%z`, and a strict reader of the bookmark text |
| `text.dfy` | `Text` | `str.split` with one separator, `str.strip`, and the header-cell normalisation |
| `tsv.dfy` | `Tsv` | the report parser, as a function and as the nested loop of the source |
| `windows.dfy` | `ReportWindows` | the report windows a walk visits, one `delta` apart, while `iterator + delta <= extraction_time` |
| `singer.dfy` | `Singer` | record values, bookmarks, the output messages (schema, record, state), the `State` and `Output` objects, catalog metadata, the failures that end a run |
| `vendor.dfy` | `Vendor` | the reporting service as a fixed function from (endpoint, filters) to an API error, a JSON object or report text, and the `Client` that logs each request |
| `streams.dfy` | `Streams` | `tap_appstore/streams.py`: the registry, request fields, bookmark load and store, record enrichment, the window walk (`Drive`, `QueryReportSpec`) and the `Stream` class whose methods are proved against them |
| `sync.dfy` | `Sync` | `tap_appstore/sync.py`: `get_selected_streams` and the `sync` dispatch over the one shared state |
| `tap.dfy` | `Tap` | `tap_appstore/__init__.py`: the request-field table, the day walk with its 365-day look-back and skipped windows (`DriveDays`, `QueryDaysSpec`), the `Context` class with its lazily built stream map and per-stream counts, and the comparisons with the class-based revision |

The outside world is modelled as follows:

- The reporting service is a function parameter (`Client.respond`). The client
  records every request in a ghost log.
- Standard output is an `Output` object whose `events` grow by one message per
  write.
- The state object is a `State` with its bookmarks and a ghost log of
  bookmark writes.
- Each clock reading (`singer.utils.now()`) is a parameter. In `sync` it is a
  function of the position of the entry in the run.

## Model

| member | source | states |
|---|---|---|
| `Calendar.AddDay` | tap_appstore/__init__.py:220-220 | one day later: the day number grows by one, the time of day is kept, the instant grows by 86400 seconds |
| `Calendar.SubDays` | tap_appstore/__init__.py:235-235 | `now - timedelta(days=n)`: n days earlier at the same time of day, n·86400 seconds earlier |
| `Calendar.AddMonth` | tap_appstore/streams.py:178-178 | `+ relativedelta(months=1)`: the next calendar month, the day clamped to that month's length, the time of day kept, strictly later |
| `Calendar.StartOfMonth` | tap_appstore/streams.py:191-192 | the same year and month, day 1 at 00:00:00, never later than the input |
| `Calendar.DayNumberBounds` | tap_appstore/__init__.py:232-232 | the instant lies within its day, and day 0 is 0001-01-01 |
| `Calendar.DaysInMonth` | tap_appstore/streams.py:178-178 | every month has 28 to 31 days |
| `TimeFormat.Decimal` | tap_appstore/streams.py:15-15 | zero-padded digits, at least the requested width |
| `TimeFormat.DecimalRoundTrip` | tap_appstore/streams.py:15-15 | reading the digits of a rendered number gives the number back |
| `TimeFormat.DecimalOfValue` | tap_appstore/streams.py:15-15 | a digit string is the zero-padded rendering of its value at its own width |
| `TimeFormat.DecimalExactWidth` | tap_appstore/streams.py:15-15 | a number below 10^w is rendered in exactly w digits |
| `TimeFormat.FormatBookmarkShape` | tap_appstore/streams.py:15-15 | the bookmark text has its punctuation at fixed positions and the six fields in order |
| `TimeFormat.DayShape` | tap_appstore/__init__.py:237-237 | the daily report date is ten characters: year, month and day separated by hyphens |
| `TimeFormat.BookmarkRoundTrip` | tap_appstore/streams.py:78-82 | a bookmark written with `strftime(DATE_FORMAT)` reads back with `strptime` as the same date-time |
| `TimeFormat.ParseBookmarkExact` | tap_appstore/streams.py:79-79 | every text the reader accepts is exactly the bookmark text of what it reads, with a four-digit year |
| `TimeFormat.SameBookmarkText` | tap_appstore/streams.py:79-79 | two bookmark texts with the same six fields are the same text |
| `Text.Split` | tap_appstore/streams.py:111-111 | `split` always gives at least one piece |
| `Text.SplitPiecesFree` | tap_appstore/streams.py:111-111 | no piece contains the separator |
| `Text.JoinSplit` | tap_appstore/streams.py:111-111 | joining the pieces with the separator gives the text back |
| `Text.SplitJoin` | tap_appstore/streams.py:118-118 | splitting a join of separator-free pieces gives the pieces back |
| `Text.SplitAppend` | tap_appstore/streams.py:111-111 | splitting around one separator splits each side on its own |
| `Text.SplitCons` | tap_appstore/streams.py:111-111 | one step of `Split`, unfolded: a leading separator starts a new piece; any other character extends the first piece |
| `Text.TrimLeftSuffix` | tap_appstore/streams.py:121-121 | the left trim removes a whitespace prefix and no more |
| `Text.TrimRightPrefix` | tap_appstore/streams.py:121-121 | the right trim removes a whitespace suffix and no more |
| `Text.StripEnds` | tap_appstore/streams.py:121-121 | a stripped cell neither starts nor ends with whitespace |
| `Text.StripIsSlice` | tap_appstore/streams.py:121-121 | `strip` keeps a slice of the cell and removes only whitespace at its two ends |
| `Text.StripIdempotent` | tap_appstore/streams.py:121-121 | stripping twice removes nothing more |
| `Text.Lower` | tap_appstore/streams.py:112-112 | `lower` keeps the length |
| `Text.ReplaceChar` | tap_appstore/streams.py:112-112 | `replace` of one character by one keeps the length |
| `Text.NormalizeKey` | tap_appstore/streams.py:112-112 | `lower().replace(' ', '_').replace('-', '_')` keeps the length and leaves no upper-case ASCII letter, space or hyphen |
| `Text.NormalizeKeyChars` | tap_appstore/streams.py:112-112 | each header character maps to one key character: space and hyphen become `_`, letters are lowered, all else is kept |
| `Text.NormalizeKeyIdempotent` | tap_appstore/streams.py:112-112 | normalising an already normalised key changes nothing |
| `Tsv.Header` | tap_appstore/streams.py:112-112 | one column name per tab-separated cell of the first line, each as long as its cell and with no upper-case ASCII letter, space or hyphen left |
| `Tsv.NonEmpty` | tap_appstore/streams.py:114-116 | the lines the loop keeps are exactly the non-empty ones |
| `Tsv.RowUpToKeys` | tap_appstore/streams.py:119-121 | a line's mapping has exactly the column names of the cells it fills |
| `Tsv.RowUpToValues` | tap_appstore/streams.py:119-121 | each key holds the stripped cell of the last column of that name |
| `Tsv.RowUpToTrimmed` | tap_appstore/streams.py:121-121 | every value is already stripped |
| `Tsv.DataRowsOfNonEmpty` | tap_appstore/streams.py:114-122 | one mapping per non-empty line, in line order; empty lines add nothing |
| `Tsv.ParseRows` | tap_appstore/streams.py:111-123 | the parse has one mapping per non-empty line after the header, the k-th from the k-th such line |
| `Tsv.SplitWhole` | tap_appstore/streams.py:118-118 | a line without a tab is a single cell |
| `Tsv.ParseAppendLine` | tap_appstore/streams.py:114-122 | one more line adds exactly that line's mapping, or nothing when the line is empty |
| `Tsv.ParseTrailingNewline` | tap_appstore/streams.py:115-116 | a trailing newline adds no mapping |
| `Tsv.DataRowsShape` | tap_appstore/streams.py:119-121 | every key is a column name and every value is stripped |
| `Tsv.ParseKeysNormal` | tap_appstore/streams.py:112-112 | every key of every mapping is a normalised name: no upper-case letter, space or hyphen |
| `Tsv.ParseValuesTrimmed` | tap_appstore/streams.py:121-121 | every value of every mapping is stripped |
| `Tsv.RowWidth` | tap_appstore/streams.py:119-120 | a row shorter than the header has exactly the first `len(cells)` names; cells beyond the header are ignored |
| `Tsv.RowUpToPrefix` | tap_appstore/streams.py:119-120 | a mapping depends only on the cells it reads |
| `Tsv.DistinctColumns` | tap_appstore/streams.py:119-121 | with distinct column names, column i holds the stripped cell i |
| `Tsv.ExampleFullRow` | tap_appstore/streams.py:117-122 | a full row maps each column to its cell |
| `Tsv.ExampleShortRow` | tap_appstore/streams.py:117-122 | a short row lacks the missing column |
| `Tsv.ParseShortRowExample` | tap_appstore/streams.py:106-123 | a three-line report gives two mappings, the second without the second key |
| `Tsv.FillRow` | tap_appstore/streams.py:117-121 | the inner loop's mapping is the row mapping of the line |
| `Tsv.ParseReport` | tap_appstore/__init__.py:149-163 | the loop of `tsv_to_list` (and of `parse_api_response`) computes the parse of the text |
| `ReportWindows.Step` | tap_appstore/streams.py:153-153 | `iterator + delta` is strictly later |
| `ReportWindows.Windows` | tap_appstore/streams.py:133-133 | the walk visits nothing exactly when the loop guard fails at the start, else it starts at the start |
| `ReportWindows.WindowsChain` | tap_appstore/streams.py:133-153 | the windows start at the start, each is one `delta` after the previous, each ends by the extraction time, and the one after the last does not |
| `ReportWindows.ChainIsWindows` | tap_appstore/streams.py:133-153 | any sequence with those properties is exactly the windows |
| `ReportWindows.WindowsAscending` | tap_appstore/streams.py:133-153 | windows start strictly after one another and never before the start |
| `ReportWindows.ShiftedInstants` | tap_appstore/streams.py:133-153 | ordering is kept when one earlier window is put in front |
| `ReportWindows.DailyWindowsInstants` | tap_appstore/__init__.py:236-271 | the k-th daily window starts exactly k days after the start |
| `ReportWindows.DailyWindowsCount` | tap_appstore/__init__.py:236-271 | the number of daily windows is the whole days from the start to the extraction time, or none |
| `Singer.Show` | tap_appstore/streams.py:88-88 | `f"{v}"` of text is the text, and of a non-negative number is its digits |
| `Singer.SetBookmark` | tap_appstore/streams.py:82-82 | `write_bookmark` sets the stream's key, leaves every other (stream, key) as it was, and adds the stream |
| `Singer.RecordCountAppend` | tap_appstore/__init__.py:261-261 | record counts add up over consecutive output |
| `Singer.AllRecords` | tap_appstore/streams.py:138-148 | output made of records only counts one record per message |
| `Singer.State.WriteBookmark` | tap_appstore/streams.py:82-82 | the bookmarks become those of `write_bookmark`, and the write is logged |
| `Singer.Output.Write` | tap_appstore/streams.py:148-148 | a message is appended to the output |
| `Vendor.Client.Download` | tap_appstore/streams.py:160-160 | the answer is the service's answer to that request, and the request is logged |
| `Streams.RegistryNames` | tap_appstore/streams.py:196-205 | the registry holds exactly the eight names, only `financial_report` is financial, and every sales name has a request template |
| `Streams.RequestFields` | tap_appstore/streams.py:167-174 | `reportDate` in the stream's format and `vendorNumber` are always sent; a sales stream with a template adds exactly its four fields; the financial stream and a sales name without a template send the two base fields only |
| `Streams.AttemptDownload` | tap_appstore/streams.py:158-165 | an APIError gives `None`, a JSON reply raises, report text is parsed |
| `Streams.RequestsForAppend` | tap_appstore/streams.py:97-100 | one more window adds exactly its request |
| `Streams.LoadBookmark` | tap_appstore/streams.py:77-79 | the stored `start_date` wins over the configured one; neither fails, a malformed text fails, else the text read (for the financial stream, moved to the start of its month) |
| `Streams.BookmarkReadBack` | tap_appstore/streams.py:78-82 | the bookmark a run writes is what the next run starts from |
| `Streams.FinancialBookmarkNormalised` | tap_appstore/streams.py:191-192 | a financial bookmark is day 1 at 00:00:00, the start of the month of the daily reading |
| `Streams.EnrichFields` | tap_appstore/streams.py:139-145 | a record has the line's columns and the four synthetic fields; a column of the same name wins over a synthetic field |
| `Streams.WindowEventsAt` | tap_appstore/streams.py:138-148 | a window writes one record per line, the k-th from line k with `_line_id` k + 1, all with the extraction time |
| `Streams.WindowEventAt` | tap_appstore/streams.py:138-148 | the k-th record of a window, on its own |
| `Streams.AfterAfter` | tap_appstore/streams.py:133-153 | work done in two stretches is the same as in one |
| `Streams.AfterNothing` | tap_appstore/streams.py:133-153 | nothing done in front changes nothing |
| `Streams.DriveReportStep` | tap_appstore/streams.py:133-153 | one step of `Drive`, unfolded: an eligible window with a report writes its records, the bookmark `window + delta` and a state message, then the walk goes on from the next window |
| `Streams.DriveFailStep` | tap_appstore/streams.py:135-138 | one step of `Drive`, unfolded: an eligible window without a report (`None` or JSON) ends the run with nothing more written |
| `Streams.DriveDone` | tap_appstore/streams.py:133-154 | one step of `Drive`, unfolded: with no eligible window the walk writes only the final state message |
| `Streams.SetBookmarkTwice` | tap_appstore/streams.py:150-150 | writing the bookmark twice keeps only the second value |
| `Streams.DriveStep` | tap_appstore/streams.py:133-153 | one step of `Drive`, unfolded: one window with a report, as the walk takes it |
| `Streams.TrailCons` | tap_appstore/streams.py:133-153 | the walk's invariants hold one window earlier |
| `Streams.DriveTrail` | tap_appstore/streams.py:133-154 | a walk requests a prefix of the windows; each bookmark written ends a window that had a report; a failed walk fails at the last window requested and writes nothing more; an unfailed one requests every window and ends with a state message; the bookmarks left hold the last value written |
| `Streams.DriveRecords` | tap_appstore/streams.py:138-148 | a walk writes one record per line of the reports of the windows it requested |
| `Streams.RecordsCons` | tap_appstore/streams.py:138-152 | the record count of one window then the rest |
| `Streams.QueryReportTrail` | tap_appstore/streams.py:125-154 | the start is written first; the windows requested are consecutive windows from the start; each later bookmark ends a window that had a report; the stream's bookmark ends as the last value written, and no other bookmark changes |
| `Streams.QueryReportWindows` | tap_appstore/streams.py:133-153 | the windows requested start at the start, each one `delta` after the previous and strictly later, each ending by the extraction time |
| `Streams.NoEligibleWindow` | tap_appstore/streams.py:130-154 | with no eligible window: no request, no record, one bookmark write (the start) and one state message |
| `Streams.OwnAppend` | tap_appstore/streams.py:133-154 | one stream's own messages stay its own when joined |
| `Streams.DriveOwn` | tap_appstore/streams.py:133-154 | a walk writes only its own stream's records and state messages |
| `Streams.OwnCons` | tap_appstore/streams.py:138-152 | one window's messages in front of the rest's are still the stream's own |
| `Streams.QueryReportOwn` | tap_appstore/streams.py:125-154 | `query_report` writes no schema, only its own stream's records, and fails only for its bookmark or its reports |
| `Streams.ExampleDigits` | tests/unittests/test_stream.py:24-36 | the digit texts of the example dates |
| `Streams.FirstBookmark` | tests/unittests/test_stream.py:33-37 | the bookmark and report-date texts of midnight on the first of a month |
| `Streams.MidnightFirst` | tests/unittests/test_stream.py:33-37 | midnight on the first of a month is written as its month followed by `-01T00:00:00Z` |
| `Streams.NextFirst` | tests/unittests/test_stream.py:33-37 | one month after the first of a month is the first of the next month |
| `Streams.MayJuneWindows` | tests/unittests/test_stream.py:24-28 | monthly windows from 1 May with the extraction at 1 July are May and June |
| `Streams.Texts2023` | tests/unittests/test_stream.py:33-37 | the texts of the first of a month of 2023 |
| `Streams.ExampleMonths` | tests/unittests/test_stream.py:45-55 | the report dates `2023-05` and `2023-06` |
| `Streams.ExampleRun` | tests/unittests/test_stream.py:23-61 | the financial example, window by window: May's two records and state, June's record and state, the final state |
| `Streams.FromTwo` | tap_appstore/streams.py:125-154 | `query_report` over exactly two windows that both have a report |
| `Streams.DriveTwo` | tap_appstore/streams.py:133-154 | the walk over two windows that both have a report |
| `Streams.ExampleBookmarks` | tests/unittests/test_stream.py:33-43 | three bookmark writes leave the last value |
| `Streams.FinancialExampleBookmarks` | tests/unittests/test_stream.py:33-43 | the example writes the bookmarks of 1 May, 1 June and 1 July, requests May and June, does not fail, and ends with the 1 July bookmark |
| `Streams.FinancialExampleRecords` | tests/unittests/test_stream.py:45-61 | the example writes three records, numbered 1 and 2 for May and 1 for June, with their report dates and the extraction time, then state messages |
| `Streams.ExampleEvents` | tests/unittests/test_stream.py:45-61 | the example's messages, in order |
| `Streams.StateAddsNoRecord` | tap_appstore/streams.py:152-152 | a state message adds no record |
| `Streams.Stream.constructor` | tap_appstore/streams.py:71-75 | the stream object keeps its name, client, configuration and shared state |
| `Streams.Stream.GetBookmark` | tap_appstore/streams.py:77-79 | the stream's bookmark as `LoadBookmark` reads it |
| `Streams.Stream.UpdateBookmark` | tap_appstore/streams.py:81-82 | writes the bookmark text of the value under `start_date` |
| `Streams.Stream.GetReport` | tap_appstore/streams.py:97-100 | one request with the window's fields to the stream's endpoint, and what comes of it |
| `Streams.Stream.WriteRecords` | tap_appstore/streams.py:138-148 | appends the window's records, numbered from 1 |
| `Streams.Stream.VisitWindow` | tap_appstore/streams.py:135-152 | one window: the request; with a report, its records, the next bookmark and a state message; without one, nothing more |
| `Streams.Stream.Advance` | tap_appstore/streams.py:133-153 | one loop turn keeps the walk's invariant one window further on, or ends the walk as the specification says |
| `Streams.Stream.Walk` | tap_appstore/streams.py:133-154 | the loop and the final state message write, request and leave exactly what `Drive` says |
| `Streams.Stream.QueryReport` | tap_appstore/streams.py:125-154 | `query_report` writes, requests and leaves exactly what `QueryReportSpec` says |
| `Sync.SelectedOfCount` | tap_appstore/sync.py:14-17 | the inner loop has no `break`: the stream is appended once per qualifying entry, and nothing else is appended |
| `Sync.FieldEntriesIgnored` | tap_appstore/sync.py:16-16 | field-level entries never select a stream |
| `Sync.SelectedAppend` | tap_appstore/sync.py:13-17 | selection keeps catalog order |
| `Sync.SelectedOfMembers` | tap_appstore/sync.py:14-17 | a stream's own appends are not empty exactly when it has a qualifying entry |
| `Sync.SelectedMembers` | tap_appstore/sync.py:11-18 | a stream is selected exactly when it is in the catalog with a stream-level entry whose `selected` is truthy |
| `Sync.GetSelectedStreams` | tap_appstore/sync.py:11-18 | the nested loop computes the selection |
| `Sync.SyncStep` | tap_appstore/sync.py:22-28 | one step of `SyncSpec`, unfolded: the first entry runs, then the rest unless it failed |
| `Sync.SyncEntry` | tap_appstore/sync.py:23-28 | one iteration writes and leaves what `EntrySpec` says |
| `Sync.RunEntry` | tap_appstore/sync.py:25-28 | a registered entry: its schema, then its stream's `query_report` on the shared state |
| `Sync.Sync` | tap_appstore/sync.py:21-28 | `sync` writes, leaves and fails as `SyncSpec` says over the selected entries |
| `Sync.ResumeResume` | tap_appstore/sync.py:22-28 | output written in two stretches is the same as in one |
| `Sync.Names` | tap_appstore/sync.py:23-23 | the names of the entries, in order |
| `Sync.SchemasAppend` | tap_appstore/sync.py:27-27 | the schemas written add up over consecutive output |
| `Sync.SchemasOwn` | tap_appstore/sync.py:28-28 | a stream's `query_report` writes no schema |
| `Sync.LastSchemaAppend` | tap_appstore/sync.py:27-27 | the last schema of joined output is the later part's, if any |
| `Sync.LastSchemaOwn` | tap_appstore/sync.py:28-28 | a stream's `query_report` writes no schema |
| `Sync.FramedEntry` | tap_appstore/sync.py:27-28 | a schema followed by its stream's messages puts every record under its own schema |
| `Sync.FramedAppend` | tap_appstore/sync.py:22-28 | framed output stays framed when framed output that opens with a schema follows it |
| `Sync.EntryShapeHolds` | tap_appstore/sync.py:23-28 | an unregistered name fails before anything is written for it; otherwise the schema comes first, then only the stream's own messages |
| `Sync.DispatchStop` | tap_appstore/sync.py:25-25 | a failing first entry ends the run there |
| `Sync.DispatchCons` | tap_appstore/sync.py:22-28 | one more entry in front keeps the dispatch properties |
| `Sync.EntryThenRest` | tap_appstore/sync.py:27-28 | a registered entry's output then the rest: one more schema, still framed |
| `Sync.SchemasPrefixCons` | tap_appstore/sync.py:22-27 | one more written schema in front keeps the schemas a prefix of the entries |
| `Sync.NamesCons` | tap_appstore/sync.py:22-23 | one more name in front of a prefix of names |
| `Sync.SyncDispatch` | tap_appstore/sync.py:21-28 | `sync` writes the schemas of a prefix of the selected entries, in order, all of them when nothing failed; an unregistered name fails at the first entry whose schema was not written; every record sits under its own stream's schema |
| `Sync.DispatchStep` | tap_appstore/sync.py:22-28 | the first entry's outcome, then the stop or the rest's dispatch |
| `Tap.TemplateRevisions` | tap_appstore/__init__.py:32-57 | every report kind of this table is a sales stream of the class-based one with the same type, frequency and sub-type; the versions differ exactly for the subscription event and subscription reports |
| `Tap.RequestFields` | tap_appstore/__init__.py:166-179 | a stream outside the table raises; otherwise exactly the report date, the vendor as text and the stream's four fixed fields |
| `Tap.RequestFieldsRevisions` | tap_appstore/__init__.py:166-179 | for a daily window the two revisions send the same keys, the same values except the version, and the same fields where their tables agree |
| `Tap.AttemptDownload` | tap_appstore/__init__.py:199-211 | an APIError and a JSON reply both give `None`; report text is parsed with `tsv_to_list` |
| `Tap.DownloadRevisions` | tap_appstore/__init__.py:199-211 | both revisions parse a reply alike, but where this one gives `None` the class-based one ends the run |
| `Tap.BookmarkTextReadBack` | tap_appstore/__init__.py:276-280 | the stored value wins over the configured one, and a value written for a stream is what it reads back, whatever the others hold |
| `Tap.LoadStartRevisions` | tap_appstore/__init__.py:219-219 | on texts in the bookmark form, this revision loads a start as the class-based one loads a daily bookmark; other texts are not read by the model (see Left out) |
| `Tap.LookBackRoom` | tap_appstore/__init__.py:232-235 | when the start is 365 days or more before the clock, the day 365 days back exists and is not before the start |
| `Tap.LookBack` | tap_appstore/__init__.py:231-235 | the walk never starts before the loaded start nor more than 365 days before the clock; it moves only when the gap is 365 whole days or more, and then to exactly 365 days back |
| `Tap.LookBackDays` | tap_appstore/__init__.py:231-236 | on a look-back run the walk covers 365 days when the clock reading equals the extraction time, and 364 when it is read later, less than a day later |
| `Tap.DayRecordFields` | tap_appstore/__init__.py:248-252 | a record has the line's columns and the three synthetic fields, and the synthetic fields win over columns of the same name |
| `Tap.DayEvents` | tap_appstore/__init__.py:248-259 | one record per line |
| `Tap.DayEventsCount` | tap_appstore/__init__.py:248-261 | a day with n lines adds n records |
| `Tap.DayRequestsAppend` | tap_appstore/__init__.py:240-241 | one more day adds exactly its request |
| `Tap.StateCountAppend` | tap_appstore/__init__.py:270-273 | state-message counts add up over consecutive output |
| `Tap.NoStates` | tap_appstore/__init__.py:248-259 | records alone hold no state message |
| `Tap.DaysSkipStep` | tap_appstore/__init__.py:243-245 | one step of `DriveDays`, unfolded: a day without a report is requested and skipped with nothing written |
| `Tap.DaysReportStep` | tap_appstore/__init__.py:247-271 | one step of `DriveDays`, unfolded: a day with a report writes its records, the bookmark `day + 1 day` and a state message, then the walk goes on |
| `Tap.DaysPrefixCons` | tap_appstore/__init__.py:236-271 | the requested days stay a prefix with one more day in front |
| `Tap.DaysCountsCons` | tap_appstore/__init__.py:243-271 | the counts of writes, state messages and records hold with one more day in front |
| `Tap.CountsWrites` | tap_appstore/__init__.py:263-268 | one bookmark write per day with a report |
| `Tap.CountsStates` | tap_appstore/__init__.py:270-270 | one state message per bookmark write |
| `Tap.CountsRecords` | tap_appstore/__init__.py:248-261 | one record per report line |
| `Tap.CountsLast` | tap_appstore/__init__.py:273-273 | the final message stays last |
| `Tap.DaysBookmarksSkip` | tap_appstore/__init__.py:243-245 | a skipped day leaves the bookmarks alone |
| `Tap.DriveDaysTrail` | tap_appstore/__init__.py:236-273 | the walk requests a prefix of the days, all unless the request fields raise; one bookmark write and state message per day with a report, none for a skipped day; a closing state message when it goes through; one record per report line; the bookmarks left hold the last value written |
| `Tap.DaysTrailEmpty` | tap_appstore/__init__.py:273-273 | no day: the final state message only |
| `Tap.DaysTrailFail` | tap_appstore/__init__.py:240-240 | a raising first day ends the walk |
| `Tap.DaysTrailSkip` | tap_appstore/__init__.py:243-245 | a skipped day keeps the walk's properties |
| `Tap.DaysTrailReport` | tap_appstore/__init__.py:247-271 | a day with a report keeps the walk's properties |
| `Tap.DayStep` | tap_appstore/__init__.py:248-270 | a day with n lines writes n records and one state message |
| `Tap.KnownStreamWalks` | tap_appstore/__init__.py:236-271 | a stream in the table never fails in the loop and requests every day |
| `Tap.UnknownStreamStops` | tap_appstore/__init__.py:173-175 | a stream outside the table raises at the first day with nothing requested or written; with no day to walk it goes through |
| `Tap.DriveDaysOwn` | tap_appstore/__init__.py:236-273 | the walk writes only its own stream's records and state messages |
| `Tap.DayOwn` | tap_appstore/__init__.py:248-270 | one day's messages are the stream's own |
| `Tap.QueryDaysTrail` | tap_appstore/__init__.py:214-273 | the start is the first bookmark written, then one per day with a report; a known stream requests every day from the look-back start up to the extraction time; an unknown one requests nothing and fails once there is a day to walk; one state message per day with a report plus a closing one; one record per report line; the bookmarks end at the last value written |
| `Tap.TrailWithStart` | tap_appstore/__init__.py:219-228 | the walk's properties with the start bookmark written in front |
| `Tap.QueryDaysWindows` | tap_appstore/__init__.py:230-236 | the k-th day requested starts k days after the look-back start, never before the loaded start nor more than 365 days before the clock, and ends by the extraction time |
| `Tap.NoEligibleDay` | tap_appstore/__init__.py:222-236 | with no day to walk: the start bookmark, one state message, no request |
| `Tap.QueryDaysOwn` | tap_appstore/__init__.py:214-273 | `query_report` writes only its own stream's records and state messages, and fails only for a missing or malformed start or a stream outside the table |
| `Tap.QueryDaysOpen` | tap_appstore/__init__.py:219-236 | one step of `QueryDaysSpec`, unfolded: from a start it could load, `query_report` is the walk of the days from the look-back start, with the start bookmark in front |
| `Tap.DaysFailure` | tap_appstore/__init__.py:173-175 | the only failure of the day walk is a stream outside the table |
| `Tap.StreamMapDomain` | tap_appstore/__init__.py:72-72 | a name is in the map exactly when some catalog entry has it |
| `Tap.StreamMapLast` | tap_appstore/__init__.py:72-72 | a name maps to the last catalog entry that has it |
| `Tap.StreamLevelLast` | tap_appstore/__init__.py:84-85 | the last stream-level entry gives the stream-level metadata |
| `Tap.StreamLevelNone` | tap_appstore/__init__.py:84-85 | without a stream-level entry there is no stream-level metadata |
| `Tap.LevelFlagMarked` | tap_appstore/__init__.py:80-86 | with at most one stream-level entry, its `selected` is truthy exactly when the class-based revision would mark the stream |
| `Tap.SelectionRevisions` | tap_appstore/__init__.py:80-86 | a stream whose name is its own and which has at most one stream-level entry is selected alike by both revisions |
| `Tap.SelectionRevisionsDiffer` | tap_appstore/__init__.py:80-86 | a stream whose first stream-level entry selects it and whose second deselects it is selected by `get_selected_streams` but not by `is_selected` |
| `Tap.DaysWindowReport` | tap_appstore/__init__.py:247-271 | an eligible day with a report, as the walk takes it |
| `Tap.DaysWindowSkip` | tap_appstore/__init__.py:243-245 | an eligible day without a report is skipped |
| `Tap.DaysWindowFail` | tap_appstore/__init__.py:240-240 | an eligible day whose request fields raise ends the walk with nothing written |
| `Tap.DaysWindowDone` | tap_appstore/__init__.py:236-273 | no eligible day: the final state message only |
| `Tap.DaysAdvance` | tap_appstore/__init__.py:247-271 | after a day with a report, what is done so far grows by that day's records, state message, bookmark write and request |
| `Tap.CountsAdd` | tap_appstore/__init__.py:261-261 | adding n records to a count after c of them makes c + n |
| `Tap.TapSyncStep` | tap_appstore/__init__.py:184-196 | one step of `TapSyncSpec`, unfolded: the entry runs, then the rest unless it failed |
| `Tap.TapSyncDone` | tap_appstore/__init__.py:184-184 | one step of `TapSyncSpec`, unfolded: past the last catalog entry the run writes nothing more and goes through |
| `Tap.TapEntryShape` | tap_appstore/__init__.py:182-194 | an unselected entry writes nothing and leaves the bookmarks alone; a selected one writes its schema first, then only its own stream's records and state messages |
| `Tap.TapSyncFramed` | tap_appstore/__init__.py:182-194 | every record `sync` writes follows the schema of its own stream, the last schema written before it, and the output opens with a schema |
| `Tap.Context.constructor` | tap_appstore/__init__.py:60-67 | the context starts with no stream map and no counts |
| `Tap.Context.GetCatalogEntry` | tap_appstore/__init__.py:69-73 | afterwards the map is the catalog's map, built on first use and kept once built; the entry is the catalog's last one of that name, or none |
| `Tap.Context.IsSelected` | tap_appstore/__init__.py:80-86 | `False` for a name the catalog lacks, else the stream-level `selected` value; afterwards the map is the catalog's map |
| `Tap.Context.WriteDayRecords` | tap_appstore/__init__.py:248-261 | appends the day's records and adds their number to the stream's new count |
| `Tap.Context.FetchDay` | tap_appstore/__init__.py:240-241 | the request fields (which may raise) and, when they do not, one request and what comes of it |
| `Tap.Context.RecordDay` | tap_appstore/__init__.py:248-270 | a day with a report: its records, the bookmark `day + 1 day`, a state message, and the count grown by its lines |
| `Tap.Context.AdvanceDay` | tap_appstore/__init__.py:236-271 | one loop turn keeps the walk's invariant one day further on, or ends the walk when the request fields raise |
| `Tap.Context.AdvanceReported` | tap_appstore/__init__.py:247-271 | the loop turn of a day with a report keeps the walk's invariant |
| `Tap.Context.WalkDays` | tap_appstore/__init__.py:236-273 | the loop and the final state message write, request, count and leave exactly what the walk says |
| `Tap.Context.QueryFromStart` | tap_appstore/__init__.py:222-273 | from a loaded start: the start bookmark written first, then the walk of the days from the look-back start; the logs, bookmarks and count are those of that walk |
| `Tap.Context.QueryReport` | tap_appstore/__init__.py:214-273 | `query_report` writes, requests, counts and leaves exactly what `QueryDaysSpec` says |
| `Tap.Context.SyncEntryAt` | tap_appstore/__init__.py:185-196 | a stream that is not selected is skipped; a selected one gets its schema, counts from zero and its `query_report`, its new count then the records it wrote |
| `Tap.Context.SyncTurn` | tap_appstore/__init__.py:184-196 | one loop turn of `sync`: the run ends here as the specification says, or goes on from the next entry with this entry's output added |
| `Tap.Context.Sync` | tap_appstore/__init__.py:182-196 | `sync` writes, leaves and fails as `TapSyncSpec` says, the catalog entries in order on the one shared state |

## Left out

- Time zones: `astimezone()` and local time are not modelled. Every date-time lies on one fixed UTC timeline without daylight saving, and `%z` is written as that timeline's offset.
- Years above 9999: Python's `datetime` stops at year 9999, and the model has no upper bound. `TimeFormat.BookmarkRoundTrip` and `Streams.BookmarkReadBack` require `year <= 9999`, because a longer year does not fit the four-digit field.
- Microseconds: `datetime` values carry none here, and each clock reading is a whole second. In the single-module revision this loses an effect of the look-back. There, `now` (`tap_appstore/__init__.py:231`) is read after the extraction time (line 221), so on a look-back run `now - 365 days + 365 days` is later than the extraction time and the day before `now` is never requested. With sub-second readings the source requests 364 days and leaves the bookmark one day before `now`, at the time of day of the readings. The model, given two whole-second readings, either requests 365 days (equal readings) or keeps the day count but shifts the time of day of every bookmark by the gap (see `Tap.LookBackDays`). No pair of whole-second readings gives both the source's day count and its bookmark texts.
- `TimeFormat.ParseBookmark`: reads only the zero-padded 20-character form that `strftime` writes. Python's `strptime` also accepts unpadded fields, so the model rejects some texts the source would read.
- `Tap.LoadStart`: reads only the bookmark form too. The single-module revision loads its start with singer's `strptime_to_utc` (`tap_appstore/__init__.py:219`), a general date parser followed by a conversion to UTC. It reads texts such as `2023-05-01`, `2023-05-01T02:00:00+02:00` or a text with fractional seconds, all of which the class-based `strptime` (`tap_appstore/streams.py:79`) rejects. The model fails on them with `MalformedBookmark`, so the two revisions load alike in the model (`Tap.LoadStartRevisions`) but not on those texts in the source.
- `Text.Lower`: lowers ASCII letters only. Python's `str.lower` also lowers other Unicode letters.
- `singer.Transformer.transform` is modelled as the identity: the schema-driven coercion of record values is not part of this model.
- Logging is left out, including `Context.print_counts` and the error logged for a sales name without a request template. So are the wire format of the schema, record and state messages.
- The command line, `main`, `discover`, `load_schemas`, `tap_appstore/discover.py`, `tap_appstore/schema.py` and `setup.py`: they are process and file-system plumbing.
- `Context.get_schema` (`tap_appstore/__init__.py:75-78`) is not called anywhere in the core.
- `Context.updated_counts` is only ever reset to zero for each selected stream, and the model states no more about it.
- A bookmark stored as JSON `null`, and any other value that is not text in the state or the configuration, is not modelled: stored bookmarks are text or absent.
- The HTTP and authentication of the reporting client are left out. The service is a fixed function of the request.
- Each clock reading is a parameter. In the single-module revision, the look-back reads a second clock value (`now`) next to the extraction time. The model keeps them as two parameters.
- `Tap.Context.Sync`: states the messages written, the bookmarks left and the failure. It does not state the counts or the requests. The per-entry counts are stated by `Tap.Context.SyncEntryAt`, and the requests by `Tap.Context.QueryReport`.
- `Sync.Sync`: states the messages, the bookmarks and the failure, but not the requests. The requests are stated per stream by `Streams.Stream.QueryReport`.
- `Sync.SyncEntry`: states the messages, the bookmarks and the failure of one entry, but not its requests.
- In the class-based revision, an API error makes `_attempt_download_report` return `None`, and `query_report` then cannot iterate it. The method's docstring and the connector's documentation say the error is only logged and the window skipped. The code ends the run instead (a `TypeError` from `enumerate(None)`), and the model follows the code: such a window ends the run with `NoReport`. A JSON reply also ends the run, as `parse_api_response` raises.
