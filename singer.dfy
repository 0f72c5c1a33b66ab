/**
 * What the connector shares with the Singer library: record values, the
 * messages it emits (schema, record, state), the state object holding the
 * per-stream bookmarks, and the catalog with its selection metadata.  The
 * messages are modelled as events appended to an output log; their wire
 * format is not part of this model.
 */
module Singer {
  import opened Wrappers
  import opened Calendar
  import TimeFormat

  /** A record field value: the report cells are text, `_line_id` is a number. */
  datatype Value = Str(s: string) | Int(i: int)

  /** A record as written: field name to value. */
  type Record = map<string, Value>

  /** `f"{v}"`: a value as text. */
  function Show(v: Value): (r: string)
    ensures v.Str? ==> r == v.s
    ensures v.Int? && 0 <= v.i ==> TimeFormat.AllDigits(r)
  {
    match v
    case Str(s) => s
    case Int(i) => if i < 0 then "-" + TimeFormat.Decimal(-i as nat, 1) else TimeFormat.Decimal(i as nat, 1)
  }

  /** A stream's JSON schema; only its property names matter here. */
  datatype Schema = Schema(properties: seq<string>)

  /** The `bookmarks` part of the state: stream name to its bookmark keys. */
  type Bookmarks = map<string, map<string, string>>

  /** `singer.get_bookmark(state, stream, key)`, None when either level is missing. */
  function GetBookmark(b: Bookmarks, stream: string, key: string): Option<string> {
    if stream in b && key in b[stream] then Some(b[stream][key]) else None
  }

  /** `singer.write_bookmark(state, stream, key, value)`: creates the levels it needs. */
  function SetBookmark(b: Bookmarks, stream: string, key: string, value: string): (r: Bookmarks)
    ensures GetBookmark(r, stream, key) == Some(value)
    ensures forall s, k :: (s != stream || k != key) ==> GetBookmark(r, s, k) == GetBookmark(b, s, k)
    ensures r.Keys == b.Keys + {stream}
  {
    var inner := if stream in b then b[stream] else map[];
    b[stream := inner[key := value]]
  }

  /** One bookmark write, as observed: which stream, which key, which value. */
  datatype BookmarkWrite = BookmarkWrite(stream: string, key: string, value: string)

  /** A message on the output. */
  datatype Event =
    | SchemaMsg(stream: string, schema: Schema, keyProperties: seq<string>)
    | RecordMsg(stream: string, record: Record, timeExtracted: DateTime)
    | StateMsg(bookmarks: Bookmarks)

  /** The number of records among the events. */
  function RecordCount(events: seq<Event>): nat {
    if events == [] then 0
    else RecordCount(events[..|events| - 1]) + (if events[|events| - 1].RecordMsg? then 1 else 0)
  }

  lemma {:induction false} RecordCountAppend(a: seq<Event>, b: seq<Event>)
    ensures RecordCount(a + b) == RecordCount(a) + RecordCount(b)
    decreases |b|
  {
    if b == [] {
      assert a + b == a;
    } else {
      var init := b[..|b| - 1];
      RecordCountAppend(a, init);
      assert (a + b)[..|a + b| - 1] == a + init;
    }
  }

  /** Events that are all records count as many records as they are long. */
  lemma {:induction false} AllRecords(events: seq<Event>)
    requires forall k :: 0 <= k < |events| ==> events[k].RecordMsg?
    ensures RecordCount(events) == |events|
    decreases |events|
  {
    if events != [] {
      AllRecords(events[..|events| - 1]);
    }
  }

  /**
   * The state object shared by every stream of a run.  `writes` is the
   * observed history of `write_bookmark` calls on it.
   */
  class State {
    var bookmarks: Bookmarks
    ghost var writes: seq<BookmarkWrite>

    constructor (b: Bookmarks)
      ensures bookmarks == b && writes == []
    {
      bookmarks := b;
      writes := [];
    }

    method WriteBookmark(stream: string, key: string, value: string)
      modifies this
      ensures bookmarks == SetBookmark(old(bookmarks), stream, key, value)
      ensures writes == old(writes) + [BookmarkWrite(stream, key, value)]
    {
      bookmarks := SetBookmark(bookmarks, stream, key, value);
      writes := writes + [BookmarkWrite(stream, key, value)];
    }
  }

  /** Standard output, as the sequence of messages written to it. */
  class Output {
    var events: seq<Event>

    constructor ()
      ensures events == []
    {
      events := [];
    }

    method Write(e: Event)
      modifies this
      ensures events == old(events) + [e]
    {
      events := events + [e];
    }
  }

  /** A metadata value as it appears in the catalog's JSON. */
  datatype Meta = MNull | MBool(b: bool) | MInt(i: int) | MStr(s: string)

  /** Python truthiness of a metadata value. */
  predicate Truthy(m: Meta) {
    match m
    case MNull => false
    case MBool(b) => b
    case MInt(i) => i != 0
    case MStr(s) => s != ""
  }

  /** One catalog metadata entry; the stream itself has the empty breadcrumb. */
  datatype MetadataEntry = MetadataEntry(breadcrumb: seq<string>, metadata: map<string, Meta>)

  datatype CatalogEntry = CatalogEntry(
    tapStreamId: string,
    schema: Schema,
    keyProperties: seq<string>,
    metadata: seq<MetadataEntry>)

  /** The connector's configuration: the vendor number and the default start date, if any. */
  datatype Config = Config(vendor: Value, startDate: Option<string>)

  /** Why a run stops: every one of these is an exception that ends the whole run. */
  datatype Failure =
    | MissingStartDate(stream: string)
    | MalformedBookmark(text: string)
    | JsonResponse
    | NoReport
    | UnknownStream(stream: string)
    | UnregisteredStream(stream: string)

  /**
   * What one stream's extraction leaves behind: the messages it wrote, the
   * bookmarks afterwards, the bookmark values it wrote, the windows it
   * requested, and the failure that ended it, if any.
   */
  datatype Outcome = Outcome(
    events: seq<Event>,
    bookmarks: Bookmarks,
    writes: seq<string>,
    fetched: seq<DateTime>,
    failure: Option<Failure>)

  /** The observed bookmark writes of one stream, under the `start_date` key. */
  function StartDateWrites(stream: string, values: seq<string>): seq<BookmarkWrite> {
    seq(|values|, k requires 0 <= k < |values| => BookmarkWrite(stream, "start_date", values[k]))
  }

  lemma StartDateWritesAppend(stream: string, values: seq<string>, v: string)
    ensures StartDateWrites(stream, values + [v]) == StartDateWrites(stream, values) + [BookmarkWrite(stream, "start_date", v)]
  {
    var r := StartDateWrites(stream, values + [v]);
    assert forall k :: 0 <= k < |values| ==> r[k] == StartDateWrites(stream, values)[k];
  }

  lemma StartDateWritesCons(stream: string, v: string, values: seq<string>)
    ensures StartDateWrites(stream, [v] + values) == [BookmarkWrite(stream, "start_date", v)] + StartDateWrites(stream, values)
  {
    var r := StartDateWrites(stream, [v] + values);
    assert forall k :: 1 <= k < |r| ==> r[k] == StartDateWrites(stream, values)[k - 1];
  }
}
