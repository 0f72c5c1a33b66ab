/**
 * The dispatch of the class-based revision (tap_appstore/sync.py): pick the
 * catalog streams whose stream-level metadata marks them selected, then for
 * each, in catalog order, look its class up in the registry, write its
 * schema and run its `query_report` over the one shared state.
 */
module Sync {
  import opened Wrappers
  import opened Calendar
  import opened Singer
  import opened Vendor
  import opened Streams
  import Text

  /** A stream-level entry (empty breadcrumb) whose `selected` is present and truthy. */
  predicate Qualifies(e: MetadataEntry) {
    e.breadcrumb == [] && "selected" in e.metadata && Truthy(e.metadata["selected"])
  }

  /** What the inner loop appends for one stream: the stream once per qualifying entry. */
  function SelectedOf(s: CatalogEntry, md: seq<MetadataEntry>): seq<CatalogEntry>
    decreases |md|
  {
    if md == [] then []
    else SelectedOf(s, md[..|md| - 1]) + (if Qualifies(md[|md| - 1]) then [s] else [])
  }

  /** What `get_selected_streams` returns for the catalog streams `catalog`. */
  function Selected(catalog: seq<CatalogEntry>): seq<CatalogEntry>
    decreases |catalog|
  {
    if catalog == [] then []
    else Selected(catalog[..|catalog| - 1]) + SelectedOf(catalog[|catalog| - 1], catalog[|catalog| - 1].metadata)
  }

  /** The positions of the qualifying entries of `md`. */
  function QualifyingAt(md: seq<MetadataEntry>): set<int> {
    set i | 0 <= i < |md| && Qualifies(md[i])
  }

  /**
   * The inner loop has no `break`: a stream is appended once for each of its
   * qualifying entries, and nothing else is appended.
   */
  lemma {:induction false} SelectedOfCount(s: CatalogEntry, md: seq<MetadataEntry>)
    ensures |SelectedOf(s, md)| == |QualifyingAt(md)|
    ensures forall x :: x in SelectedOf(s, md) ==> x == s
    decreases |md|
  {
    if md != [] {
      var init := md[..|md| - 1];
      SelectedOfCount(s, init);
      var n := |md| - 1;
      if Qualifies(md[n]) {
        assert QualifyingAt(md) == QualifyingAt(init) + {n};
        assert n !in QualifyingAt(init);
      } else {
        assert QualifyingAt(md) == QualifyingAt(init);
      }
    }
  }

  /** Field-level entries (non-empty breadcrumb) never select a stream. */
  lemma FieldEntriesIgnored(s: CatalogEntry, md: seq<MetadataEntry>)
    requires forall i :: 0 <= i < |md| ==> md[i].breadcrumb != []
    ensures SelectedOf(s, md) == []
  {
    SelectedOfCount(s, md);
    assert QualifyingAt(md) == {};
  }

  /** Selection keeps catalog order: the selection of two parts is the two selections in turn. */
  lemma {:induction false} SelectedAppend(a: seq<CatalogEntry>, b: seq<CatalogEntry>)
    ensures Selected(a + b) == Selected(a) + Selected(b)
    decreases |b|
  {
    if b == [] {
      assert a + b == a;
    } else {
      var init, last := b[..|b| - 1], b[|b| - 1];
      SelectedAppend(a, init);
      assert (a + b)[..|a + b| - 1] == a + init;
      assert (a + b)[|a + b| - 1] == last;
      Text.Associative(Selected(a), Selected(init), SelectedOf(last, last.metadata));
    }
  }

  /** The stream has a qualifying metadata entry. */
  predicate Marked(s: CatalogEntry) {
    exists j :: 0 <= j < |s.metadata| && Qualifies(s.metadata[j])
  }

  /** A stream's own appends are non-empty exactly when it has a qualifying entry. */
  lemma SelectedOfMembers(s: CatalogEntry, x: CatalogEntry)
    ensures x in SelectedOf(s, s.metadata) <==> x == s && Marked(s)
  {
    SelectedOfCount(s, s.metadata);
    if Marked(s) {
      var j :| 0 <= j < |s.metadata| && Qualifies(s.metadata[j]);
      assert j in QualifyingAt(s.metadata);
      assert SelectedOf(s, s.metadata)[0] in SelectedOf(s, s.metadata);
    } else {
      assert QualifyingAt(s.metadata) == {};
    }
  }

  /**
   * A stream is selected exactly when it is in the catalog with a
   * qualifying metadata entry.
   */
  lemma {:induction false} SelectedMembers(catalog: seq<CatalogEntry>, x: CatalogEntry)
    ensures x in Selected(catalog) <==> x in catalog && Marked(x)
    decreases |catalog|
  {
    if catalog != [] {
      var init, last := catalog[..|catalog| - 1], catalog[|catalog| - 1];
      SelectedMembers(init, x);
      SelectedOfMembers(last, x);
      assert catalog == init + [last];
    }
  }

  /** `get_selected_streams`: the nested loop over the catalog and each stream's metadata. */
  method GetSelectedStreams(catalog: seq<CatalogEntry>) returns (selected: seq<CatalogEntry>)
    ensures selected == Selected(catalog)
  {
    selected := [];
    for i := 0 to |catalog|
      invariant selected == Selected(catalog[..i])
    {
      var stream := catalog[i];
      ghost var before := selected;
      for j := 0 to |stream.metadata|
        invariant selected == before + SelectedOf(stream, stream.metadata[..j])
      {
        var entry := stream.metadata[j];
        assert stream.metadata[..j + 1][..j] == stream.metadata[..j];
        if entry.breadcrumb == [] && "selected" in entry.metadata && Truthy(entry.metadata["selected"]) {
          selected := selected + [stream];
        }
      }
      assert stream.metadata[..|stream.metadata|] == stream.metadata;
      assert catalog[..i + 1][..i] == catalog[..i];
    }
    assert catalog[..|catalog|] == catalog;
  }

  /** What a run of `sync` leaves: the messages written, the bookmarks, and the failure that ended it. */
  datatype SyncOutcome = SyncOutcome(events: seq<Event>, bookmarks: Bookmarks, failure: Option<Failure>)

  /**
   * One iteration of `sync` for entry `e` at clock reading `extraction` from
   * bookmarks `b`: a name the registry lacks raises before its schema is
   * written; otherwise the schema, then the stream's `query_report`.
   */
  function EntrySpec(e: CatalogEntry, config: Config, respond: (Endpoint, Filters) -> Response,
                     extraction: DateTime, b: Bookmarks): SyncOutcome
  {
    match Registry(e.tapStreamId)
    case None => SyncOutcome([], b, Some(UnregisteredStream(e.tapStreamId)))
    case Some(f) =>
      var run := QueryReportSpec(e.tapStreamId, f, config, extraction, Fetcher(respond, f, e.tapStreamId, config.vendor), b);
      SyncOutcome([SchemaMsg(e.tapStreamId, e.schema, e.keyProperties)] + run.events, run.bookmarks, run.failure)
  }

  /**
   * `sync` over the selected entries `entries`, the `k`-th of the run
   * extracting at `now(k)`, from bookmarks `b`: the entries in turn on the
   * one shared state; a failure ends the run.
   */
  function SyncSpec(entries: seq<CatalogEntry>, config: Config, respond: (Endpoint, Filters) -> Response,
                    now: nat -> DateTime, k: nat, b: Bookmarks): SyncOutcome
    decreases |entries|
  {
    if entries == [] then SyncOutcome([], b, None)
    else
      var one := EntrySpec(entries[0], config, respond, now(k), b);
      if one.failure.Some? then one
      else Resume(one.events, SyncSpec(entries[1..], config, respond, now, k + 1, one.bookmarks))
  }

  /** `run` with `events` already written in front of it. */
  function Resume(events: seq<Event>, run: SyncOutcome): SyncOutcome {
    SyncOutcome(events + run.events, run.bookmarks, run.failure)
  }

  /**
   * `sync`: for each selected entry in turn, look its class up (a missing
   * name raises before anything is written for it), write the schema, and
   * run `query_report` at the clock reading `now(i)`.
   */
  method Sync(api: Client, config: Config, state: State, out: Output, catalog: seq<CatalogEntry>, now: nat -> DateTime)
    returns (failure: Option<Failure>)
    modifies state, api, out
    ensures var total := SyncSpec(Selected(catalog), config, api.respond, now, 0, old(state.bookmarks));
      && out.events == old(out.events) + total.events
      && state.bookmarks == total.bookmarks
      && failure == total.failure
  {
    var selected := GetSelectedStreams(catalog);
    ghost var total := SyncSpec(selected, config, api.respond, now, 0, state.bookmarks);
    ghost var emitted: seq<Event> := [];
    var i := 0;
    while i < |selected|
      invariant 0 <= i <= |selected|
      invariant out.events == old(out.events) + emitted
      invariant total == Resume(emitted, SyncSpec(selected[i..], config, api.respond, now, i, state.bookmarks))
    {
      var entry := selected[i];
      ghost var one := EntrySpec(entry, config, api.respond, now(i), state.bookmarks);
      SyncStep(selected[i..], config, api.respond, now, i, state.bookmarks);
      assert selected[i..][0] == entry && selected[i..][1..] == selected[i + 1..];
      failure := SyncEntry(api, config, state, out, entry, now(i));
      Text.Associative(old(out.events), emitted, one.events);
      if failure.Some? {
        return;
      }
      ResumeResume(emitted, one.events, SyncSpec(selected[i + 1..], config, api.respond, now, i + 1, state.bookmarks));
      emitted := emitted + one.events;
      i := i + 1;
    }
    assert emitted + [] == emitted;
    failure := None;
  }

  /** One step of `SyncSpec`: the first entry's iteration, then the rest unless it failed. */
  lemma SyncStep(entries: seq<CatalogEntry>, config: Config, respond: (Endpoint, Filters) -> Response,
                 now: nat -> DateTime, k: nat, b: Bookmarks)
    requires entries != []
    ensures var one := EntrySpec(entries[0], config, respond, now(k), b);
      SyncSpec(entries, config, respond, now, k, b) ==
        if one.failure.Some? then one
        else Resume(one.events, SyncSpec(entries[1..], config, respond, now, k + 1, one.bookmarks))
  {
  }

  /** The body of `sync`'s loop for one selected entry. */
  method SyncEntry(api: Client, config: Config, state: State, out: Output, entry: CatalogEntry, extraction: DateTime)
    returns (failure: Option<Failure>)
    modifies state, api, out
    ensures var one := EntrySpec(entry, config, api.respond, extraction, old(state.bookmarks));
      && out.events == old(out.events) + one.events
      && state.bookmarks == one.bookmarks
      && failure == one.failure
  {
    var name := entry.tapStreamId;
    var family := Registry(name);
    if family.None? {
      return Some(UnregisteredStream(name));
    }
    failure := RunEntry(api, config, state, out, entry, family.value, extraction);
  }

  /** A registered entry: build its stream object, write the schema, run `query_report`. */
  method RunEntry(api: Client, config: Config, state: State, out: Output, entry: CatalogEntry, f: Family,
                  extraction: DateTime)
    returns (failure: Option<Failure>)
    modifies state, api, out
    ensures var run := QueryReportSpec(entry.tapStreamId, f, config, extraction,
                                       Fetcher(api.respond, f, entry.tapStreamId, config.vendor), old(state.bookmarks));
      && out.events == old(out.events) + ([SchemaMsg(entry.tapStreamId, entry.schema, entry.keyProperties)] + run.events)
      && state.bookmarks == run.bookmarks
      && failure == run.failure
  {
    ghost var events0, b := out.events, state.bookmarks;
    var stream := new Stream(entry.tapStreamId, f, api, config, state, out);
    out.Write(SchemaMsg(entry.tapStreamId, entry.schema, entry.keyProperties));
    ghost var events1 := out.events;
    failure := stream.QueryReport(entry.schema, extraction);
    Text.Associative(events0, [SchemaMsg(entry.tapStreamId, entry.schema, entry.keyProperties)],
                QueryReportSpec(entry.tapStreamId, f, config, extraction, Fetcher(api.respond, f, entry.tapStreamId, config.vendor), b).events);
  }

  lemma ResumeResume(e1: seq<Event>, e2: seq<Event>, run: SyncOutcome)
    ensures Resume(e1, Resume(e2, run)) == Resume(e1 + e2, run)
  {
    assert e1 + (e2 + run.events) == e1 + e2 + run.events;
  }

  /** The streams whose schemas `events` writes, in order. */
  function Schemas(events: seq<Event>): seq<string>
    decreases |events|
  {
    if events == [] then []
    else (if events[0].SchemaMsg? then [events[0].stream] else []) + Schemas(events[1..])
  }

  /** The stream names of `entries`, in order. */
  function Names(entries: seq<CatalogEntry>): (r: seq<string>)
    ensures |r| == |entries| && forall k :: 0 <= k < |entries| ==> r[k] == entries[k].tapStreamId
  {
    seq(|entries|, k requires 0 <= k < |entries| => entries[k].tapStreamId)
  }

  /** The stream of the last schema message in `events`, if any. */
  function LastSchema(events: seq<Event>): Option<string>
    decreases |events|
  {
    if events == [] then None
    else if events[|events| - 1].SchemaMsg? then Some(events[|events| - 1].stream)
    else LastSchema(events[..|events| - 1])
  }

  /** Every record is written under the schema of its own stream, the last one written before it. */
  ghost predicate Framed(events: seq<Event>) {
    forall p :: 0 <= p < |events| && events[p].RecordMsg? ==> LastSchema(events[..p]) == Some(events[p].stream)
  }

  /** Output that is empty or opens with a schema message. */
  ghost predicate Opens(events: seq<Event>) {
    events == [] || events[0].SchemaMsg?
  }

  lemma {:induction false} SchemasAppend(a: seq<Event>, c: seq<Event>)
    ensures Schemas(a + c) == Schemas(a) + Schemas(c)
    decreases |a|
  {
    if a == [] {
      assert a + c == c;
    } else {
      SchemasAppend(a[1..], c);
      assert (a + c)[1..] == a[1..] + c;
    }
  }

  lemma {:induction false} SchemasOwn(name: string, events: seq<Event>)
    requires OwnEvents(name, events)
    ensures Schemas(events) == []
    decreases |events|
  {
    if events != [] {
      assert OwnEvents(name, events[1..]) by {
        forall k | 0 <= k < |events[1..]| ensures !events[1..][k].SchemaMsg? && (events[1..][k].RecordMsg? ==> events[1..][k].stream == name) {
          assert events[1..][k] == events[k + 1];
        }
      }
      SchemasOwn(name, events[1..]);
    }
  }

  lemma {:induction false} LastSchemaAppend(a: seq<Event>, c: seq<Event>)
    ensures LastSchema(a + c) == if LastSchema(c).Some? then LastSchema(c) else LastSchema(a)
    decreases |c|
  {
    if c == [] {
      assert a + c == a;
    } else {
      LastSchemaAppend(a, c[..|c| - 1]);
      assert (a + c)[..|a + c| - 1] == a + c[..|c| - 1];
    }
  }

  lemma {:induction false} LastSchemaOwn(name: string, events: seq<Event>)
    requires OwnEvents(name, events)
    ensures LastSchema(events) == None
    decreases |events|
  {
    if events != [] {
      var init := events[..|events| - 1];
      assert OwnEvents(name, init) by {
        forall k | 0 <= k < |init| ensures !init[k].SchemaMsg? && (init[k].RecordMsg? ==> init[k].stream == name) {
          assert init[k] == events[k];
        }
      }
      LastSchemaOwn(name, init);
    }
  }

  /** A schema followed by one stream's own messages is framed. */
  lemma FramedEntry(head: Event, own: seq<Event>)
    requires head.SchemaMsg? && OwnEvents(head.stream, own)
    ensures Framed([head] + own) && Opens([head] + own)
  {
    var events := [head] + own;
    forall p | 0 <= p < |events| && events[p].RecordMsg?
      ensures LastSchema(events[..p]) == Some(events[p].stream)
    {
      assert events[p] == own[p - 1];
      var before := own[..p - 1];
      assert OwnEvents(head.stream, before) by {
        forall k | 0 <= k < |before| ensures !before[k].SchemaMsg? && (before[k].RecordMsg? ==> before[k].stream == head.stream) {
          assert before[k] == own[k];
        }
      }
      LastSchemaOwn(head.stream, before);
      LastSchemaAppend([head], before);
      assert events[..p] == [head] + before;
    }
  }

  /** Framed output followed by framed output that opens with a schema is framed. */
  lemma FramedAppend(a: seq<Event>, c: seq<Event>)
    requires Framed(a) && Framed(c) && Opens(c)
    ensures Framed(a + c)
  {
    var events := a + c;
    forall p | 0 <= p < |events| && events[p].RecordMsg?
      ensures LastSchema(events[..p]) == Some(events[p].stream)
    {
      if p < |a| {
        assert events[p] == a[p] && events[..p] == a[..p];
      } else {
        var q := p - |a|;
        assert events[p] == c[q] && events[..p] == a + c[..q];
        LastSchemaAppend(a, c[..q]);
      }
    }
  }

  /**
   * What one iteration writes: nothing and an `UnregisteredStream` failure
   * for a name the registry lacks; otherwise the schema first, then only
   * the stream's own records and state messages, and never that failure.
   */
  ghost predicate EntryShape(e: CatalogEntry, one: SyncOutcome) {
    || (Registry(e.tapStreamId).None? && one.events == [] && one.failure == Some(UnregisteredStream(e.tapStreamId)))
    || (&& Registry(e.tapStreamId).Some?
        && |one.events| > 0 && one.events[0] == SchemaMsg(e.tapStreamId, e.schema, e.keyProperties)
        && OwnEvents(e.tapStreamId, one.events[1..])
        && !(one.failure.Some? && one.failure.value.UnregisteredStream?))
  }

  lemma EntryShapeHolds(e: CatalogEntry, config: Config, respond: (Endpoint, Filters) -> Response,
                        extraction: DateTime, b: Bookmarks)
    ensures EntryShape(e, EntrySpec(e, config, respond, extraction, b))
  {
    match Registry(e.tapStreamId)
    case None =>
    case Some(f) =>
      QueryReportOwn(e.tapStreamId, f, config, extraction, Fetcher(respond, f, e.tapStreamId, config.vendor), b);
      var run := QueryReportSpec(e.tapStreamId, f, config, extraction, Fetcher(respond, f, e.tapStreamId, config.vendor), b);
      assert ([SchemaMsg(e.tapStreamId, e.schema, e.keyProperties)] + run.events)[1..] == run.events;
  }

  /**
   * What a run of `sync` over `entries` writes: the schemas of a prefix of
   * the entries, all of them when nothing failed, each a registered name;
   * an `UnregisteredStream` failure names the first entry whose schema was
   * not written; every record sits under its own stream's schema.
   */
  ghost predicate Dispatch(entries: seq<CatalogEntry>, r: SyncOutcome) {
    && SchemasPrefix(entries, Schemas(r.events), r.failure)
    && (r.failure.Some? && r.failure.value.UnregisteredStream? ==>
          |Schemas(r.events)| < |entries| && entries[|Schemas(r.events)|].tapStreamId == r.failure.value.stream
          && Registry(r.failure.value.stream).None?)
    && Framed(r.events) && Opens(r.events)
  }

  ghost predicate SchemasPrefix(entries: seq<CatalogEntry>, s: seq<string>, failure: Option<Failure>) {
    && |s| <= |entries| && s == Names(entries)[..|s|]
    && (failure.None? ==> |s| == |entries|)
    && (forall k :: 0 <= k < |s| ==> Registry(s[k]).Some?)
  }

  lemma DispatchStop(e: CatalogEntry, es: seq<CatalogEntry>, one: SyncOutcome)
    requires EntryShape(e, one) && one.failure.Some?
    ensures Dispatch([e] + es, one)
  {
    if Registry(e.tapStreamId).Some? {
      SchemasOwn(e.tapStreamId, one.events[1..]);
      assert one.events == [one.events[0]] + one.events[1..];
      SchemasAppend([one.events[0]], one.events[1..]);
      FramedEntry(one.events[0], one.events[1..]);
    }
  }

  lemma DispatchCons(e: CatalogEntry, es: seq<CatalogEntry>, one: SyncOutcome, rest: SyncOutcome)
    requires EntryShape(e, one) && one.failure.None? && Dispatch(es, rest)
    ensures Dispatch([e] + es, Resume(one.events, rest))
  {
    EntryThenRest(e, one.events, rest.events);
    SchemasPrefixCons(e, es, Schemas(rest.events), rest.failure);
    if rest.failure.Some? && rest.failure.value.UnregisteredStream? {
      assert ([e] + es)[|Schemas(rest.events)| + 1] == es[|Schemas(rest.events)|];
    }
  }

  /** A registered entry's output then the rest: one more schema, still framed, still opening with a schema. */
  lemma EntryThenRest(e: CatalogEntry, events: seq<Event>, rest: seq<Event>)
    requires Registry(e.tapStreamId).Some?
    requires |events| > 0 && events[0] == SchemaMsg(e.tapStreamId, e.schema, e.keyProperties)
    requires OwnEvents(e.tapStreamId, events[1..])
    requires Framed(rest) && Opens(rest)
    ensures Schemas(events + rest) == [e.tapStreamId] + Schemas(rest)
    ensures Framed(events + rest) && Opens(events + rest)
  {
    assert events == [events[0]] + events[1..];
    SchemasOwn(e.tapStreamId, events[1..]);
    SchemasAppend([events[0]], events[1..]);
    SchemasAppend(events, rest);
    FramedEntry(events[0], events[1..]);
    FramedAppend(events, rest);
  }

  lemma SchemasPrefixCons(e: CatalogEntry, es: seq<CatalogEntry>, s: seq<string>, failure: Option<Failure>)
    requires Registry(e.tapStreamId).Some? && SchemasPrefix(es, s, failure)
    ensures SchemasPrefix([e] + es, [e.tapStreamId] + s, failure)
  {
    NamesCons(e, es, s);
    var t := [e.tapStreamId] + s;
    assert forall k :: 1 <= k < |t| ==> t[k] == s[k - 1];
  }

  lemma NamesCons(e: CatalogEntry, es: seq<CatalogEntry>, s: seq<string>)
    requires |s| <= |es| && s == Names(es)[..|s|]
    ensures [e.tapStreamId] + s == Names([e] + es)[..|s| + 1]
  {
    var t, u := [e.tapStreamId] + s, Names([e] + es)[..|s| + 1];
    forall k | 0 <= k < |t|
      ensures t[k] == u[k]
    {
      if k > 0 {
        assert t[k] == s[k - 1] == es[k - 1].tapStreamId;
      }
    }
  }

  /** The run of `sync` dispatches as `Dispatch` says. */
  lemma {:induction false} SyncDispatch(entries: seq<CatalogEntry>, config: Config, respond: (Endpoint, Filters) -> Response,
                                        now: nat -> DateTime, k: nat, b: Bookmarks)
    ensures Dispatch(entries, SyncSpec(entries, config, respond, now, k, b))
    decreases |entries|
  {
    if entries != [] {
      var one := EntrySpec(entries[0], config, respond, now(k), b);
      SyncStep(entries, config, respond, now, k, b);
      EntryShapeHolds(entries[0], config, respond, now(k), b);
      if one.failure.None? {
        SyncDispatch(entries[1..], config, respond, now, k + 1, one.bookmarks);
      }
      DispatchStep(entries, one, SyncSpec(entries, config, respond, now, k, b),
                   SyncSpec(entries[1..], config, respond, now, k + 1, one.bookmarks));
    }
  }

  /** The first entry's outcome, then either the stop or the rest's dispatch. */
  lemma DispatchStep(entries: seq<CatalogEntry>, one: SyncOutcome, r: SyncOutcome, rest: SyncOutcome)
    requires entries != [] && EntryShape(entries[0], one)
    requires r == if one.failure.Some? then one else Resume(one.events, rest)
    requires one.failure.None? ==> Dispatch(entries[1..], rest)
    ensures Dispatch(entries, r)
  {
    assert entries == [entries[0]] + entries[1..];
    if one.failure.Some? {
      DispatchStop(entries[0], entries[1..], one);
    } else {
      DispatchCons(entries[0], entries[1..], one, rest);
    }
  }
}
