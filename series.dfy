/**
 * The request bodies of the alignment and export endpoints: validation and normalisation of the
 * `series` list, the choice between proxying to the platform (route A) and gathering per source
 * (route B), and the grouping of series by source.
 */
module TimeseriesSeries {
  import opened Wrappers
  import opened PyStrings
  import opened Json
  import opened SourceNames

  /** A normalised series: `{"entity_id": str(eid), "attribute": str(attr), "source": source}`. */
  datatype SeriesRef = SeriesRef(entityId: Value, attribute: string, source: string)

  /**
   * `item.get("source") or "timescale"`, then `str(source).strip().lower() or "timescale"` when it
   * has a `strip` method (only strings do), else `timescale`. A falsy source becomes the string
   * `"timescale"`, which stripping and lower-casing leave as it is (`TimescaleNormalised`).
   */
  function NormSource(v: Value): (s: string)
    ensures s != ""
    ensures !(v.Str? && v.s != "") ==> s == "timescale"
    ensures v.Str? && Lower(Strip(v.s)) != "" ==> s == Lower(Strip(v.s))
  {
    if v.Str? && v.s != "" then
      var t := Lower(Strip(v.s));
      if t == "" then "timescale" else t
    else "timescale"
  }

  /** Normalising a source gives a normalised source, and normalising it again changes nothing. */
  lemma NormSourceNormalised(v: Value)
    ensures NormalisedSource(NormSource(v))
    ensures NormSource(Str(NormSource(v))) == NormSource(v)
  {
    if v.Str? && Lower(Strip(v.s)) != "" {
      StripLowerIdempotent(v.s);
    } else {
      TimescaleNormalised();
    }
  }

  /** Why an item of `series` is rejected. */
  datatype ItemError = NotAnObject | MissingField

  /** One item of `series`: an object with truthy `entity_id` and `attribute`. */
  function CheckItem(item: Value): Result<SeriesRef, ItemError> {
    if !item.Obj? then Err(NotAnObject)
    else
      var eid := Get(item, "entity_id");
      var attr := Get(item, "attribute");
      if !Truthy(eid) || !Truthy(attr) then Err(MissingField)
      else Ok(SeriesRef(Str(PyStr(eid)), PyStr(attr), NormSource(Get(item, "source"))))
  }

  /**
   * An item is accepted exactly when it is an object with truthy `entity_id` and `attribute`; the
   * accepted series holds both stringified and the normalised source.
   */
  lemma CheckItemSpec(item: Value)
    ensures CheckItem(item) == Err(NotAnObject) <==> !item.Obj?
    ensures CheckItem(item) == Err(MissingField) <==>
      item.Obj? && !(Truthy(Get(item, "entity_id")) && Truthy(Get(item, "attribute")))
    ensures CheckItem(item).Ok? ==>
      && CheckItem(item).value.entityId == Str(PyStr(Get(item, "entity_id")))
      && CheckItem(item).value.attribute == PyStr(Get(item, "attribute"))
      && CheckItem(item).value.source == NormSource(Get(item, "source"))
      && NormalisedSource(CheckItem(item).value.source)
  {
    if item.Obj? {
      NormSourceNormalised(Get(item, "source"));
    }
  }

  /** The 400 message naming the rejected item's index. */
  function ItemErrorMessage(e: ItemError, i: nat): string {
    match e
    case NotAnObject => "series[" + NatToString(i) + "] must be an object"
    case MissingField => "series[" + NatToString(i) + "] must have entity_id and attribute"
  }

  /** The check of every item, in order. */
  function Checks(raw: seq<Value>): (cs: seq<Result<SeriesRef, ItemError>>)
    ensures |cs| == |raw|
    ensures forall i :: 0 <= i < |raw| ==> cs[i] == CheckItem(raw[i])
  {
    seq(|raw|, i requires 0 <= i < |raw| => CheckItem(raw[i]))
  }

  /** The 400 reply rejecting item `i`. */
  function ItemRejected(e: ItemError, i: nat): Reply {
    ErrorReply(400, ItemErrorMessage(e, i))
  }

  /** Every item from index `from` on is accepted. */
  predicate AllValid(cs: seq<Result<SeriesRef, ItemError>>, from: nat)
    requires from <= |cs|
  {
    forall j :: from <= j < |cs| ==> cs[j].Ok?
  }

  /** `i` is the first index from `from` on whose item is rejected. */
  predicate FirstInvalid(cs: seq<Result<SeriesRef, ItemError>>, from: nat, i: nat)
    requires from <= |cs|
  {
    from <= i < |cs| && cs[i].Err? && forall j :: from <= j < i ==> cs[j].Ok?
  }

  /**
   * The normalisation loop from index `from` on, given each item's check: the normalised series,
   * or the 400 reply for the first rejected item.
   */
  function NormalizeFrom(cs: seq<Result<SeriesRef, ItemError>>, from: nat): (r: Result<seq<SeriesRef>, Reply>)
    requires from <= |cs|
    ensures r.Ok? <==> AllValid(cs, from)
    ensures r.Ok? ==> |r.value| == |cs| - from
                      && forall j :: from <= j < |cs| ==> r.value[j - from] == cs[j].value
    ensures r.Err? ==>
      exists i: nat :: FirstInvalid(cs, from, i) && r.error == ItemRejected(cs[i].error, i)
    decreases |cs| - from
  {
    if from == |cs| then Ok([])
    else
      match cs[from]
      case Err(e) =>
        assert FirstInvalid(cs, from, from);
        Err(ItemRejected(e, from))
      case Ok(s) =>
        match NormalizeFrom(cs, from + 1)
        case Err(e) =>
          assert exists i: nat :: FirstInvalid(cs, from, i) && e == ItemRejected(cs[i].error, i) by {
            var i: nat :| FirstInvalid(cs, from + 1, i) && e == ItemRejected(cs[i].error, i);
            FirstInvalidShift(cs, from, i);
          }
          Err(e)
        case Ok(rest) =>
          assert forall j :: from < j < |cs| ==> ([s] + rest)[j - from] == cs[j].value;
          Ok([s] + rest)
  }

  /** A rejected item after an accepted one is also the first rejected from the earlier index. */
  lemma FirstInvalidShift(cs: seq<Result<SeriesRef, ItemError>>, from: nat, i: nat)
    requires from < |cs| && cs[from].Ok? && FirstInvalid(cs, from + 1, i)
    ensures FirstInvalid(cs, from, i)
  {
  }

  /** There is at most one first rejected item. */
  lemma FirstInvalidUnique(cs: seq<Result<SeriesRef, ItemError>>, from: nat, i: nat, k: nat)
    requires from <= |cs|
    requires FirstInvalid(cs, from, i) && FirstInvalid(cs, from, k)
    ensures i == k
  {
  }

  /** The normalisation loop of both handlers, stopping at the first rejected item. */
  method NormalizeSeries(raw: seq<Value>) returns (r: Result<seq<SeriesRef>, Reply>)
    ensures r == NormalizeFrom(Checks(raw), 0)
  {
    ghost var cs := Checks(raw);
    var series: seq<SeriesRef> := [];
    for i := 0 to |raw|
      invariant |series| == i
      invariant forall j :: 0 <= j < i ==> cs[j].Ok? && series[j] == cs[j].value
    {
      match CheckItem(raw[i])
      case Err(e) =>
        r := Err(ItemRejected(e, i));
        assert FirstInvalid(cs, 0, i);
        ghost var k: nat :| FirstInvalid(cs, 0, k)
          && NormalizeFrom(cs, 0).error == ItemRejected(cs[k].error, k);
        FirstInvalidUnique(cs, 0, i, k);
        return;
      case Ok(s) =>
        series := series + [s];
    }
    r := Ok(series);
    assert NormalizeFrom(cs, 0).value == series;
  }

  // ---------------------------------------------------------------- request bodies

  /** What a valid alignment request carries on. */
  datatype AlignRequest = AlignRequest(startTime: Value, endTime: Value, resolution: int, series: seq<SeriesRef>)

  /**
   * The checks of the alignment handler, in order. `body` is `None` when the request body is not
   * JSON; a body without `.get` (not an object) or a `resolution` that `int()` rejects raises,
   * which the framework answers with 500.
   */
  function ParseAlign(body: Option<Value>): (r: Result<AlignRequest, Reply>)
    ensures body.None? ==> r == Err(ErrorReply(400, "Invalid JSON body"))
    ensures body.Some? && !body.value.Obj? ==> r == Err(InternalError)
    ensures r.Ok? ==> Truthy(r.value.startTime) && Truthy(r.value.endTime) && |r.value.series| >= 2
  {
    match body
    case None => Err(ErrorReply(400, "Invalid JSON body"))
    case Some(b) =>
      if !b.Obj? then Err(InternalError)
      else
        var startTime := Get(b, "start_time");
        var endTime := Get(b, "end_time");
        match PyInt(GetOr(b, "resolution", Num(1000)))
        case None => Err(InternalError)
        case Some(resolution) =>
          var rawSeries := RawSeries(b);
          if !Truthy(startTime) || !Truthy(endTime) then
            Err(MissingTimes)
          else if !rawSeries.Arr? || |rawSeries.items| < 2 then
            Err(ErrorReply(400, "series must be an array of at least 2 items"))
          else
            match NormalizeFrom(Checks(rawSeries.items), 0)
            case Err(e) => Err(e)
            case Ok(series) => Ok(AlignRequest(startTime, endTime, resolution, series))
  }

  /** `(v or default).strip().lower()`; `None` when the value has no `strip` (Python raises). */
  function StrippedLower(v: Value, default: string): (r: Option<string>)
    ensures !Truthy(v) ==> r == Some(default)
    ensures Truthy(v) ==> (r.Some? <==> v.Str?)
    ensures v.Str? && v.s != "" ==> r == Some(Lower(Strip(v.s)))
  {
    if !Truthy(v) then Some(default)
    else if v.Str? then Some(Lower(Strip(v.s)))
    else None
  }

  /** The default format is already trimmed and lower-case. */
  lemma CsvNormal()
    ensures Lower(Strip("csv")) == "csv"
  {
    var c := "csv";
    assert !IsSpace(c[0]) && !IsSpace(c[|c| - 1]);
    assert RStrip(c) == c;
    assert LStrip(c) == c;
    assert forall i :: 0 <= i < |c| ==> !('A' <= c[i] <= 'Z');
    assert Lower(c) == c;
  }

  /** The default aggregation is already trimmed and lower-case. */
  lemma OneHourNormal()
    ensures Lower(Strip("1 hour")) == "1 hour"
  {
    var h := "1 hour";
    assert !IsSpace(h[0]) && !IsSpace(h[|h| - 1]);
    assert RStrip(h) == h;
    assert LStrip(h) == h;
    assert forall i :: 0 <= i < |h| ==> !('A' <= h[i] <= 'Z');
    assert Lower(h) == h;
  }

  /** What a valid export request carries on. */
  datatype ExportRequest = ExportRequest(
    startTime: Value, endTime: Value, series: seq<SeriesRef>, format: string, aggregation: string)

  /** The checks of the export handler, in order: format and aggregation first, then times, then series. */
  function ParseExport(body: Option<Value>): (r: Result<ExportRequest, Reply>)
    ensures body.None? ==> r == Err(ErrorReply(400, "Invalid JSON body"))
    ensures body.Some? && !body.value.Obj? ==> r == Err(InternalError)
    ensures r.Ok? ==>
      && (r.value.format == "csv" || r.value.format == "parquet")
      && Truthy(r.value.startTime) && Truthy(r.value.endTime) && |r.value.series| >= 1
  {
    match body
    case None => Err(ErrorReply(400, "Invalid JSON body"))
    case Some(b) =>
      if !b.Obj? then Err(InternalError)
      else
        match StrippedLower(Get(b, "format"), "csv")
        case None => Err(InternalError)
        case Some(fmt) =>
          match StrippedLower(Get(b, "aggregation"), "1 hour")
          case None => Err(InternalError)
          case Some(aggregation) => ExportFrom(b, fmt, aggregation)
  }

  /** The export request once its format and aggregation have been read. */
  function ExportFrom(b: Value, fmt: string, aggregation: string): Result<ExportRequest, Reply>
    requires b.Obj?
  {
    var startTime := Get(b, "start_time");
    var endTime := Get(b, "end_time");
    var rawSeries := RawSeries(b);
    match ExportChecks(fmt, startTime, endTime, rawSeries)
    case Some(e) => Err(e)
    case None =>
      match NormalizeFrom(Checks(rawSeries.items), 0)
      case Err(e) => Err(e)
      case Ok(series) => Ok(ExportRequest(startTime, endTime, series, fmt, aggregation))
  }

  /** The export request's checks before its series, in their order; `None` when all pass. */
  function ExportChecks(fmt: string, startTime: Value, endTime: Value, rawSeries: Value): (e: Option<Reply>)
    ensures !KnownFormat(fmt) ==> e == Some(UnknownFormat)
    ensures KnownFormat(fmt) && !(Truthy(startTime) && Truthy(endTime)) ==> e == Some(MissingTimes)
    ensures KnownFormat(fmt) && Truthy(startTime) && Truthy(endTime) && !(rawSeries.Arr? && |rawSeries.items| >= 1) ==>
      e == Some(NoSeries)
    ensures e.None? <==> KnownFormat(fmt) && Truthy(startTime) && Truthy(endTime) && rawSeries.Arr? && |rawSeries.items| >= 1
  {
    if !KnownFormat(fmt) then Some(UnknownFormat)
    else if !Truthy(startTime) || !Truthy(endTime) then Some(MissingTimes)
    else if !rawSeries.Arr? || |rawSeries.items| == 0 then Some(NoSeries)
    else None
  }

  /** The 400 replies of the request checks. */
  const MissingTimes := ErrorReply(400, "start_time and end_time required")
  const UnknownFormat := ErrorReply(400, "format must be csv or parquet")
  const NoSeries := ErrorReply(400, "series must be a non-empty array")

  /** The two export formats. */
  predicate KnownFormat(fmt: string) {
    fmt == "csv" || fmt == "parquet"
  }

  /** The `series` list of a request body: `body.get("series") or []`. */
  function RawSeries(b: Value): Value
    requires b.Obj?
  {
    Or(Get(b, "series"), Arr([]))
  }

  /** What the alignment handler accepts from an object body. */
  predicate AlignAcceptable(b: Value)
    requires b.Obj?
  {
    && PyInt(GetOr(b, "resolution", Num(1000))).Some?
    && Truthy(Get(b, "start_time")) && Truthy(Get(b, "end_time"))
    && RawSeries(b).Arr? && |RawSeries(b).items| >= 2
    && AllValid(Checks(RawSeries(b).items), 0)
  }

  /**
   * An object body is accepted exactly when `resolution` converts, both times are truthy, `series`
   * is a list of at least two items and every item is valid; the request then carries the body's
   * times and resolution and one normalised series per item, in order.
   */
  lemma ParseAlignAccepts(b: Value)
    requires b.Obj?
    ensures ParseAlign(Some(b)).Ok? <==> AlignAcceptable(b)
    ensures ParseAlign(Some(b)).Ok? ==>
      && ParseAlign(Some(b)).value.startTime == Get(b, "start_time")
      && ParseAlign(Some(b)).value.endTime == Get(b, "end_time")
      && Some(ParseAlign(Some(b)).value.resolution) == PyInt(GetOr(b, "resolution", Num(1000)))
      && ParseAlign(Some(b)).value.series == NormalizeFrom(Checks(RawSeries(b).items), 0).value
  {
  }

  /** The alignment handler's 400 replies, in the order it checks them. */
  lemma ParseAlignErrors(b: Value)
    requires b.Obj? && PyInt(GetOr(b, "resolution", Num(1000))).Some?
    ensures !(Truthy(Get(b, "start_time")) && Truthy(Get(b, "end_time"))) ==>
      ParseAlign(Some(b)) == Err(MissingTimes)
    ensures (Truthy(Get(b, "start_time")) && Truthy(Get(b, "end_time"))
             && !(RawSeries(b).Arr? && |RawSeries(b).items| >= 2)) ==>
      ParseAlign(Some(b)) == Err(ErrorReply(400, "series must be an array of at least 2 items"))
  {
  }

  /** What the export handler accepts from an object body. */
  predicate ExportAcceptable(b: Value)
    requires b.Obj?
  {
    && StrippedLower(Get(b, "format"), "csv").Some?
    && KnownFormat(StrippedLower(Get(b, "format"), "csv").value)
    && StrippedLower(Get(b, "aggregation"), "1 hour").Some?
    && Truthy(Get(b, "start_time")) && Truthy(Get(b, "end_time"))
    && RawSeries(b).Arr? && |RawSeries(b).items| >= 1
    && AllValid(Checks(RawSeries(b).items), 0)
  }

  /**
   * An object body is accepted exactly when format is `csv` or `parquet`, the aggregation is a
   * string or absent, both times are truthy, `series` is a non-empty list and every item is valid.
   */
  lemma ParseExportAccepts(b: Value)
    requires b.Obj?
    ensures ParseExport(Some(b)).Ok? <==> ExportAcceptable(b)
    ensures ParseExport(Some(b)).Ok? ==>
      && Some(ParseExport(Some(b)).value.format) == StrippedLower(Get(b, "format"), "csv")
      && Some(ParseExport(Some(b)).value.aggregation) == StrippedLower(Get(b, "aggregation"), "1 hour")
      && ParseExport(Some(b)).value.series == NormalizeFrom(Checks(RawSeries(b).items), 0).value
  {
  }

  /**
   * The export handler's 400 replies come from its checks, in their order, once the format and the
   * aggregation have been read; a request that passes them is decided by its series items.
   */
  lemma ParseExportErrors(b: Value)
    requires b.Obj?
    ensures StrippedLower(Get(b, "format"), "csv").Some? && StrippedLower(Get(b, "aggregation"), "1 hour").Some? ==>
      var checks := ExportChecks(StrippedLower(Get(b, "format"), "csv").value, Get(b, "start_time"),
                                 Get(b, "end_time"), RawSeries(b));
      && (checks.Some? ==> ParseExport(Some(b)) == Err(checks.value))
      && (checks.None? ==> ParseExport(Some(b)).Err? == NormalizeFrom(Checks(RawSeries(b).items), 0).Err?)
  {
    match StrippedLower(Get(b, "format"), "csv")
    case None =>
    case Some(fmt) =>
      match StrippedLower(Get(b, "aggregation"), "1 hour")
      case None =>
      case Some(aggregation) =>
        ExportFromErrors(b, fmt, aggregation);
  }

  lemma ExportFromErrors(b: Value, fmt: string, aggregation: string)
    requires b.Obj?
    ensures var checks := ExportChecks(fmt, Get(b, "start_time"), Get(b, "end_time"), RawSeries(b));
      && (checks.Some? ==> ExportFrom(b, fmt, aggregation) == Err(checks.value))
      && (checks.None? ==> ExportFrom(b, fmt, aggregation).Err? == NormalizeFrom(Checks(RawSeries(b).items), 0).Err?)
  {
  }

  /** Every accepted series has a normalised source. */
  lemma AcceptedSourcesNormalised(raw: seq<Value>)
    requires NormalizeFrom(Checks(raw), 0).Ok?
    ensures forall s :: s in NormalizeFrom(Checks(raw), 0).value ==> NormalisedSource(s.source)
  {
    var series := NormalizeFrom(Checks(raw), 0).value;
    forall s | s in series ensures NormalisedSource(s.source) {
      var j :| 0 <= j < |series| && series[j] == s;
      CheckItemSpec(raw[j]);
    }
  }

  // ---------------------------------------------------------------- routing

  /** `{s["source"] for s in series}`. */
  function Sources(series: seq<SeriesRef>): set<string> {
    set s | s in series :: s.source
  }

  /** `sources == {"timescale"} and len(sources) == 1`, and the platform URL is set. */
  predicate TakesRouteA(series: seq<SeriesRef>, platformUrl: string) {
    Sources(series) == {"timescale"} && |Sources(series)| == 1 && platformUrl != ""
  }

  /** Route A is taken exactly when there is a series, every source is `timescale` and the platform URL is set. */
  lemma RouteAIff(series: seq<SeriesRef>, platformUrl: string)
    ensures TakesRouteA(series, platformUrl) <==>
      |series| > 0 && platformUrl != "" && forall i :: 0 <= i < |series| ==> series[i].source == "timescale"
  {
    if |series| > 0 && forall i :: 0 <= i < |series| ==> series[i].source == "timescale" {
      assert series[0] in series;
      assert Sources(series) == {"timescale"};
    }
    if TakesRouteA(series, platformUrl) {
      assert "timescale" in Sources(series);
      forall i | 0 <= i < |series| ensures series[i].source == "timescale" {
        assert series[i] in series;
        assert series[i].source in Sources(series);
      }
    }
  }

  // ---------------------------------------------------------------- grouping

  /** The sources in the order they first occur: the key order of `sources_map`. */
  function SourcesInOrder(series: seq<SeriesRef>): (order: seq<string>)
    ensures forall k :: k in order <==> k in Sources(series)
    ensures forall a, b :: 0 <= a < b < |order| ==> order[a] != order[b]
  {
    if series == [] then []
    else
      var init := series[..|series| - 1];
      var last := series[|series| - 1];
      var p := SourcesInOrder(init);
      assert series == init + [last];
      assert forall s :: s in series <==> s in init || s == last;
      if last.source in p then p else p + [last.source]
  }

  /** The series with source `k`, in input order: the list `sources_map[k]`. */
  function WithSource(series: seq<SeriesRef>, k: string): (group: seq<SeriesRef>)
    ensures forall s :: s in group <==> s in series && s.source == k
  {
    if series == [] then []
    else
      var init := series[..|series| - 1];
      var last := series[|series| - 1];
      assert series == init + [last];
      WithSource(init, k) + (if last.source == k then [last] else [])
  }

  /** What adding the series at index `i` does to the sources seen so far and to each group. */
  lemma GroupStep(series: seq<SeriesRef>, i: nat)
    requires i < |series|
    ensures SourcesInOrder(series[..i + 1]) ==
      if series[i].source in SourcesInOrder(series[..i]) then SourcesInOrder(series[..i])
      else SourcesInOrder(series[..i]) + [series[i].source]
    ensures Sources(series[..i + 1]) == Sources(series[..i]) + {series[i].source}
    ensures forall k ::
      WithSource(series[..i + 1], k) == WithSource(series[..i], k) + (if series[i].source == k then [series[i]] else [])
  {
    var q := series[..i + 1];
    assert q[..|q| - 1] == series[..i];
    assert q[|q| - 1] == series[i];
    assert q == series[..i] + [series[i]];
  }

  lemma NoGroupYet(series: seq<SeriesRef>, k: string)
    requires k !in Sources(series)
    ensures WithSource(series, k) == []
  {
  }

  /**
   * The grouping loop: `sources_map.setdefault(src, []).append(s)` for every series, with the
   * key order kept alongside the dictionary.
   */
  method GroupBySource(series: seq<SeriesRef>) returns (order: seq<string>, groups: map<string, seq<SeriesRef>>)
    ensures order == SourcesInOrder(series)
    ensures groups.Keys == Sources(series)
    ensures forall k :: k in groups ==> groups[k] == WithSource(series, k)
  {
    order := [];
    groups := map[];
    for i := 0 to |series|
      invariant order == SourcesInOrder(series[..i])
      invariant groups.Keys == Sources(series[..i])
      invariant forall k :: k in groups ==> groups[k] == WithSource(series[..i], k)
    {
      var s := series[i];
      GroupStep(series, i);
      var group := if s.source in groups then groups[s.source] else [];
      if s.source !in groups {
        order := order + [s.source];
        NoGroupYet(series[..i], s.source);
      }
      groups := groups[s.source := group + [s]];
    }
    assert series[..|series|] == series;
  }

  /** Grouping is a partition: every series is in the group of its own source and in no other. */
  lemma GroupsPartition(series: seq<SeriesRef>, s: SeriesRef, k: string)
    requires s in series
    ensures s in WithSource(series, k) <==> k == s.source
    ensures s.source in SourcesInOrder(series)
  {
  }

  /** Groups keep input order: grouping a concatenation concatenates the groups. */
  lemma {:induction false} WithSourceAppend(a: seq<SeriesRef>, b: seq<SeriesRef>, k: string)
    ensures WithSource(a + b, k) == WithSource(a, k) + WithSource(b, k)
    decreases |b|
  {
    if b == [] {
      assert a + b == a;
    } else {
      var init := b[..|b| - 1];
      assert (a + b)[..|a + b| - 1] == a + init;
      assert (a + b)[|a + b| - 1] == b[|b| - 1];
      WithSourceAppend(a, init, k);
    }
  }

  /**
   * Sources are listed in first-occurrence order: when `order[a]` comes before `order[b]`, some
   * series with source `order[a]` comes before every series with source `order[b]`.
   */
  lemma SourcesFirstOccurrence(series: seq<SeriesRef>, a: nat, b: nat)
    requires a < b < |SourcesInOrder(series)|
    ensures exists i :: 0 <= i < |series| && series[i].source == SourcesInOrder(series)[a]
                        && forall j :: 0 <= j <= i ==> series[j].source != SourcesInOrder(series)[b]
  {
    var i := EarlierSource(series, a, b);
  }

  /** The index of a series with source `order[a]` that no series with source `order[b]` precedes. */
  lemma {:induction false} EarlierSource(series: seq<SeriesRef>, a: nat, b: nat) returns (i: nat)
    requires a < b < |SourcesInOrder(series)|
    ensures i < |series| && series[i].source == SourcesInOrder(series)[a]
    ensures forall j :: 0 <= j <= i ==> series[j].source != SourcesInOrder(series)[b]
    decreases |series|
  {
    var init := series[..|series| - 1];
    var last := series[|series| - 1];
    var p := SourcesInOrder(init);
    var order := SourcesInOrder(series);
    if b < |p| {
      assert order[a] == p[a] && order[b] == p[b];
      i := EarlierSource(init, a, b);
    } else {
      assert order == p + [last.source] && b == |p|;
      assert order[a] == p[a] && p[a] in Sources(init);
      i := SomeWithSource(init, p[a]);
      AbsentSource(init, order[b]);
    }
    assert forall j :: 0 <= j <= i ==> series[j] == init[j];
  }

  /** A source of a list is the source of one of its series. */
  lemma SomeWithSource(series: seq<SeriesRef>, k: string) returns (i: nat)
    requires k in Sources(series)
    ensures i < |series| && series[i].source == k
  {
    var s :| s in series && s.source == k;
    i :| 0 <= i < |series| && series[i] == s;
  }

  /** No series has a source that is not among the sources. */
  lemma AbsentSource(series: seq<SeriesRef>, k: string)
    requires k !in Sources(series)
    ensures forall j :: 0 <= j < |series| ==> series[j].source != k
  {
    forall j | 0 <= j < |series| ensures series[j].source != k {
      assert series[j] in series;
    }
  }

  /** The first source listed is the first series' source. */
  lemma {:induction false} FirstSourceFirst(series: seq<SeriesRef>)
    requires series != []
    ensures SourcesInOrder(series) != [] && SourcesInOrder(series)[0] == series[0].source
    decreases |series|
  {
    var init := series[..|series| - 1];
    if init != [] {
      FirstSourceFirst(init);
      assert init[0] == series[0];
    }
  }
}
