/**
 * The request-level decisions of the timeseries endpoints: entity-id resolution, adapter base
 * URLs, resolution values, route A (forward the request to the platform) and route B (fetch one
 * buffer per source or per series, then merge or align in the backend).
 *
 * The network is a parameter: `lookup` is the platform's answer to the timeseries-location
 * request for an id, `fetch` the answer to an outgoing data request, `post` and `get` the answers
 * to the requests the proxying routes forward.
 */
module TimeseriesApi {
  import opened Wrappers
  import opened PyStrings
  import opened Json
  import opened Settings
  import opened Tables
  import opened TimeseriesGather
  import opened TimeseriesAlign
  import opened TimeseriesSeries
  import opened SourceNames

  // ---------------------------------------------------------------- entity-id resolution

  /**
   * The platform's answer to `GET …/timeseries-location`: its status and its body (`None` when not
   * JSON), or `LookupRaised` when the request raises (connection error, timeout).
   */
  datatype LookupReply = LookupReply(status: int, body: Option<Value>) | LookupRaised

  /**
   * What the resolver gives: the id to query timeseries with, `NoLocation` when the platform says
   * the entity has none, or `LookupFailed` when the lookup request raised. The resolver does not
   * catch that exception and neither does any endpoint that calls it, so it ends in the framework's
   * 500.
   */
  datatype Resolution = Resolved(id: Value) | NoLocation | LookupFailed

  /** The resolver asks the platform only for a set base URL and an id that trims to `urn:…` in any case. */
  predicate NeedsLookup(baseUrl: string, entityId: string) {
    baseUrl != "" && entityId != "" && IsUrn(Strip(entityId))
  }

  /** `id.lower().startswith("urn:")`, letter by letter. */
  predicate IsUrn(id: string) {
    |id| >= 4 && LowerChar(id[0]) == 'u' && LowerChar(id[1]) == 'r' && LowerChar(id[2]) == 'n' && id[3] == ':'
  }

  /** The letter-by-letter test is the lower-cased prefix test. */
  lemma IsUrnSpec(id: string)
    ensures IsUrn(id) <==> StartsWith(Lower(id), "urn:")
  {
    if |id| >= 4 {
      assert Lower(id)[..4] == [LowerChar(id[0]), LowerChar(id[1]), LowerChar(id[2]), LowerChar(id[3])];
    }
  }

  /**
   * `_resolve_timeseries_entity_id`: the id to query timeseries with, `NoLocation` when the
   * platform answers anything but 200, or `LookupFailed` when the lookup raises. `lookup`
   * receives the trimmed id.
   */
  function ResolveEntityId(baseUrl: string, entityId: string, lookup: string -> LookupReply): (r: Resolution)
    ensures !NeedsLookup(baseUrl, entityId) ==>
      r == Resolved(Str(if baseUrl == "" || entityId == "" then entityId else Strip(entityId)))
    ensures NeedsLookup(baseUrl, entityId) ==> (r.LookupFailed? <==> lookup(Strip(entityId)).LookupRaised?)
    ensures NeedsLookup(baseUrl, entityId) ==>
      (r.NoLocation? <==> lookup(Strip(entityId)).LookupReply? && lookup(Strip(entityId)).status != 200)
    ensures NeedsLookup(baseUrl, entityId) && r.Resolved? ==> Truthy(r.id)
  {
    if baseUrl == "" || entityId == "" then Resolved(Str(entityId))
    else
      var eid := Strip(entityId);
      if !IsUrn(eid) then Resolved(Str(eid))
      else
        match lookup(eid)
        case LookupRaised => LookupFailed
        case LookupReply(status, body) =>
          if status != 200 then NoLocation
          else
            match body
            case Some(b) => if b.Obj? then Resolved(Or(Get(b, "timeseries_entity_id"), Str(eid))) else Resolved(Str(eid))
            case None => Resolved(Str(eid))
  }

  /** On status 200 the id is the body's `timeseries_entity_id` when that is set, else the trimmed id. */
  lemma ResolvedFromLocation(baseUrl: string, entityId: string, lookup: string -> LookupReply)
    requires NeedsLookup(baseUrl, entityId)
    requires lookup(Strip(entityId)).LookupReply? && lookup(Strip(entityId)).status == 200
    ensures var body := lookup(Strip(entityId)).body;
      ResolveEntityId(baseUrl, entityId, lookup) ==
        if body.Some? && body.value.Obj? && Truthy(Get(body.value, "timeseries_entity_id"))
        then Resolved(Get(body.value, "timeseries_entity_id"))
        else Resolved(Str(Strip(entityId)))
  {
  }

  // ---------------------------------------------------------------- adapter base URLs

  /** The environment key of a non-timescale source's adapter: `TIMESERIES_ADAPTER_<SOURCE>_URL`. */
  function AdapterKey(source: string): string {
    "TIMESERIES_ADAPTER_" + Upper(Lower(Strip(source))) + "_URL"
  }

  /** A source the adapter lookup treats as the platform's own: empty, or `timescale` once trimmed and lowered. */
  predicate IsPlatformSource(source: string) {
    source == "" || Lower(Strip(source)) == "timescale"
  }

  /**
   * `_get_adapter_base_url`. An empty source defaults to `timescale`, which is already trimmed and
   * lower-case, so it is tested for directly.
   */
  function AdapterBaseUrl(env: Env, source: string): (r: Option<string>)
    ensures IsPlatformSource(source) ==>
      r == (if PlatformApiUrl(env) == "" then None else Some(PlatformApiUrl(env)))
    ensures !IsPlatformSource(source) && UrlSetting(env, AdapterKey(source)) != "" ==>
      r == Some(RStripSlash(EnvGet(env, AdapterKey(source))))
    ensures !IsPlatformSource(source) && UrlSetting(env, AdapterKey(source)) == "" ==>
      r == Some("http://" + source + ":8000")
    ensures r.None? <==> IsPlatformSource(source) && PlatformApiUrl(env) == ""
    ensures r.Some? ==> r.value != ""
  {
    if IsPlatformSource(source) then
      if PlatformApiUrl(env) == "" then None else Some(PlatformApiUrl(env))
    else
      var url := UrlSetting(env, AdapterKey(source));
      if url != "" then Some(url) else Some("http://" + source + ":8000")
  }

  /** A configured adapter URL never ends with `/`. */
  lemma AdapterUrlNoTrailingSlash(env: Env, source: string)
    requires !IsPlatformSource(source) && UrlSetting(env, AdapterKey(source)) != ""
    ensures var u := AdapterBaseUrl(env, source).value; u[|u| - 1] != '/'
  {
  }

  /** Every normalised source other than `timescale` has an adapter, whatever the environment. */
  lemma ExternalSourceHasAdapter(env: Env, source: string)
    requires NormalisedSource(source) && source != "timescale"
    ensures AdapterBaseUrl(env, source).Some?
  {
  }

  // ---------------------------------------------------------------- resolution values

  /** `min(max(x, lo), hi)`. */
  function Clamp(x: int, lo: int, hi: int): (n: int)
    requires lo <= hi
    ensures lo <= n <= hi
    ensures lo <= x <= hi ==> n == x
    ensures x < lo ==> n == lo
    ensures x > hi ==> n == hi
  {
    if x < lo then lo else if x > hi then hi else x
  }

  /** The resolution forwarded to an alignment: `min(max(resolution, 100), 10000)`. */
  function ClampAlignResolution(resolution: int): (n: int)
    ensures 100 <= n <= 10000
  {
    Clamp(resolution, 100, 10000)
  }

  /** Clamping twice is clamping once: the timescale fetch re-clamps a resolution route B already clamped. */
  lemma ClampAlignIdempotent(resolution: int)
    ensures ClampAlignResolution(ClampAlignResolution(resolution)) == ClampAlignResolution(resolution)
  {
  }

  /** The span `delta` in units of `unit` seconds, rounded down, clamped to `[lo, 10000]`. */
  function SpanIn(delta: int, unit: int, lo: int): (n: int)
    requires delta > 0 && unit > 0 && lo <= 10000
    ensures lo <= n <= 10000
  {
    Clamp(delta / unit, lo, 10000)
  }

  /** Whether a normalised aggregation asks for raw points. */
  predicate IsRaw(aggregation: string) {
    aggregation != "" && Lower(Strip(aggregation)) == "raw"
  }

  /** Whether a normalised aggregation asks for daily points. */
  predicate IsDaily(aggregation: string) {
    aggregation != "" && Lower(Strip(aggregation)) == "1 day"
  }

  /** How many seconds one point stands for under an aggregation. */
  function SpanUnit(aggregation: string): (u: int)
    ensures u > 0
  {
    if IsRaw(aggregation) then 60 else if IsDaily(aggregation) then 86400 else 3600
  }

  /** The fewest points an aggregation asks for. */
  function SpanFloor(aggregation: string): (lo: int)
    ensures 100 <= lo <= 10000
  {
    if IsRaw(aggregation) then 1000 else 100
  }

  /**
   * `_resolution_from_aggregation` on integer seconds. An empty aggregation defaults to `1 hour`,
   * which, like every aggregation other than `raw` and `1 day`, counts hours.
   */
  function ResolutionFromAggregation(startTs: int, endTs: int, aggregation: string): (n: int)
    ensures endTs - startTs <= 0 ==> n == 1000
    ensures endTs - startTs > 0 ==> 100 <= n <= 10000
    ensures endTs - startTs > 0 && IsRaw(aggregation) ==> n == SpanIn(endTs - startTs, 60, 1000)
    ensures endTs - startTs > 0 && IsDaily(aggregation) ==> n == SpanIn(endTs - startTs, 86400, 100)
    ensures endTs - startTs > 0 && !IsRaw(aggregation) && !IsDaily(aggregation) ==>
      n == SpanIn(endTs - startTs, 3600, 100)
  {
    var delta := endTs - startTs;
    RawNotDaily(aggregation);
    if delta <= 0 then 1000 else SpanIn(delta, SpanUnit(aggregation), SpanFloor(aggregation))
  }

  /** `raw` and `1 day` are different aggregations. */
  lemma RawNotDaily(aggregation: string)
    ensures !(IsRaw(aggregation) && IsDaily(aggregation))
  {
    if IsRaw(aggregation) {
      assert Lower(Strip(aggregation))[0] == 'r';
    }
  }

  /** A longer span never gives fewer points, for the same aggregation. */
  lemma ResolutionMonotone(s1: int, e1: int, s2: int, e2: int, aggregation: string)
    requires 0 < e1 - s1 <= e2 - s2
    ensures ResolutionFromAggregation(s1, e1, aggregation) <= ResolutionFromAggregation(s2, e2, aggregation)
  {
    SpanMono(e1 - s1, e2 - s2, SpanUnit(aggregation), SpanFloor(aggregation));
  }

  /** A longer span counts at least as many units. */
  lemma SpanMono(d1: int, d2: int, unit: int, lo: int)
    requires 0 < d1 <= d2 && unit > 0 && lo <= 10000
    ensures SpanIn(d1, unit, lo) <= SpanIn(d2, unit, lo)
  {
    DivMono(d1, d2, unit);
  }

  // ---------------------------------------------------------------- steps that stop at the first failure

  /** The values of all steps in order, or the error of the first step that failed. */
  function FirstError<T>(rs: seq<Result<T, Reply>>): (r: Result<seq<T>, Reply>)
    ensures r.Ok? <==> forall i :: 0 <= i < |rs| ==> rs[i].Ok?
    ensures r.Ok? ==> |r.value| == |rs| && forall i :: 0 <= i < |rs| ==> r.value[i] == rs[i].value
    ensures r.Err? ==>
      exists i :: 0 <= i < |rs| && rs[i].Err? && r.error == rs[i].error && forall j :: 0 <= j < i ==> rs[j].Ok?
  {
    if rs == [] then Ok([])
    else if rs[0].Err? then Err(rs[0].error)
    else
      var rest := FirstError(rs[1..]);
      assert forall i :: 1 <= i < |rs| ==> rs[i] == rs[1..][i - 1];
      match rest
      case Err(e) =>
        assert exists i :: 0 <= i < |rs| && rs[i].Err? && e == rs[i].error && forall j :: 0 <= j < i ==> rs[j].Ok? by {
          var k :| 0 <= k < |rs[1..]| && rs[1..][k].Err? && e == rs[1..][k].error
            && forall j :: 0 <= j < k ==> rs[1..][j].Ok?;
          assert rs[k + 1] == rs[1..][k];
        }
        Err(e)
      case Ok(vs) => Ok([rs[0].value] + vs)
  }

  lemma FirstErrorAt<T>(rs: seq<Result<T, Reply>>, i: nat)
    requires i < |rs| && rs[i].Err?
    requires forall j :: 0 <= j < i ==> rs[j].Ok?
    ensures FirstError(rs) == Err(rs[i].error)
  {
    var k :| 0 <= k < |rs| && rs[k].Err? && FirstError(rs).error == rs[k].error
      && forall j :: 0 <= j < k ==> rs[j].Ok?;
    assert k == i;
  }

  lemma FirstErrorAll<T>(rs: seq<Result<T, Reply>>, vs: seq<T>)
    requires |vs| == |rs|
    requires forall j :: 0 <= j < |rs| ==> rs[j].Ok? && vs[j] == rs[j].value
    ensures FirstError(rs) == Ok(vs)
  {
    assert FirstError(rs).value == vs;
  }

  /** The loop over the fetch results: return the first failure, else collect every body. */
  method CollectResults<T>(rs: seq<Result<T, Reply>>) returns (r: Result<seq<T>, Reply>)
    ensures r == FirstError(rs)
  {
    var acc: seq<T> := [];
    for i := 0 to |rs|
      invariant |acc| == i
      invariant forall j :: 0 <= j < i ==> rs[j].Ok? && acc[j] == rs[j].value
    {
      if rs[i].Err? {
        FirstErrorAt(rs, i);
        return Err(rs[i].error);
      }
      acc := acc + [rs[i].value];
    }
    FirstErrorAll(rs, acc);
    return Ok(acc);
  }

  // ---------------------------------------------------------------- route A

  /** The id string handed to the resolver and put into URLs: `s["entity_id"]` formatted with `str`. */
  function IdText(s: SeriesRef): string {
    PyStr(s.entityId)
  }

  /** `{"entity_id": …, "attribute": …}`, as the platform's alignment and export endpoints take a series. */
  function SeriesItem(entityId: Value, attribute: string): Value {
    Obj([("entity_id", entityId), ("attribute", Str(attribute))])
  }

  /** The reply for a series whose entity has no timeseries location. */
  function NoLocationReply(s: SeriesRef): Reply {
    ErrorReply(404, "Entity " + IdText(s) + " has no timeseries location")
  }

  /**
   * Route A's step for one series: its resolved item, 404 when it has no timeseries location, or
   * the framework's 500 when the lookup raised.
   */
  function RouteAStep(platformUrl: string, s: SeriesRef, lookup: string -> LookupReply): Result<Value, Reply> {
    match ResolveEntityId(platformUrl, IdText(s), lookup)
    case NoLocation => Err(NoLocationReply(s))
    case LookupFailed => Err(InternalError)
    case Resolved(rid) => Ok(SeriesItem(rid, s.attribute))
  }

  function RouteAStepFn(platformUrl: string, lookup: string -> LookupReply): SeriesRef -> Result<Value, Reply> {
    s => RouteAStep(platformUrl, s, lookup)
  }

  /** A step applied to every element, in order. */
  function Steps<A, T>(xs: seq<A>, step: A -> Result<T, Reply>): (rs: seq<Result<T, Reply>>)
    ensures |rs| == |xs|
    ensures forall i :: 0 <= i < |xs| ==> rs[i] == step(xs[i])
  {
    seq(|xs|, i requires 0 <= i < |xs| => step(xs[i]))
  }

  /** A loop that applies `step` to each element in turn and returns at the first failure. */
  method RunSteps<A, T>(xs: seq<A>, step: A -> Result<T, Reply>) returns (r: Result<seq<T>, Reply>)
    ensures r == FirstError(Steps(xs, step))
  {
    ghost var rs := Steps(xs, step);
    var acc: seq<T> := [];
    for i := 0 to |xs|
      invariant |acc| == i
      invariant forall j :: 0 <= j < i ==> rs[j].Ok? && acc[j] == rs[j].value
    {
      var res := step(xs[i]);
      if res.Err? {
        FirstErrorAt(rs, i);
        return Err(res.error);
      }
      acc := acc + [res.value];
    }
    FirstErrorAll(rs, acc);
    return Ok(acc);
  }

  /** Route A's loop: resolve every series in order, stopping at the first that has no location. */
  method ResolveRouteA(series: seq<SeriesRef>, platformUrl: string, lookup: string -> LookupReply)
    returns (r: Result<seq<Value>, Reply>)
    ensures r == FirstError(Steps(series, RouteAStepFn(platformUrl, lookup)))
  {
    r := RunSteps(series, RouteAStepFn(platformUrl, lookup));
  }

  /** The body route A forwards to the platform's alignment endpoint. */
  function AlignProxyBody(startTime: Value, endTime: Value, resolution: int, items: seq<Value>): Value {
    Obj([("start_time", startTime), ("end_time", endTime),
         ("resolution", Num(ClampAlignResolution(resolution))), ("series", Arr(items))])
  }

  /** The body route A forwards to the platform's export endpoint. */
  function ExportProxyBody(req: ExportRequest, items: seq<Value>): Value {
    Obj([("start_time", req.startTime), ("end_time", req.endTime), ("series", Arr(items)),
         ("format", Str(req.format)), ("aggregation", Str(req.aggregation))])
  }

  /**
   * What a proxying handler answers when the platform fails: the platform's status with its JSON
   * body, or `{"error": text}` when the body is not JSON, or `Upstream <status>` when the text is
   * empty too. `None` when the platform did not fail.
   */
  function UpstreamFailure(status: int, json: Option<Value>, text: string): (r: Option<Reply>)
    ensures r.Some? <==> status >= 400
    ensures r.Some? ==> r.value.status == status
    ensures r.Some? && json.Some? ==> r.value.body == json.value
    ensures r.Some? && json.None? ==> r.value.body.Obj? && Truthy(Get(r.value.body, "error"))
  {
    if status < 400 then None
    else
      match json
      case Some(v) => Some(Reply(status, v))
      case None => Some(ErrorReply(status, if text != "" then text else "Upstream " + IntToString(status)))
  }

  /** The platform's answer to a forwarded request: status, raw content, the body as JSON when it parses, text. */
  datatype Forwarded = Forwarded(status: int, content: Payload, json: Option<Value>, text: string)

  /**
   * What a proxying handler makes of the platform's answer: the content as it came below 400, the
   * platform's failure from 400 on, and the framework's 500 when the request raised (the forwarding
   * request is not guarded).
   */
  function Relay(answer: Result<Forwarded, string>): (r: Result<Payload, Reply>)
    ensures answer.Err? ==> r == Err(InternalError)
    ensures answer.Ok? ==> (r.Ok? <==> answer.value.status < 400)
    ensures answer.Ok? && r.Ok? ==> r.value == answer.value.content
    ensures answer.Ok? && r.Err? ==>
      && r.error.status == answer.value.status
      && r.error == UpstreamFailure(answer.value.status, answer.value.json, answer.value.text).value
  {
    match answer
    case Err(_) => Err(InternalError)
    case Ok(f) =>
      match UpstreamFailure(f.status, f.json, f.text)
      case Some(reply) => Err(reply)
      case None => Ok(f.content)
  }

  // ---------------------------------------------------------------- route B: re-resolution

  /**
   * Route B's re-resolution of one series: timescale series get their resolved id when there is
   * one; a lookup that raises ends the request with the framework's 500.
   */
  function Reresolved(platformUrl: string, s: SeriesRef, lookup: string -> LookupReply): (t: Result<SeriesRef, Reply>)
    ensures t.Err? <==>
      platformUrl != "" && s.source == "timescale" && ResolveEntityId(platformUrl, IdText(s), lookup).LookupFailed?
    ensures t.Err? ==> t.error == InternalError
    ensures platformUrl == "" || s.source != "timescale" ==> t == Ok(s)
    ensures t.Ok? ==> t.value.attribute == s.attribute && t.value.source == s.source
    ensures t.Ok? && t.value.entityId != s.entityId ==> platformUrl != "" && s.source == "timescale"
  {
    if platformUrl != "" && s.source == "timescale" then
      match ResolveEntityId(platformUrl, IdText(s), lookup)
      case LookupFailed => Err(InternalError)
      case NoLocation => Ok(s)
      case Resolved(rid) => Ok(s.(entityId := rid))
    else Ok(s)
  }

  function ReresolvedFn(platformUrl: string, lookup: string -> LookupReply): SeriesRef -> Result<SeriesRef, Reply> {
    s => Reresolved(platformUrl, s, lookup)
  }

  /**
   * The series route B fetches: each re-resolved in place, or the 500 of the first lookup that
   * raised. Without a platform URL nothing is looked up and the series are unchanged.
   */
  function RouteBSeries(series: seq<SeriesRef>, platformUrl: string, lookup: string -> LookupReply)
    : (r: Result<seq<SeriesRef>, Reply>)
    ensures r.Err? <==> exists i :: 0 <= i < |series| && Reresolved(platformUrl, series[i], lookup).Err?
    ensures r.Err? ==> r.error == InternalError
    ensures r.Ok? ==> |r.value| == |series|
    ensures r.Ok? ==> forall i :: 0 <= i < |series| ==> r.value[i] == Reresolved(platformUrl, series[i], lookup).value
    ensures platformUrl == "" ==> r == Ok(series)
  {
    var steps := Steps(series, ReresolvedFn(platformUrl, lookup));
    assert platformUrl == "" ==> FirstError(steps) == Ok(series) by {
      if platformUrl == "" {
        FirstErrorAll(steps, series);
      }
    }
    FirstError(steps)
  }

  /**
   * The key route B tests and groups by: `(source or "timescale").strip().lower() or "timescale"`.
   * `timescale` is already trimmed and lower-case, so an empty source maps to it directly.
   */
  function SourceKey(source: string): string {
    if source == "" then "timescale"
    else
      var t := Lower(Strip(source));
      if t == "" then "timescale" else t
  }

  /** A normalised source is its own key, so route B may test and group on `s.source` itself. */
  lemma SourceKeyOfNormalised(source: string)
    requires NormalisedSource(source)
    ensures SourceKey(source) == source
  {
  }

  /** One pass of route B's loop: a timescale series takes its resolved id when it has a location. */
  method ReresolveOne(platformUrl: string, s: SeriesRef, lookup: string -> LookupReply)
    returns (t: Result<SeriesRef, Reply>)
    requires platformUrl != ""
    ensures t == Reresolved(platformUrl, s, lookup)
  {
    t := Ok(s);
    if s.source == "timescale" {
      var rid := ResolveEntityId(platformUrl, IdText(s), lookup);
      if rid.LookupFailed? {
        return Err(InternalError);
      }
      if rid.Resolved? {
        t := Ok(s.(entityId := rid.id));
      }
    }
  }

  /** Route B's outcome when every series re-resolves: the re-resolved list. */
  lemma RouteBSeriesAll(series: seq<SeriesRef>, platformUrl: string, lookup: string -> LookupReply, resolved: seq<SeriesRef>)
    requires |resolved| == |series|
    requires forall j :: 0 <= j < |series| ==> Reresolved(platformUrl, series[j], lookup) == Ok(resolved[j])
    ensures RouteBSeries(series, platformUrl, lookup) == Ok(resolved)
  {
    FirstErrorAll(Steps(series, ReresolvedFn(platformUrl, lookup)), resolved);
  }

  /** Route B's outcome when series `i` is the first whose lookup raises: the framework's 500. */
  lemma RouteBSeriesFirstFailure(series: seq<SeriesRef>, platformUrl: string, lookup: string -> LookupReply, i: nat)
    requires i < |series| && Reresolved(platformUrl, series[i], lookup).Err?
    requires forall j :: 0 <= j < i ==> Reresolved(platformUrl, series[j], lookup).Ok?
    ensures RouteBSeries(series, platformUrl, lookup) == Err(InternalError)
  {
    FirstErrorAt(Steps(series, ReresolvedFn(platformUrl, lookup)), i);
  }

  /** Route B's loop: `resolved[i] = {**s, "entity_id": rid}` for every timescale series with a location. */
  method ResolveRouteB(series: seq<SeriesRef>, platformUrl: string, lookup: string -> LookupReply)
    returns (r: Result<seq<SeriesRef>, Reply>)
    ensures r == RouteBSeries(series, platformUrl, lookup)
  {
    var resolved := series;
    if platformUrl != "" {
      for i := 0 to |resolved|
        invariant |resolved| == |series|
        invariant forall j :: 0 <= j < i ==> Reresolved(platformUrl, series[j], lookup) == Ok(resolved[j])
        invariant forall j :: i <= j < |series| ==> resolved[j] == series[j]
      {
        var t := ReresolveOne(platformUrl, resolved[i], lookup);
        if t.Err? {
          RouteBSeriesFirstFailure(series, platformUrl, lookup, i);
          return Err(InternalError);
        }
        resolved := resolved[i := t.value];
      }
    }
    RouteBSeriesAll(series, platformUrl, lookup, resolved);
    return Ok(resolved);
  }

  /** Two lists whose series have the same sources, position by position. */
  predicate SameSources(a: seq<SeriesRef>, b: seq<SeriesRef>) {
    |a| == |b| && forall i :: 0 <= i < |a| ==> a[i].source == b[i].source
  }

  lemma SameSourcesSet(a: seq<SeriesRef>, b: seq<SeriesRef>)
    requires SameSources(a, b)
    ensures Sources(a) == Sources(b)
  {
    forall k | k in Sources(a) ensures k in Sources(b) {
      var s :| s in a && s.source == k;
      var i :| 0 <= i < |a| && a[i] == s;
      assert b[i] in b;
    }
    forall k | k in Sources(b) ensures k in Sources(a) {
      var s :| s in b && s.source == k;
      var i :| 0 <= i < |b| && b[i] == s;
      assert a[i] in a;
    }
  }

  lemma {:induction false} SameSourcesOrder(a: seq<SeriesRef>, b: seq<SeriesRef>)
    requires SameSources(a, b)
    ensures SourcesInOrder(a) == SourcesInOrder(b)
    decreases |a|
  {
    if a != [] {
      var n := |a| - 1;
      SameSourcesOrder(a[..n], b[..n]);
    }
  }

  lemma {:induction false} SameSourcesSizes(a: seq<SeriesRef>, b: seq<SeriesRef>, k: string)
    requires SameSources(a, b)
    ensures |WithSource(a, k)| == |WithSource(b, k)|
    decreases |a|
  {
    if a != [] {
      var n := |a| - 1;
      SameSourcesSizes(a[..n], b[..n], k);
    }
  }

  /** Re-resolution changes no source, so the groups have the same keys, order and sizes as before it. */
  lemma RouteBKeepsGroups(series: seq<SeriesRef>, platformUrl: string, lookup: string -> LookupReply, k: string)
    requires RouteBSeries(series, platformUrl, lookup).Ok?
    ensures var rs := RouteBSeries(series, platformUrl, lookup).value;
      && Sources(rs) == Sources(series)
      && SourcesInOrder(rs) == SourcesInOrder(series)
      && |WithSource(rs, k)| == |WithSource(series, k)|
  {
    var rs := RouteBSeries(series, platformUrl, lookup).value;
    assert SameSources(rs, series);
    SameSourcesSet(rs, series);
    SameSourcesOrder(rs, series);
    SameSourcesSizes(rs, series, k);
  }

  // ---------------------------------------------------------------- route B: fetch plans

  /** The outgoing request of one fetch, or the `ValueError` raised before any request is made. */
  datatype FetchPlan =
    | DataGet(url: string, params: seq<(string, Value)>)
    | PlatformAlign(url: string, body: Value)
    | ModuleExport(source: string, url: string, body: Value)
    | Unavailable(message: string)

  /** The query of `_fetch_entity_data_raw`. */
  function DataParams(startTime: Value, endTime: Value, resolution: int, attribute: string): seq<(string, Value)> {
    [("start_time", startTime), ("end_time", endTime), ("resolution", Num(resolution)),
     ("attribute", Str(attribute)), ("format", Str("arrow"))]
  }

  /** The platform's (or an adapter's) data path for an entity id: `…/api/timeseries/entities/<id>/data`. */
  function DataUrl(base: string, entityId: Value): string {
    base + "/api/timeseries/entities/" + PyStr(entityId) + "/data"
  }

  /** `_fetch_entity_data_raw`'s request for one series. */
  function DataRequest(base: string, s: SeriesRef, startTime: Value, endTime: Value, resolution: int): FetchPlan {
    DataGet(DataUrl(base, s.entityId), DataParams(startTime, endTime, resolution, s.attribute))
  }

  function Items(group: seq<SeriesRef>): (items: seq<Value>)
    ensures |items| == |group|
    ensures forall i :: 0 <= i < |group| ==> items[i] == SeriesItem(group[i].entityId, group[i].attribute)
  {
    seq(|group|, i requires 0 <= i < |group| => SeriesItem(group[i].entityId, group[i].attribute))
  }

  const PlatformNotConfigured := "PLATFORM_API_URL not configured"

  /** `_fetch_from_timescale`: one series is fetched directly, several through the platform's alignment. */
  function TimescalePlan(platformUrl: string, group: seq<SeriesRef>, startTime: Value, endTime: Value, resolution: int)
    : (p: FetchPlan)
    ensures p.Unavailable? <==> platformUrl == ""
    ensures p.DataGet? <==> platformUrl != "" && |group| == 1
    ensures p.PlatformAlign? ==> p.url == platformUrl + "/api/timeseries/align"
  {
    if platformUrl == "" then Unavailable(PlatformNotConfigured)
    else if |group| == 1 then DataRequest(platformUrl, group[0], startTime, endTime, resolution)
    else PlatformAlign(platformUrl + "/api/timeseries/align", AlignProxyBody(startTime, endTime, resolution, Items(group)))
  }

  /** `{"entity_id": …, "attribute": …, "source": …}`, as a module's export endpoint takes a series. */
  function ModuleItem(s: SeriesRef): Value {
    Obj([("entity_id", s.entityId), ("attribute", Str(s.attribute)), ("source", Str(s.source))])
  }

  /** `_fetch_from_external_module`'s request to the adapter of `source`. */
  function ModulePlan(env: Env, source: string, group: seq<SeriesRef>, startTime: Value, endTime: Value, resolution: int)
    : (p: FetchPlan)
    ensures p.Unavailable? <==> AdapterBaseUrl(env, source).None?
    ensures p.Unavailable? ==> p.message == "No adapter URL for source: " + source
    ensures p.ModuleExport? ==> p.source == source
    ensures p.ModuleExport? ==>
      p.url == RStripSlash(AdapterBaseUrl(env, source).value) + "/api/internal/timeseries/export-arrow"
    ensures p.ModuleExport? ==>
      && p.body.Obj?
      && Get(p.body, "start_time") == startTime
      && Get(p.body, "end_time") == endTime
      && Get(p.body, "resolution") == Num(resolution)
      && Get(p.body, "series").Arr?
      && |Get(p.body, "series").items| == |group|
      && forall i :: 0 <= i < |group| ==> Get(p.body, "series").items[i] == ModuleItem(group[i])
  {
    match AdapterBaseUrl(env, source)
    case None => Unavailable("No adapter URL for source: " + source)
    case Some(base) =>
      var items := seq(|group|, i requires 0 <= i < |group| => ModuleItem(group[i]));
      var body := Obj([("series", Arr(items)), ("start_time", startTime), ("end_time", endTime),
                       ("resolution", Num(resolution))]);
      ModuleBodyFields(body, items, startTime, endTime, resolution);
      ModuleExport(source, RStripSlash(base) + "/api/internal/timeseries/export-arrow", body)
  }

  /** Reading back the four fields of the module export body. */
  lemma ModuleBodyFields(body: Value, items: seq<Value>, startTime: Value, endTime: Value, resolution: int)
    requires body == Obj([("series", Arr(items)), ("start_time", startTime), ("end_time", endTime),
                          ("resolution", Num(resolution))])
    ensures Get(body, "series") == Arr(items)
    ensures Get(body, "start_time") == startTime
    ensures Get(body, "end_time") == endTime
    ensures Get(body, "resolution") == Num(resolution)
  {
    var f := body.fields;
    assert "start_time" != "series" by { assert "start_time"[1] != "series"[1]; }
    assert "end_time" != "series" && "end_time" != "start_time" by {
      assert "end_time"[0] != "series"[0] && "end_time"[0] != "start_time"[0];
    }
    assert "resolution" != "series" && "resolution" != "start_time" && "resolution" != "end_time" by {
      assert "resolution"[0] != "series"[0] && "resolution"[0] != "start_time"[0] && "resolution"[0] != "end_time"[0];
    }
    assert Get(Obj(f[3..]), "resolution") == Num(resolution);
    assert Get(Obj(f[2..]), "end_time") == endTime;
    assert Get(Obj(f[2..]), "resolution") == Num(resolution) by { assert Obj(f[2..]).fields[1..] == f[3..]; }
    assert Get(Obj(f[1..]), "start_time") == startTime;
    assert Get(Obj(f[1..]), "end_time") == endTime by { assert Obj(f[1..]).fields[1..] == f[2..]; }
    assert Get(Obj(f[1..]), "resolution") == Num(resolution) by { assert Obj(f[1..]).fields[1..] == f[2..]; }
    assert body.fields[1..] == f[1..];
  }

  /** The request route B makes for the group of `source`. */
  function GroupPlan(env: Env, source: string, group: seq<SeriesRef>, startTime: Value, endTime: Value, resolution: int)
    : FetchPlan
  {
    if source == "timescale" then TimescalePlan(PlatformApiUrl(env), group, startTime, endTime, resolution)
    else ModulePlan(env, source, group, startTime, endTime, resolution)
  }

  /** A group's request fails before the network only for the timescale group with no platform URL. */
  lemma GroupPlanUnavailable(env: Env, source: string, group: seq<SeriesRef>, startTime: Value, endTime: Value, resolution: int)
    requires NormalisedSource(source)
    ensures GroupPlan(env, source, group, startTime, endTime, resolution).Unavailable? <==>
      source == "timescale" && PlatformApiUrl(env) == ""
  {
    if source != "timescale" {
      ExternalSourceHasAdapter(env, source);
    }
  }

  // ---------------------------------------------------------------- route B: performing the requests

  /** An HTTP reply to a data request. */
  datatype HttpReply = HttpReply(status: int, content: Payload, text: string)

  /** `text[:n]`. */
  function Prefix(text: string, n: nat): (p: string)
    ensures |p| <= n && StartsWith(text, p)
  {
    if |text| <= n then text else text[..n]
  }

  /**
   * The bytes a request yields or the text of the exception it raises. `fetch` stands for the HTTP
   * client: its `Err` is an exception the client raises, which for the platform and adapter data
   * requests includes the status error of `raise_for_status`. The module request checks the status
   * itself.
   */
  function Perform(plan: FetchPlan, fetch: FetchPlan -> Result<HttpReply, string>): (r: Result<Payload, string>)
    ensures plan.Unavailable? ==> r == Err(plan.message)
    ensures plan.ModuleExport? && fetch(plan).Ok? ==> (r.Ok? <==> fetch(plan).value.status == 200)
  {
    match plan
    case Unavailable(message) => Err(message)
    case ModuleExport(source, _, _) =>
      (match fetch(plan)
       case Err(m) => Err(m)
       case Ok(reply) =>
         if reply.status != 200 then
           Err("Module " + source + " returned " + IntToString(reply.status) + ": " + Prefix(reply.text, 500))
         else Ok(reply.content))
    case _ =>
      match fetch(plan)
      case Err(m) => Err(m)
      case Ok(reply) => Ok(reply.content)
  }

  /** The text of a failed group's 502 reply. */
  function FetchFailure(source: string, message: string): string {
    "Error obteniendo datos de " + source + ": " + message
  }

  /** A group's outcome as the merge loop sees it: a failure becomes 502 naming the source. */
  function Fetched(source: string, outcome: Result<Payload, string>): Result<Payload, Reply> {
    match outcome
    case Err(m) => Err(ErrorReply(502, FetchFailure(source, m)))
    case Ok(p) => Ok(p)
  }

  /** The outcome of the request for the group of `source`. */
  function GroupOutcome(env: Env, source: string, group: seq<SeriesRef>, startTime: Value, endTime: Value, resolution: int,
                        fetch: FetchPlan -> Result<HttpReply, string>): Result<Payload, Reply> {
    Fetched(source, Perform(GroupPlan(env, source, group, startTime, endTime, resolution), fetch))
  }

  /** Route B's tasks: each source, in first-occurrence order, with its group. */
  function Tasks(series: seq<SeriesRef>): (ts: seq<(string, seq<SeriesRef>)>)
    ensures |ts| == |SourcesInOrder(series)|
    ensures forall j :: 0 <= j < |ts| ==> ts[j].0 == SourcesInOrder(series)[j] && ts[j].1 == WithSource(series, ts[j].0)
  {
    var order := SourcesInOrder(series);
    seq(|order|, j requires 0 <= j < |order| => (order[j], WithSource(series, order[j])))
  }

  /** What `asyncio.gather` returns for the tasks: each task's outcome, in task order. */
  function Outcomes(env: Env, tasks: seq<(string, seq<SeriesRef>)>, startTime: Value, endTime: Value, resolution: int,
                    fetch: FetchPlan -> Result<HttpReply, string>): (os: seq<Result<Payload, Reply>>)
    ensures |os| == |tasks|
    ensures forall j :: 0 <= j < |tasks| ==>
      os[j] == GroupOutcome(env, tasks[j].0, tasks[j].1, startTime, endTime, resolution, fetch)
  {
    seq(|tasks|, j requires 0 <= j < |tasks| =>
      GroupOutcome(env, tasks[j].0, tasks[j].1, startTime, endTime, resolution, fetch))
  }

  // ---------------------------------------------------------------- the alignment endpoint

  /**
   * What the alignment endpoint does with a request: reject it, forward it to the platform (route
   * A's request, before the platform answers), stream back what the platform answered, or merge.
   */
  datatype AlignResponse =
    | AlignRejected(reply: Reply)
    | AlignProxied(url: string, body: Value)
    | AlignStreamed(content: Payload)
    | AlignMerged(frame: Frame)

  /** Route A of the alignment endpoint: resolve every series, then forward to the platform. */
  function AlignRouteA(platformUrl: string, req: AlignRequest, lookup: string -> LookupReply): AlignResponse {
    match FirstError(Steps(req.series, RouteAStepFn(platformUrl, lookup)))
    case Err(e) => AlignRejected(e)
    case Ok(items) =>
      AlignProxied(platformUrl + "/api/timeseries/align", AlignProxyBody(req.startTime, req.endTime, req.resolution, items))
  }

  /** Route A's forwarded request, sent: what the platform answers is relayed. */
  function AlignForward(plan: AlignResponse, post: (string, Value) -> Result<Forwarded, string>): AlignResponse {
    match plan
    case AlignProxied(url, body) =>
      (match Relay(post(url, body))
       case Err(e) => AlignRejected(e)
       case Ok(content) => AlignStreamed(content))
    case _ => plan
  }

  /** Route B of the alignment endpoint: re-resolve, fetch one buffer per source, merge. */
  function AlignRouteB(env: Env, req: AlignRequest, lookup: string -> LookupReply,
                       fetch: FetchPlan -> Result<HttpReply, string>): Result<Frame, Reply> {
    match RouteBSeries(req.series, PlatformApiUrl(env), lookup)
    case Err(e) => Err(e)
    case Ok(series) =>
      match FirstError(Outcomes(env, Tasks(series), req.startTime, req.endTime, ClampAlignResolution(req.resolution), fetch))
      case Err(e) => Err(e)
      case Ok(bodies) =>
        if bodies == [] then Err(ErrorReply(400, "No se obtuvieron datos de ningún origen"))
        else
          match Gather(bodies)
          case Err(g) => Err(ErrorReply(502, Message(g)))
          case Ok(frame) => Ok(frame)
  }

  /** `proxy_timeseries_align` up to the bytes it returns. */
  function AlignOutcome(env: Env, body: Option<Value>, lookup: string -> LookupReply,
                        fetch: FetchPlan -> Result<HttpReply, string>,
                        post: (string, Value) -> Result<Forwarded, string>): AlignResponse {
    match ParseAlign(body)
    case Err(e) => AlignRejected(e)
    case Ok(req) =>
      if TakesRouteA(req.series, PlatformApiUrl(env)) then AlignForward(AlignRouteA(PlatformApiUrl(env), req, lookup), post)
      else
        match AlignRouteB(env, req, lookup, fetch)
        case Err(e) => AlignRejected(e)
        case Ok(frame) => AlignMerged(frame)
  }

  /** The task loop of route B: one task per key of `sources_map`, in key order. */
  method MakeTasks(order: seq<string>, groups: map<string, seq<SeriesRef>>) returns (tasks: seq<(string, seq<SeriesRef>)>)
    requires forall k :: k in order ==> k in groups
    ensures |tasks| == |order|
    ensures forall j :: 0 <= j < |order| ==> tasks[j] == (order[j], groups[order[j]])
  {
    tasks := [];
    for j := 0 to |order|
      invariant |tasks| == j
      invariant forall k :: 0 <= k < j ==> tasks[k] == (order[k], groups[order[k]])
    {
      var source := order[j];
      tasks := tasks + [(source, groups[source])];
    }
  }

  /** Route A of `proxy_timeseries_align`: resolve every series, post the request, relay the answer. */
  method ForwardAlign(platformUrl: string, req: AlignRequest, lookup: string -> LookupReply,
                      post: (string, Value) -> Result<Forwarded, string>) returns (resp: AlignResponse)
    ensures resp == AlignForward(AlignRouteA(platformUrl, req, lookup), post)
  {
    var items := ResolveRouteA(req.series, platformUrl, lookup);
    if items.Err? {
      return AlignRejected(items.error);
    }
    var answer := post(platformUrl + "/api/timeseries/align",
      AlignProxyBody(req.startTime, req.endTime, req.resolution, items.value));
    var relayed := Relay(answer);
    if relayed.Err? {
      return AlignRejected(relayed.error);
    }
    return AlignStreamed(relayed.value);
  }

  /** `proxy_timeseries_align`, step by step. */
  method AlignHandler(env: Env, body: Option<Value>, lookup: string -> LookupReply,
                      fetch: FetchPlan -> Result<HttpReply, string>,
                      post: (string, Value) -> Result<Forwarded, string>) returns (resp: AlignResponse)
    ensures resp == AlignOutcome(env, body, lookup, fetch, post)
  {
    var parsed := ParseAlign(body);
    if parsed.Err? {
      return AlignRejected(parsed.error);
    }
    var req := parsed.value;
    var platformUrl := PlatformApiUrl(env);
    if TakesRouteA(req.series, platformUrl) {
      resp := ForwardAlign(platformUrl, req, lookup, post);
      return;
    }
    var resolution := ClampAlignResolution(req.resolution);
    var resolved := ResolveRouteB(req.series, platformUrl, lookup);
    if resolved.Err? {
      return AlignRejected(resolved.error);
    }
    var series := resolved.value;
    var order, groups := GroupBySource(series);
    var tasks := MakeTasks(order, groups);
    assert tasks == Tasks(series);
    var outcomes := Outcomes(env, tasks, req.startTime, req.endTime, resolution, fetch);
    var bodies := CollectResults(outcomes);
    if bodies.Err? {
      return AlignRejected(bodies.error);
    }
    if bodies.value == [] {
      return AlignRejected(ErrorReply(400, "No se obtuvieron datos de ningún origen"));
    }
    var merged := GatherAligned(bodies.value);
    if merged.Err? {
      return AlignRejected(ErrorReply(502, Message(merged.error)));
    }
    return AlignMerged(merged.value);
  }

  // ---------------------------------------------------------------- what the alignment endpoint promises

  /**
   * Route A forwards exactly when every series resolves, each as its resolved id and attribute, in
   * order; otherwise it stops at the first series that does not: 404 when it has no location, the
   * framework's 500 when its lookup raised.
   */
  lemma AlignRouteAOutcome(platformUrl: string, req: AlignRequest, lookup: string -> LookupReply)
    ensures var out := AlignRouteA(platformUrl, req, lookup);
      && (out.AlignProxied? <==>
            forall i :: 0 <= i < |req.series| ==> ResolveEntityId(platformUrl, IdText(req.series[i]), lookup).Resolved?)
      && (out.AlignProxied? ==>
            && out.url == platformUrl + "/api/timeseries/align"
            && exists items: seq<Value> ::
                 && out.body == AlignProxyBody(req.startTime, req.endTime, req.resolution, items)
                 && |items| == |req.series|
                 && forall i :: 0 <= i < |items| ==>
                      items[i] == SeriesItem(ResolveEntityId(platformUrl, IdText(req.series[i]), lookup).id,
                                             req.series[i].attribute))
      && (!out.AlignProxied? ==> out.AlignRejected?)
      && (!out.AlignProxied? ==>
            exists i ::
              && 0 <= i < |req.series|
              && (forall j :: 0 <= j < i ==> ResolveEntityId(platformUrl, IdText(req.series[j]), lookup).Resolved?)
              && (ResolveEntityId(platformUrl, IdText(req.series[i]), lookup).NoLocation? ==>
                    out.reply == NoLocationReply(req.series[i]))
              && (ResolveEntityId(platformUrl, IdText(req.series[i]), lookup).LookupFailed? ==>
                    out.reply == InternalError)
              && !ResolveEntityId(platformUrl, IdText(req.series[i]), lookup).Resolved?)
  {
    var steps := Steps(req.series, RouteAStepFn(platformUrl, lookup));
    if FirstError(steps).Ok? {
      AlignRouteAForwards(platformUrl, req, lookup);
    } else {
      var i := AlignRouteAStops(platformUrl, req, lookup);
    }
  }

  /** One step of route A in terms of the resolver's three outcomes. */
  lemma RouteAStepCases(platformUrl: string, s: SeriesRef, lookup: string -> LookupReply)
    ensures var rid := ResolveEntityId(platformUrl, IdText(s), lookup);
      && (RouteAStep(platformUrl, s, lookup).Ok? <==> rid.Resolved?)
      && (rid.Resolved? ==> RouteAStep(platformUrl, s, lookup) == Ok(SeriesItem(rid.id, s.attribute)))
      && (rid.NoLocation? ==> RouteAStep(platformUrl, s, lookup) == Err(NoLocationReply(s)))
      && (rid.LookupFailed? ==> RouteAStep(platformUrl, s, lookup) == Err(InternalError))
  {
  }

  /** When every step of route A succeeds, the request is forwarded with one item per series. */
  lemma AlignRouteAForwards(platformUrl: string, req: AlignRequest, lookup: string -> LookupReply)
    requires FirstError(Steps(req.series, RouteAStepFn(platformUrl, lookup))).Ok?
    ensures var out := AlignRouteA(platformUrl, req, lookup);
      && out.AlignProxied?
      && (forall i :: 0 <= i < |req.series| ==> ResolveEntityId(platformUrl, IdText(req.series[i]), lookup).Resolved?)
      && out.url == platformUrl + "/api/timeseries/align"
      && exists items: seq<Value> ::
           && out.body == AlignProxyBody(req.startTime, req.endTime, req.resolution, items)
           && |items| == |req.series|
           && forall i :: 0 <= i < |items| ==>
                items[i] == SeriesItem(ResolveEntityId(platformUrl, IdText(req.series[i]), lookup).id,
                                       req.series[i].attribute)
  {
    var steps := Steps(req.series, RouteAStepFn(platformUrl, lookup));
    var items := FirstError(steps).value;
    forall i | 0 <= i < |req.series|
      ensures ResolveEntityId(platformUrl, IdText(req.series[i]), lookup).Resolved?
      ensures items[i] == SeriesItem(ResolveEntityId(platformUrl, IdText(req.series[i]), lookup).id,
                                     req.series[i].attribute)
    {
      assert steps[i] == RouteAStep(platformUrl, req.series[i], lookup);
      RouteAStepCases(platformUrl, req.series[i], lookup);
    }
    assert AlignRouteA(platformUrl, req, lookup).body == AlignProxyBody(req.startTime, req.endTime, req.resolution, items);
  }

  /** When a step of route A fails, the request is rejected at the first series that does not resolve. */
  lemma AlignRouteAStops(platformUrl: string, req: AlignRequest, lookup: string -> LookupReply) returns (i: nat)
    requires FirstError(Steps(req.series, RouteAStepFn(platformUrl, lookup))).Err?
    ensures i < |req.series|
    ensures var out := AlignRouteA(platformUrl, req, lookup);
      var rid := ResolveEntityId(platformUrl, IdText(req.series[i]), lookup);
      && out.AlignRejected?
      && (forall j :: 0 <= j < i ==> ResolveEntityId(platformUrl, IdText(req.series[j]), lookup).Resolved?)
      && !rid.Resolved?
      && (rid.NoLocation? ==> out.reply == NoLocationReply(req.series[i]))
      && (rid.LookupFailed? ==> out.reply == InternalError)
  {
    var steps := Steps(req.series, RouteAStepFn(platformUrl, lookup));
    i :| 0 <= i < |steps| && steps[i].Err? && FirstError(steps).error == steps[i].error
      && forall j :: 0 <= j < i ==> steps[j].Ok?;
    forall j | 0 <= j < i
      ensures ResolveEntityId(platformUrl, IdText(req.series[j]), lookup).Resolved?
    {
      assert steps[j] == RouteAStep(platformUrl, req.series[j], lookup);
      RouteAStepCases(platformUrl, req.series[j], lookup);
    }
    assert steps[i] == RouteAStep(platformUrl, req.series[i], lookup);
    RouteAStepCases(platformUrl, req.series[i], lookup);
  }

  /**
   * A route A request never merges: it ends at the 404 or 500 of resolution, or is forwarded and
   * then streams back the platform's content below 400, the platform's failure from 400 on, or
   * the framework's 500 when the forwarding request raises.
   */
  lemma AlignRouteARelayed(env: Env, body: Option<Value>, lookup: string -> LookupReply,
                           fetch: FetchPlan -> Result<HttpReply, string>,
                           post: (string, Value) -> Result<Forwarded, string>)
    requires ParseAlign(body).Ok? && TakesRouteA(ParseAlign(body).value.series, PlatformApiUrl(env))
    ensures var out := AlignOutcome(env, body, lookup, fetch, post);
      var plan := AlignRouteA(PlatformApiUrl(env), ParseAlign(body).value, lookup);
      && !out.AlignMerged? && !out.AlignProxied?
      && (plan.AlignRejected? ==> out == plan)
      && (plan.AlignProxied? ==>
            var answer := post(plan.url, plan.body);
            && (answer.Err? ==> out == AlignRejected(InternalError))
            && (answer.Ok? ==> (out.AlignStreamed? <==> answer.value.status < 400))
            && (answer.Ok? && out.AlignStreamed? ==> out.content == answer.value.content)
            && (answer.Ok? && out.AlignRejected? ==> out.reply.status == answer.value.status))
  {
  }

  /**
   * Route B fails with 502 once re-resolution succeeded: every fetch failure and every gather
   * failure is a 502, and since a non-empty request has at least one source, the 400 for "no data
   * from any source" is never sent. A re-resolution lookup that raises is the framework's 500.
   */
  lemma AlignRouteBFailsWith502(env: Env, req: AlignRequest, lookup: string -> LookupReply,
                                fetch: FetchPlan -> Result<HttpReply, string>)
    requires req.series != []
    ensures RouteBSeries(req.series, PlatformApiUrl(env), lookup).Err? ==>
      AlignRouteB(env, req, lookup, fetch) == Err(InternalError)
    ensures RouteBSeries(req.series, PlatformApiUrl(env), lookup).Ok? && AlignRouteB(env, req, lookup, fetch).Err? ==>
      AlignRouteB(env, req, lookup, fetch).error.status == 502
  {
    if RouteBSeries(req.series, PlatformApiUrl(env), lookup).Ok? {
      var rs := RouteBSeries(req.series, PlatformApiUrl(env), lookup).value;
      RouteBKeepsGroups(req.series, PlatformApiUrl(env), lookup, "");
      FirstSourceFirst(rs);
      FetchesFailWith502(env, rs, req.startTime, req.endTime, ClampAlignResolution(req.resolution), fetch);
    }
  }

  /** Route B's fetches over at least one source: a failure is a 502, and success brings a body. */
  lemma FetchesFailWith502(env: Env, rs: seq<SeriesRef>, startTime: Value, endTime: Value, resolution: int,
                           fetch: FetchPlan -> Result<HttpReply, string>)
    requires Tasks(rs) != []
    ensures var all := FirstError(Outcomes(env, Tasks(rs), startTime, endTime, resolution, fetch));
      && (all.Err? ==> all.error.status == 502)
      && (all.Ok? ==> all.value != [])
  {
    var os := Outcomes(env, Tasks(rs), startTime, endTime, resolution, fetch);
    if FirstError(os).Err? {
      var i :| 0 <= i < |os| && os[i].Err? && FirstError(os).error == os[i].error;
      assert os[i].error.status == 502;
    }
  }

  /** A merged frame is the gather of exactly one buffer per source. */
  lemma AlignRouteBMerged(env: Env, req: AlignRequest, lookup: string -> LookupReply,
                          fetch: FetchPlan -> Result<HttpReply, string>)
    requires AlignRouteB(env, req, lookup, fetch).Ok?
    ensures exists bodies :: |bodies| == |SourcesInOrder(req.series)|
                             && Gather(bodies) == Ok(AlignRouteB(env, req, lookup, fetch).value)
  {
    assert RouteBSeries(req.series, PlatformApiUrl(env), lookup).Ok?;
    var rs := RouteBSeries(req.series, PlatformApiUrl(env), lookup).value;
    RouteBKeepsGroups(req.series, PlatformApiUrl(env), lookup, "");
    var os := Outcomes(env, Tasks(rs), req.startTime, req.endTime, ClampAlignResolution(req.resolution), fetch);
    assert |FirstError(os).value| == |SourcesInOrder(req.series)|;
  }

  /**
   * Without a platform URL, a request whose first series is a timescale series fails with 502
   * before any data is fetched: the timescale group is the first task and cannot be started.
   */
  lemma AlignTimescaleUnconfigured(env: Env, req: AlignRequest, lookup: string -> LookupReply,
                                   fetch: FetchPlan -> Result<HttpReply, string>)
    requires PlatformApiUrl(env) == "" && req.series != [] && req.series[0].source == "timescale"
    ensures AlignRouteB(env, req, lookup, fetch) == Err(ErrorReply(502, FetchFailure("timescale", PlatformNotConfigured)))
  {
    var rs := req.series;
    assert RouteBSeries(req.series, "", lookup) == Ok(rs);
    FirstSourceFirst(rs);
    var tasks := Tasks(rs);
    var os := Outcomes(env, tasks, req.startTime, req.endTime, ClampAlignResolution(req.resolution), fetch);
    assert os[0] == GroupOutcome(env, "timescale", tasks[0].1, req.startTime, req.endTime, ClampAlignResolution(req.resolution), fetch);
    assert os[0] == Err(ErrorReply(502, FetchFailure("timescale", PlatformNotConfigured)));
    FirstErrorAt(os, 0);
  }

  // ---------------------------------------------------------------- the data endpoint

  /** What the single-entity data endpoint does with a request. */
  datatype DataResponse = DataRejected(reply: Reply) | DataNoContent | DataStreamed(content: Payload)

  /**
   * `proxy_timeseries_data`: 503 without a platform URL, 204 when the entity has no timeseries
   * location, the framework's 500 when the lookup raises, and otherwise the platform's answer for
   * the resolved id's data path, relayed; the query string is passed on unchanged.
   */
  function DataOutcome(env: Env, entityId: string, lookup: string -> LookupReply,
                       get: string -> Result<Forwarded, string>): (r: DataResponse)
    ensures PlatformApiUrl(env) == "" ==> r == DataRejected(ErrorReply(503, PlatformNotConfigured))
    ensures r.DataNoContent? <==> PlatformApiUrl(env) != "" && ResolveEntityId(PlatformApiUrl(env), entityId, lookup).NoLocation?
    ensures PlatformApiUrl(env) != "" && ResolveEntityId(PlatformApiUrl(env), entityId, lookup).LookupFailed? ==>
      r == DataRejected(InternalError)
    ensures PlatformApiUrl(env) != "" && ResolveEntityId(PlatformApiUrl(env), entityId, lookup).Resolved? ==>
      var answer := get(DataUrl(PlatformApiUrl(env), ResolveEntityId(PlatformApiUrl(env), entityId, lookup).id));
      && (r.DataStreamed? <==> answer.Ok? && answer.value.status < 400)
      && (r.DataStreamed? ==> r.content == answer.value.content)
      && (r.DataRejected? ==> r.reply == Relay(answer).error)
  {
    var platformUrl := PlatformApiUrl(env);
    if platformUrl == "" then DataRejected(ErrorReply(503, PlatformNotConfigured))
    else
      match ResolveEntityId(platformUrl, entityId, lookup)
      case NoLocation => DataNoContent
      case LookupFailed => DataRejected(InternalError)
      case Resolved(rid) =>
        match Relay(get(DataUrl(platformUrl, rid)))
        case Err(e) => DataRejected(e)
        case Ok(content) => DataStreamed(content)
  }

  // ---------------------------------------------------------------- the export endpoint

  /** What the export endpoint does with a request; writing the CSV or Parquet file is not modelled. */
  datatype ExportResponse =
    | ExportRejected(reply: Reply)
    | ExportProxied(url: string, body: Value)
    | ExportCsv(columns: seq<Column>)
    | ExportParquet(columns: seq<Column>, tenant: string)

  /** The tenant a Parquet export is stored under: `(x_tenant_id or "default").strip() or "default"`. */
  function ExportTenant(tenant: string): (t: string)
    ensures t != ""
    ensures Strip(tenant) != "" ==> t == Strip(tenant)
    ensures Strip(tenant) == "" ==> t == "default"
  {
    if tenant == "" then "default"
    else
      var s := Strip(tenant);
      if s == "" then "default" else s
  }

  /**
   * The start and end times in seconds, or `None` when either is not a string or `iso` rejects it.
   * `iso` stands for `datetime.fromisoformat` after `Z` is replaced by `+00:00`, then `timestamp()`.
   */
  function ParseTimes(startTime: Value, endTime: Value, iso: string -> Option<int>): (r: Option<(int, int)>)
    ensures r.Some? <==> startTime.Str? && endTime.Str? && iso(startTime.s).Some? && iso(endTime.s).Some?
  {
    if startTime.Str? && endTime.Str? && iso(startTime.s).Some? && iso(endTime.s).Some? then
      Some((iso(startTime.s).value, iso(endTime.s).value))
    else None
  }

  /** `fetch_one_export`'s request: the series' adapter, or the `ValueError` when it has none. */
  function ExportPlan(env: Env, s: SeriesRef, startTime: Value, endTime: Value, resolution: int): (p: FetchPlan)
    ensures p.Unavailable? <==> AdapterBaseUrl(env, s.source).None?
  {
    match AdapterBaseUrl(env, s.source)
    case None => Unavailable("No adapter URL for source: " + s.source)
    case Some(base) => DataRequest(base, s, startTime, endTime, resolution)
  }

  /** One series' fetch as the export handler sees it: any failure becomes 502. */
  function ExportStep(env: Env, s: SeriesRef, startTime: Value, endTime: Value, resolution: int,
                      fetch: FetchPlan -> Result<HttpReply, string>): Result<Payload, Reply> {
    match Perform(ExportPlan(env, s, startTime, endTime, resolution), fetch)
    case Err(m) => Err(ErrorReply(502, "Adapter fetch failed: " + m))
    case Ok(p) => Ok(p)
  }

  function ExportStepFn(env: Env, startTime: Value, endTime: Value, resolution: int,
                        fetch: FetchPlan -> Result<HttpReply, string>): SeriesRef -> Result<Payload, Reply> {
    s => ExportStep(env, s, startTime, endTime, resolution, fetch)
  }

  /** Route A of the export endpoint: resolve every series, then forward to the platform's export. */
  function ExportRouteA(platformUrl: string, req: ExportRequest, lookup: string -> LookupReply): ExportResponse {
    match FirstError(Steps(req.series, RouteAStepFn(platformUrl, lookup)))
    case Err(e) => ExportRejected(e)
    case Ok(items) => ExportProxied(platformUrl + "/api/timeseries/export", ExportProxyBody(req, items))
  }

  /** Route B of the export endpoint: parse the times, fetch every series, align on the grid. */
  function ExportRouteB(env: Env, req: ExportRequest, tenant: string, lookup: string -> LookupReply,
                        fetch: FetchPlan -> Result<HttpReply, string>, iso: string -> Option<int>): ExportResponse {
    match ParseTimes(req.startTime, req.endTime, iso)
    case None => ExportRejected(ErrorReply(400, "Invalid start_time or end_time format"))
    case Some(times) =>
      if times.0 >= times.1 then ExportRejected(ErrorReply(400, "start_time must be before end_time"))
      else
        var resolution := ResolutionFromAggregation(times.0, times.1, req.aggregation);
        match RouteBSeries(req.series, PlatformApiUrl(env), lookup)
        case Err(e) => ExportRejected(e)
        case Ok(series) =>
          match FirstError(Steps(series, ExportStepFn(env, req.startTime, req.endTime, resolution, fetch)))
          case Err(e) => ExportRejected(e)
          case Ok(bodies) =>
            var columns := Aligned(bodies, Grid(times.0, times.1, ClampGrid(resolution)));
            if req.format == "csv" then ExportCsv(columns) else ExportParquet(columns, ExportTenant(tenant))
  }

  /** `proxy_export` up to the file it writes or the request it forwards. */
  function ExportOutcome(env: Env, body: Option<Value>, tenant: string, lookup: string -> LookupReply,
                         fetch: FetchPlan -> Result<HttpReply, string>, iso: string -> Option<int>): ExportResponse {
    match ParseExport(body)
    case Err(e) => ExportRejected(e)
    case Ok(req) =>
      if TakesRouteA(req.series, PlatformApiUrl(env)) then ExportRouteA(PlatformApiUrl(env), req, lookup)
      else ExportRouteB(env, req, tenant, lookup, fetch, iso)
  }

  /** `proxy_export`, step by step. */
  method ExportHandler(env: Env, body: Option<Value>, tenant: string, lookup: string -> LookupReply,
                       fetch: FetchPlan -> Result<HttpReply, string>, iso: string -> Option<int>)
    returns (resp: ExportResponse)
    ensures resp == ExportOutcome(env, body, tenant, lookup, fetch, iso)
  {
    var parsed := ParseExport(body);
    if parsed.Err? {
      return ExportRejected(parsed.error);
    }
    var req := parsed.value;
    var platformUrl := PlatformApiUrl(env);
    if TakesRouteA(req.series, platformUrl) {
      var items := ResolveRouteA(req.series, platformUrl, lookup);
      if items.Err? {
        return ExportRejected(items.error);
      }
      return ExportProxied(platformUrl + "/api/timeseries/export", ExportProxyBody(req, items.value));
    }
    var times := ParseTimes(req.startTime, req.endTime, iso);
    if times.None? {
      return ExportRejected(ErrorReply(400, "Invalid start_time or end_time format"));
    }
    var startTs := times.value.0;
    var endTs := times.value.1;
    if startTs >= endTs {
      return ExportRejected(ErrorReply(400, "start_time must be before end_time"));
    }
    var resolution := ResolutionFromAggregation(startTs, endTs, req.aggregation);
    var resolved := ResolveRouteB(req.series, platformUrl, lookup);
    if resolved.Err? {
      return ExportRejected(resolved.error);
    }
    var series := resolved.value;
    var fetched := FirstError(Steps(series, ExportStepFn(env, req.startTime, req.endTime, resolution, fetch)));
    if fetched.Err? {
      return ExportRejected(fetched.error);
    }
    var columns := AlignToGrid(fetched.value, startTs, endTs, resolution);
    if req.format == "csv" {
      return ExportCsv(columns);
    }
    return ExportParquet(columns, ExportTenant(tenant));
  }

  // ---------------------------------------------------------------- what the export endpoint promises

  /**
   * An export that reaches the file has start before end and is the aligned frame of one buffer per
   * series: `timestamp` and one `value_i` column per series, each as long as a grid of 2 to 10000
   * points.
   */
  lemma ExportAlignedShape(env: Env, req: ExportRequest, tenant: string, lookup: string -> LookupReply,
                           fetch: FetchPlan -> Result<HttpReply, string>, iso: string -> Option<int>)
    requires ExportRouteB(env, req, tenant, lookup, fetch, iso).ExportCsv? ||
             ExportRouteB(env, req, tenant, lookup, fetch, iso).ExportParquet?
    ensures var out := ExportRouteB(env, req, tenant, lookup, fetch, iso);
      && ParseTimes(req.startTime, req.endTime, iso).Some?
      && ParseTimes(req.startTime, req.endTime, iso).value.0 < ParseTimes(req.startTime, req.endTime, iso).value.1
      && (out.ExportCsv? <==> req.format == "csv")
      && (out.ExportParquet? ==> out.tenant == ExportTenant(tenant))
      && WellFormed(out.columns)
      && |out.columns| == |req.series| + 1
      && out.columns[0].name == "timestamp"
      && (forall i :: 1 <= i < |out.columns| ==> out.columns[i].name == ValueName(i - 1))
      && (forall i :: 0 <= i < |out.columns| ==> 2 <= |out.columns[i].cells| <= 10000)
  {
    var times := ParseTimes(req.startTime, req.endTime, iso).value;
    var resolution := ResolutionFromAggregation(times.0, times.1, req.aggregation);
    var series := RouteBSeries(req.series, PlatformApiUrl(env), lookup).value;
    var bodies := FirstError(Steps(series, ExportStepFn(env, req.startTime, req.endTime, resolution, fetch))).value;
    var grid := Grid(times.0, times.1, ClampGrid(resolution));
    AlignedShape(bodies, grid);
    var out := ExportRouteB(env, req, tenant, lookup, fetch, iso);
    assert out.columns == Aligned(bodies, grid);
    forall i | 1 <= i < |out.columns| ensures out.columns[i].name == ValueName(i - 1) {
      assert out.columns[(i - 1) + 1] == Column(ValueName(i - 1), AlignColumn(bodies[i - 1], grid));
    }
  }
}
