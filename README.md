# Data hub BFF — a Dafny model

This project models the backend-for-frontend of the data hub module, its three FastAPI routers:

- **timeseries** validates the series list of a request and resolves NGSI-LD URNs to platform
  timeseries ids. It then takes one of two routes:
  - route A, when every series comes from `timescale`, proxies the request to the platform;
  - route B, otherwise, groups the series by source, fetches one Arrow buffer per source (or per
    series for exports) and merges them. Alignment merges by full outer join on `timestamp` and
    renames the value columns to `value_0`, `value_1`, …. Export samples each series on a time grid
    with last-observation-carried-forward (`join_asof` backward).
  - The single-entity data proxy and the export resolution rule are modelled too.
- **entities** normalises NGSI-LD entities into the entity tree: id, type, name, entity-level
  source, and the timeseries attributes discovered with a per-attribute source. It also lists the
  entities of the four data-bearing types with an optional case-insensitive search.
- **workspaces** validates a `DataHubWorkspace` and upserts it into Orion-LD: create, and on a 409
  patch `name`, `timeContext` and `layout`. It maps Orion's status codes to replies and lists a
  tenant's workspaces.

Some parts are passed in as parameters: the environment (`Env`), every HTTP exchange (lookups,
fetches, Orion calls) and ISO time parsing. An uncaught Python exception is the 500 reply
`InternalError`. JSON values are `Json.Value`. Polars and Arrow tables are `Tables.Column`
sequences (decoded buffers) and `Tables.Frame` row sets (join results).

Modules, one per file: `Wrappers`, `PyStrings` (Python `strip`/`lower`/`upper` on ASCII), `Json`,
`Settings`, `SourceNames`, `Selection` (filtered list comprehensions), `Tables`, `TimeseriesGather`,
`TimeseriesAlign`, `TimeseriesSeries`, `TimeseriesApi`, `Entities`, `Workspaces`.

Each handler is written twice:
- as a method, step by step, like the source (`AlignHandler`, `ExportHandler`, `GetEntities`,
  `NormEntity`, `PostWorkspace`, …);
- as a function the method is proved equal to (`AlignOutcome`, `ExportOutcome`, `Listing`,
  `NormalisedEntity`, `PostOutcome`, …).

The lemmas state what the handlers promise about those functions.

## Model

| member | source | states |
|---|---|---|
| TimeseriesApi.IsUrnSpec | backend/app/api/timeseries.py:49 | the letter-by-letter URN test is exactly `eid.lower().startswith("urn:")` |
| TimeseriesApi.ResolveEntityId | backend/app/api/timeseries.py:37-61 | without a base URL, an id or a `urn:` prefix the id passes through; otherwise the lookup decides: no location (`None`) exactly when it answers anything but 200, a raised exception exactly when the lookup raises, and a resolved id is truthy |
| TimeseriesApi.ResolvedFromLocation | backend/app/api/timeseries.py:55-60 | on a 200 lookup the id is resolved, to `timeseries_entity_id` when truthy, else the stripped id |
| TimeseriesApi.AdapterBaseUrl | backend/app/api/timeseries.py:64-73 | `timescale` maps to the platform URL (none when unset); another source maps to its `TIMESERIES_ADAPTER_<SOURCE>_URL` setting, else to `http://<source>:8000`; a URL is never empty |
| TimeseriesApi.ExternalSourceHasAdapter | backend/app/api/timeseries.py:69-73 | every normalised source other than `timescale` has an adapter URL |
| TimeseriesApi.AdapterUrlNoTrailingSlash | backend/app/api/timeseries.py:70 | a configured adapter URL never ends in `/` |
| TimeseriesApi.Clamp | backend/app/api/timeseries.py:402 | `min(max(x, lo), hi)` lies in `[lo, hi]`, is `x` inside it and the nearer bound outside it |
| TimeseriesApi.ClampAlignIdempotent | backend/app/api/timeseries.py:416 | clamping a resolution to 100..10000 twice is clamping it once |
| TimeseriesApi.ResolutionFromAggregation | backend/app/api/timeseries.py:507-519 | 1000 for an empty or negative span; otherwise `raw` counts minutes with floor 1000, `1 day` counts days, anything else counts hours, floor 100, always capped at 10000 |
| TimeseriesApi.ResolutionMonotone | backend/app/api/timeseries.py:507-519 | a longer span never gets fewer points |
| TimeseriesApi.FirstError | backend/app/api/timeseries.py:389-396 | the loop succeeds exactly when every step does, with every step's value in order; otherwise it stops at the first failure |
| TimeseriesApi.CollectResults | backend/app/api/timeseries.py:444-451 | the result loop returns the first failed task's reply, else every body in task order |
| TimeseriesApi.RunSteps | backend/app/api/timeseries.py:388-396 | the per-series loop equals `FirstError` of the steps |
| TimeseriesApi.ResolveRouteA | backend/app/api/timeseries.py:388-396 | route A's resolution loop: 404 for the first series without a location, 500 when its lookup raised, else the resolved items |
| TimeseriesApi.UpstreamFailure | backend/app/api/timeseries.py:407-412 | an upstream status of 400 or more is passed on with its JSON body, or with an `error` text when the body is not JSON |
| TimeseriesApi.Relay | backend/app/api/timeseries.py:405-413 | a forwarded request that raises is the 500; an answer below 400 is streamed back with its content; from 400 on the answer's status and body are passed on |
| TimeseriesApi.Reresolved | backend/app/api/timeseries.py:420-424 | route B changes only the entity id, and only for `timescale` series when the platform URL is set; it fails, with the 500, exactly when such a series' lookup raises |
| TimeseriesApi.ReresolveOne | backend/app/api/timeseries.py:421-424 | one pass of route B's loop equals `Reresolved` |
| TimeseriesApi.RouteBSeries | backend/app/api/timeseries.py:418-424 | route B's series are each re-resolved, or the 500 of a raising lookup; without a platform URL they are unchanged |
| TimeseriesApi.ResolveRouteB | backend/app/api/timeseries.py:418-424 | route B's in-place re-resolution loop equals `RouteBSeries`, returning at the first lookup that raises |
| TimeseriesApi.RouteBKeepsGroups | backend/app/api/timeseries.py:418-430 | re-resolution keeps the sources, their first-occurrence order and every group's size |
| TimeseriesApi.SourceKeyOfNormalised | backend/app/api/timeseries.py:429 | re-normalising an already normalised source gives it back |
| TimeseriesApi.TimescalePlan | backend/app/api/timeseries.py:224-259 | no platform URL raises before any request; one series is a direct data GET; several go to the platform's `/api/timeseries/align` |
| TimeseriesApi.ModulePlan | backend/app/api/timeseries.py:262-289 | a module request fails, with `No adapter URL for source: <source>`, exactly when the source has no adapter; otherwise it is a POST to the adapter URL without its trailing `/` plus `/api/internal/timeseries/export-arrow`, whose body carries the group's series items in order, `start_time`, `end_time` and `resolution` |
| TimeseriesApi.GroupPlanUnavailable | backend/app/api/timeseries.py:233-235 | a group fails before the network exactly when it is the `timescale` group and the platform URL is unset |
| TimeseriesApi.Perform | backend/app/api/timeseries.py:283-289 | a module reply succeeds exactly when its status is 200 |
| TimeseriesApi.Tasks | backend/app/api/timeseries.py:432-441 | one task per source in first-occurrence order, holding exactly that source's group |
| TimeseriesApi.MakeTasks | backend/app/api/timeseries.py:434-441 | the task loop pairs each key of `sources_map`, in order, with its group |
| TimeseriesApi.Outcomes | backend/app/api/timeseries.py:443 | `gather` yields each task's outcome in task order |
| TimeseriesApi.AlignHandler | backend/app/api/timeseries.py:340-466 | the alignment endpoint, step by step and including route A's forwarded request, equals `AlignOutcome` |
| TimeseriesApi.ForwardAlign | backend/app/api/timeseries.py:386-413 | route A of the alignment endpoint, step by step, equals the relayed answer to the planned request |
| TimeseriesApi.AlignRouteAOutcome | backend/app/api/timeseries.py:385-404 | route A forwards exactly when every series resolves, with the resolved id and attribute of each series in order; otherwise it stops at the first series that does not resolve, with 404 when it has no location and the 500 when its lookup raised |
| TimeseriesApi.AlignRouteARelayed | backend/app/api/timeseries.py:405-413 | a route A request never merges: it ends at resolution's failure, or its forwarded request is relayed — 500 when it raises, the content below 400, the platform's status from 400 on |
| TimeseriesApi.AlignRouteBFailsWith502 | backend/app/api/timeseries.py:418-460 | a raising re-resolution lookup is the 500; once re-resolution succeeded, every route B failure of a non-empty request is a 502 and the 400 "no data" reply cannot occur |
| TimeseriesApi.AlignRouteBMerged | backend/app/api/timeseries.py:453-458 | a merged frame is the gather of exactly one buffer per source |
| TimeseriesApi.AlignTimescaleUnconfigured | backend/app/api/timeseries.py:233-235 | without a platform URL, a request whose first series is `timescale` fails with the 502 naming `timescale` |
| TimeseriesApi.DataOutcome | backend/app/api/timeseries.py:469-504 | 503 without a platform URL; 204 exactly when the id has no location; the 500 when the lookup raises; otherwise the GET of `/api/timeseries/entities/<resolved id>/data` on the platform, relayed |
| TimeseriesApi.ExportTenant | backend/app/api/timeseries.py:650 | the Parquet tenant is the stripped tenant id, or `default` when that is blank |
| TimeseriesApi.ParseTimes | backend/app/api/timeseries.py:597-602 | times parse exactly when both are strings that the ISO parser accepts |
| TimeseriesApi.ExportPlan | backend/app/api/timeseries.py:617-620 | a series' export fetch fails before the network exactly when its source has no adapter |
| TimeseriesApi.ExportHandler | backend/app/api/timeseries.py:522-657 | the export endpoint, step by step, equals `ExportOutcome` |
| TimeseriesApi.ExportAlignedShape | backend/app/api/timeseries.py:596-657 | an export that reaches the file has start before end and is CSV exactly for `csv`; its frame is well formed, `timestamp` then `value_0…` with one column per series, each with 2 to 10000 grid points |
| TimeseriesSeries.NormSource | backend/app/api/timeseries.py:375-379 | a series source is never empty: a blank or non-string source is `timescale`, else the stripped lower-cased string |
| TimeseriesSeries.NormSourceNormalised | backend/app/api/timeseries.py:375-379 | normalised sources are trimmed and lower-case, and normalising again changes nothing |
| TimeseriesSeries.CheckItemSpec | backend/app/api/timeseries.py:368-380 | an item is rejected as "not an object" exactly when it is not a dict, and for missing fields exactly when `entity_id` or `attribute` is falsy; an accepted item keeps `entity_id`, `str(attribute)` and the normalised source |
| TimeseriesSeries.NormalizeFrom | backend/app/api/timeseries.py:367-380 | the list succeeds exactly when every item is valid, with every item in order; otherwise the first invalid item's error, naming its index |
| TimeseriesSeries.FirstInvalidUnique | backend/app/api/timeseries.py:368-374 | the reported index is the unique first invalid one |
| TimeseriesSeries.NormalizeSeries | backend/app/api/timeseries.py:367-380 | the normalisation loop equals `NormalizeFrom` |
| Json.ParseInt | backend/app/api/timeseries.py:359 | `int()` of a string succeeds exactly on surrounding whitespace, an optional sign and digits with single underscores between them |
| Json.ParseIntOfString | backend/app/api/timeseries.py:359 | `int(str(n)) == n` for every integer |
| Json.GroupedDigits | backend/app/api/timeseries.py:359 | an underscore between two digit groups is accepted and changes nothing: `int("1_000") == int("1000")` |
| Json.PyInt | backend/app/api/timeseries.py:359 | `int()` of a number is that number; of `None`, a list or a dict it raises |
| TimeseriesSeries.ParseAlignAccepts | backend/app/api/timeseries.py:352-380 | an alignment body is accepted exactly when both times are truthy, `series` is a list of at least 2 items and every item is valid; the request keeps the times, `int(resolution)` (default 1000) and the items |
| TimeseriesSeries.ParseAlignErrors | backend/app/api/timeseries.py:361-364 | missing times are reported before a short series list |
| TimeseriesSeries.StrippedLower | backend/app/api/timeseries.py:541-542 | `(v or default).strip().lower()`: the default for a falsy value, a 500 for a truthy non-string |
| TimeseriesSeries.ExportChecks | backend/app/api/timeseries.py:543-548 | the format is checked first, then the times, then the series list; all pass exactly when each holds |
| TimeseriesSeries.ParseExportAccepts | backend/app/api/timeseries.py:533-563 | an export body is accepted exactly when its checks pass and every item is valid; the request keeps the normalised format and aggregation and the items |
| TimeseriesSeries.ParseExportErrors | backend/app/api/timeseries.py:541-548 | once format and aggregation are read, a failing check is the reply, and otherwise only the items can fail |
| TimeseriesSeries.AcceptedSourcesNormalised | backend/app/api/timeseries.py:375-380 | every accepted series has a normalised source |
| TimeseriesSeries.RouteAIff | backend/app/api/timeseries.py:382-386 | route A is taken exactly when there is a series, every source is `timescale` and the platform URL is set |
| TimeseriesSeries.GroupBySource | backend/app/api/timeseries.py:427-430 | `sources_map` holds every source, keys in first-occurrence order, each with exactly its series in input order |
| TimeseriesSeries.GroupsPartition | backend/app/api/timeseries.py:427-430 | every series is in the group of its own source and of no other |
| TimeseriesSeries.WithSourceAppend | backend/app/api/timeseries.py:430 | groups keep input order: grouping a concatenation concatenates the groups |
| TimeseriesSeries.SourcesFirstOccurrence | backend/app/api/timeseries.py:427-434 | when a source is listed before another, one of its series comes before every series of the other |
| TimeseriesSeries.FirstSourceFirst | backend/app/api/timeseries.py:434 | the first task is the first series' source |
| TimeseriesGather.Classify | backend/app/api/timeseries.py:300-312 | a buffer is rejected as invalid IPC, skipped when empty, rejected without `timestamp` or without a value column, else kept as `timestamp` plus its `value`/`value_*` columns |
| TimeseriesGather.CollectFrames | backend/app/api/timeseries.py:299-312 | the parsing loop equals `Collect` |
| TimeseriesGather.CollectOkIff | backend/app/api/timeseries.py:299-312 | parsing succeeds exactly when no buffer is rejected |
| TimeseriesGather.CollectFirstError | backend/app/api/timeseries.py:299-312 | a parsing failure is the first rejected buffer's error |
| TimeseriesGather.CollectKept | backend/app/api/timeseries.py:305-312 | the frames kept are exactly those of the kept buffers |
| TimeseriesGather.JoinFrames | backend/app/api/timeseries.py:315-328 | the join loop equals `JoinUpTo` over all frames |
| TimeseriesGather.GatherAligned | backend/app/api/timeseries.py:292-328 | the merge equals `Gather` |
| TimeseriesGather.JoinUpToNames | backend/app/api/timeseries.py:317-327 | after joining `n` frames the value columns are `value_0 … value_{k-1}`, numbered across frames |
| TimeseriesGather.JoinUpToKeys | backend/app/api/timeseries.py:325 | the joined timestamps are the union of the frames' timestamps |
| TimeseriesGather.JoinUpToJoined | backend/app/api/timeseries.py:320-327 | each joined row holds, block by block, a row of each frame with that timestamp, or nulls when that frame has none; and every row of every frame appears in some joined row |
| TimeseriesGather.GatherShape | backend/app/api/timeseries.py:292-328 | a merged frame has the renamed columns, is sorted by timestamp, covers the union of timestamps and joins every frame's rows |
| TimeseriesGather.GatherFailure | backend/app/api/timeseries.py:297-314 | no buffers, all empty, or a rejected buffer are exactly the failures |
| Tables.SortRows | backend/app/api/timeseries.py:326-328 | sorting by timestamp yields a sorted permutation of the rows |
| Tables.FullJoinKeys | backend/app/api/timeseries.py:325 | a full join's timestamps are the union of both sides' |
| Tables.FullJoinWidth | backend/app/api/timeseries.py:325 | every joined row has the width of both sides |
| Tables.LastAtOrBeforeIsLatest | backend/app/api/timeseries.py:111-117 | the backward as-of match is the latest row at or before the grid point |
| TimeseriesAlign.ClampGrid | backend/app/api/timeseries.py:91 | the grid has 2 to 10000 points, the resolution itself when it is in range |
| TimeseriesAlign.GridBounds | backend/app/api/timeseries.py:92-95 | the grid starts at the start, ends at the end and never decreases |
| TimeseriesAlign.AlignToGrid | backend/app/api/timeseries.py:81-119 | the alignment loop equals `Aligned` on the clamped grid |
| TimeseriesAlign.AlignedShape | backend/app/api/timeseries.py:96-119 | the aligned frame is well formed: `timestamp` then `value_i` per buffer, every column as long as the grid |
| TimeseriesAlign.AlignColumnUnusable | backend/app/api/timeseries.py:99-110 | an unreadable, empty or column-less buffer gives an all-null column |
| TimeseriesAlign.AlignColumnLocf | backend/app/api/timeseries.py:111-118 | each grid point takes the value of the latest row at or before it, null when there is none |
| PyStrings.StripLowerIdempotent | backend/app/api/timeseries.py:377 | `s.strip().lower()` is idempotent |
| Entities.GetValue | backend/app/api/entities.py:25-31 | a dict with `value` gives that value, anything else itself |
| Entities.NormalizedAgreesWithSimplified | backend/app/api/entities.py:25-31 | a normalised property and its simplified value read the same |
| Entities.AttrSource | backend/app/api/entities.py:42-58 | an attribute source exists exactly when the attribute is a dict whose `source` reads as a non-blank string, and is that string stripped and lower-cased |
| Entities.EntitySource | backend/app/api/entities.py:93-99 | the entity source is normalised: `source` when it names one, `timescale` when it is truthy but not a name, `provider` when `source` is falsy |
| Entities.EntityId | backend/app/api/entities.py:85-88 | a string id is kept; a falsy id is `""`; a dict id gives its `value` |
| Entities.EntityName | backend/app/api/entities.py:90-91 | a missing name is `Unknown`; a string name is kept |
| Entities.AttributeOf | backend/app/api/entities.py:115-116 | an attribute's source is its own when it has one, else the entity's |
| Entities.DiscoveredInEntryOrder | backend/app/api/entities.py:101-116 | the attributes are exactly the emitted entries, in entry order |
| Entities.DiscoveredOnce | backend/app/api/entities.py:101-116 | for an entity with distinct keys, as `json.loads` builds it, no attribute is listed twice |
| Entities.DiscoveredSourcesNormalised | backend/app/api/entities.py:115 | every attribute source is normalised |
| Entities.NormalisedEntity | backend/app/api/entities.py:118-124 | the record holds the id, type, name, source and attributes as defined above |
| Entities.NormEntity | backend/app/api/entities.py:61-124 | the normalisation loop equals `NormalisedEntity` |
| Entities.MatchesIgnoresCase | backend/app/api/entities.py:168-171 | a search matches exactly when its lower-cased text occurs in the lower-cased name or id; changing the query's case does not change the result |
| Entities.FetchedEntities | backend/app/api/entities.py:141-144 | a failed fetch is `None`; a non-list reply is an empty list |
| Entities.ObjectPrefix | backend/app/api/entities.py:166-174 | records are kept up to the first non-dict item, whose error ends that type |
| Entities.TypeEntities | backend/app/api/entities.py:166-172 | the per-type loop equals `Kept` on that prefix |
| Entities.GetEntities | backend/app/api/entities.py:147-176 | the listing loop equals `Listing` |
| Entities.KeptMatch | backend/app/api/entities.py:166-172 | every kept record matches the search and carries the type |
| Entities.KeptAll | backend/app/api/entities.py:168 | without a search every entity is kept, normalised, in order |
| Entities.ListingMatches | backend/app/api/entities.py:157-176 | no platform URL lists nothing; every listed record matches the search and has one of the four types |
| Entities.KeptExactly | backend/app/api/entities.py:166-172 | the records kept for one type are exactly those of the matching entities, each normalised, in input order |
| Entities.KeptComplete | backend/app/api/entities.py:166-172 | every entity whose record matches the search is kept |
| Entities.ListingComplete | backend/app/api/entities.py:157-176 | for a type whose request succeeded, every entity before the first non-object whose record matches the search is listed |
| Workspaces.OrionBase | backend/app/api/workspaces.py:20-25 | `ORION_URL` when set, else `PLATFORM_API_URL`; empty exactly when both are |
| Workspaces.HeadersOrion | backend/app/api/workspaces.py:28-35 | the header builder equals `OrionHeaders` |
| Workspaces.OrionHeadersContents | backend/app/api/workspaces.py:28-31 | JSON-LD content type and accept always; `Authorization` exactly when given |
| Workspaces.OrionHeadersTenant | backend/app/api/workspaces.py:32-34 | `Fiware-Service` and service path `/` exactly when a tenant is given |
| Workspaces.OrionHeadersOnly | backend/app/api/workspaces.py:28-35 | no other header is sent |
| Workspaces.SelectTenant | backend/app/api/workspaces.py:63-64 | `Fiware-Service` wins over `X-Tenant-ID` when given; the choice is stripped and a blank one is no tenant |
| Workspaces.CheckPost | backend/app/api/workspaces.py:50-74 | a post passes exactly when the body is an object, Orion is configured, a tenant is given, `id` is a non-empty string and `type` is `DataHubWorkspace`; failures are 400 or 503 |
| Workspaces.CheckPostOrder | backend/app/api/workspaces.py:57-72 | configuration is checked before the tenant, and the tenant before the id |
| Workspaces.PatchBody | backend/app/api/workspaces.py:92-98 | the patch loop equals `PatchFields` |
| Workspaces.PatchFieldsSpec | backend/app/api/workspaces.py:92-99 | the patch holds exactly the body's `name`, `timeContext` and `layout` entries with their values, in that order and none twice; it is empty exactly when the body has none |
| Workspaces.PassOn | backend/app/api/workspaces.py:116 | an error status is passed on, any other becomes 502 |
| Workspaces.PatchReply | backend/app/api/workspaces.py:101-113 | a PATCH answered 200 or 204 is `200 {"id", "status": "updated"}`; any other answer is 502 with `error` the answer's text, or `PATCH failed` when it is empty, and `status` Orion's status; a PATCH that raises is 502 `Orion PATCH failed: <error>` |
| Workspaces.PostWorkspace | backend/app/api/workspaces.py:38-117 | the upsert handler equals `PostOutcome` |
| Workspaces.RejectedBeforeOrion | backend/app/api/workspaces.py:50-74 | a post that fails the checks never depends on Orion and is a 400 or 503 |
| Workspaces.PostStatusMapping | backend/app/api/workspaces.py:79-117 | a POST that raises is 502 `Orion request failed: <error>`; 201 is `created`; a 409 with nothing to patch is `exists` without a PATCH; a 409 otherwise is the reply to a PATCH of the entity's attrs URL with the patch fields and the tenant's headers; any other status is `Orion rejected the request`, its status passed on |
| Workspaces.ListReply | backend/app/api/workspaces.py:149-164 | a failed request is 502 with its text; an Orion error is passed on (502 outside 400..599); a 200 is its JSON array, `[]` for other JSON, the 500 when the body is not JSON |
| Workspaces.ListOutcome | backend/app/api/workspaces.py:120-164 | 503 without Orion, 400 without a tenant; otherwise the reply to a GET of the entities of type `DataHubWorkspace` with the tenant's headers |

## Left out

- HTTP, `asyncio` and threads: requests and replies are parameters, and tasks run one after another.
- Export route B takes fetch failures in series order. `asyncio.gather` raises whichever failure
  comes first in time.
- Arrow IPC and Polars byte formats: a buffer is either decoded columns or undecodable.
- Serialising Arrow IPC output, CSV streaming and the S3/MinIO Parquet upload with its presigned
  URL: exports end at the aligned frame.
- Floating point: timestamps, grid points and values are integers. The grid uses integer division.
  Polars' `Float64` cast is not modelled.
- ISO time parsing is the `iso` parameter.
- `quote()` URL encoding of the looked-up id is left out.
- Export route A stops at the forwarded request; `raise_for_status` and the CSV/JSON forwarding
  are left out.
- The data proxy forwards the query string and content type unchanged; they are not modelled.
- Arrow IPC files (`pl.read_ipc`) and Arrow IPC streams (`ipc.open_stream(...).read_all()`)
  are both `Tables.ReadIpc`: the model assumes a buffer decodes the same way in either format.
- Exception texts (`{e!s}`) are the `Err` strings of the parameters.
- Unicode case mapping: `lower`/`upper` act on ASCII letters only.
- JSON objects with duplicate keys: the model reads the first occurrence, Python keeps the last.
- JSON floats: numbers are integers.
- `_auth_headers` and the headers of `_fetch_ngsi_entities` are not modelled beyond their effect
  on the request.
- Environment variables are read at import time in the source and are the `Env` parameter here.
- backend/app/main.py (router wiring and CORS) is not part of this model.
- TimeseriesAlign.AlignColumnLocf: among rows with equal timestamps, which one `join_asof`
  picks is not stated. The Polars sortedness check is not modelled.
- Json.ParseInt: digits are ASCII only; Python's `int()` also reads other Unicode decimal
  digits.
- TimeseriesSeries.ParseAlignAccepts: a string `resolution` is read with `Json.ParseInt`, so
  non-ASCII decimal digits are rejected where Python accepts them.
- TimeseriesApi.Perform: the status check of platform data requests (`raise_for_status`) is part
  of the `fetch` parameter's `Err`.
