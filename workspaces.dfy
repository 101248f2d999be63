/**
 * Data hub workspaces, stored as `DataHubWorkspace` NGSI-LD entities in Orion-LD: the choice of the
 * Orion base URL, the request headers, tenant selection, validation of a posted workspace, the
 * create-then-patch-on-conflict upsert and the mapping of Orion's status codes to replies.
 * Orion's replies are parameters: `Err(m)` stands for a request that raised with message `m`.
 */
module Workspaces {
  import opened Wrappers
  import opened PyStrings
  import opened Json
  import opened Settings
  import opened Selection

  // ---------------------------------------------------------------- settings and headers

  /** `_orion_base`: `ORION_URL` when set, else `PLATFORM_API_URL` when set, else empty. */
  function OrionBase(env: Env): (base: string)
    ensures UrlSetting(env, "ORION_URL") != "" ==> base == UrlSetting(env, "ORION_URL")
    ensures UrlSetting(env, "ORION_URL") == "" ==> base == PlatformApiUrl(env)
    ensures base == "" <==> UrlSetting(env, "ORION_URL") == "" && PlatformApiUrl(env) == ""
  {
    var orion := UrlSetting(env, "ORION_URL");
    if orion != "" then orion
    else
      var platform := PlatformApiUrl(env);
      if platform != "" then platform else ""
  }

  type Headers = map<string, string>

  const LdJson := "application/ld+json"

  /** An optional header as Python tests it: present and not empty. */
  predicate Given(h: Option<string>) {
    h.Some? && h.value != ""
  }

  /** `_headers_orion`, as a function of its arguments. */
  function OrionHeaders(authorization: Option<string>, fiwareService: Option<string>): Headers {
    var h := map["Content-Type" := LdJson, "Accept" := LdJson];
    var h := if Given(authorization) then h["Authorization" := authorization.value] else h;
    if Given(fiwareService) then h["Fiware-Service" := fiwareService.value]["Fiware-ServicePath" := "/"] else h
  }

  /** `_headers_orion`: the JSON-LD content headers, then the credentials and the tenant when given. */
  method HeadersOrion(authorization: Option<string>, fiwareService: Option<string>) returns (h: Headers)
    ensures h == OrionHeaders(authorization, fiwareService)
  {
    h := map["Content-Type" := LdJson, "Accept" := LdJson];
    if Given(authorization) {
      h := h["Authorization" := authorization.value];
    }
    if Given(fiwareService) {
      h := h["Fiware-Service" := fiwareService.value];
      h := h["Fiware-ServicePath" := "/"];
    }
  }

  /** The headers always ask for and send JSON-LD, and carry `Authorization` exactly when it is given. */
  lemma OrionHeadersContents(authorization: Option<string>, fiwareService: Option<string>)
    ensures var h := OrionHeaders(authorization, fiwareService);
      && "Content-Type" in h && h["Content-Type"] == LdJson
      && "Accept" in h && h["Accept"] == LdJson
      && ("Authorization" in h <==> Given(authorization))
      && (Given(authorization) ==> h["Authorization"] == authorization.value)
  {
    HeaderNamesDistinct();
  }

  /** The tenant headers, `Fiware-Service` and service path `/`, are there exactly when a tenant is given. */
  lemma OrionHeadersTenant(authorization: Option<string>, fiwareService: Option<string>)
    ensures var h := OrionHeaders(authorization, fiwareService);
      && ("Fiware-Service" in h <==> Given(fiwareService))
      && ("Fiware-ServicePath" in h <==> Given(fiwareService))
      && (Given(fiwareService) ==> h["Fiware-Service"] == fiwareService.value && h["Fiware-ServicePath"] == "/")
  {
    HeaderNamesDistinct();
  }

  /** Nothing else is sent. */
  lemma OrionHeadersOnly(authorization: Option<string>, fiwareService: Option<string>)
    ensures forall k :: k in OrionHeaders(authorization, fiwareService) ==>
      k in {"Content-Type", "Accept", "Authorization", "Fiware-Service", "Fiware-ServicePath"}
  {
  }

  /** The five header names differ. */
  lemma HeaderNamesDistinct()
    ensures "Content-Type" != "Accept" && "Content-Type" != "Authorization"
    ensures "Accept" != "Authorization" && "Fiware-Service" != "Fiware-ServicePath"
    ensures "Fiware-Service" != "Content-Type" && "Fiware-Service" != "Accept" && "Fiware-Service" != "Authorization"
    ensures "Fiware-ServicePath" != "Content-Type" && "Fiware-ServicePath" != "Accept"
    ensures "Fiware-ServicePath" != "Authorization"
  {
    assert |"Content-Type"| == 12 && |"Accept"| == 6 && |"Authorization"| == 13;
    assert |"Fiware-Service"| == 14 && |"Fiware-ServicePath"| == 18;
  }

  // ---------------------------------------------------------------- tenant and body

  /**
   * `(fiware_service or x_tenant_id or "").strip() or None`: `Fiware-Service` wins over
   * `X-Tenant-ID` whenever it is given, even when it is blank; the choice is trimmed and a blank
   * result is no tenant.
   */
  function SelectTenant(fiwareService: Option<string>, xTenantId: Option<string>): (t: Option<string>)
    ensures Given(fiwareService) ==> t == (if Strip(fiwareService.value) != "" then Some(Strip(fiwareService.value)) else None)
    ensures !Given(fiwareService) && Given(xTenantId) ==>
      t == (if Strip(xTenantId.value) != "" then Some(Strip(xTenantId.value)) else None)
    ensures !Given(fiwareService) && !Given(xTenantId) ==> t.None?
    ensures t.Some? ==> t.value != "" && Strip(t.value) == t.value
  {
    var chosen := if Given(fiwareService) then fiwareService.value else if Given(xTenantId) then xTenantId.value else "";
    var stripped := Strip(chosen);
    StripIdempotent(chosen);
    if stripped != "" then Some(stripped) else None
  }

  const NotConfigured := "ORION_URL or PLATFORM_API_URL not configured"
  const TenantRequired := "Fiware-Service or X-Tenant-ID required for multitenancy"
  const WorkspaceType := "DataHubWorkspace"

  /** The workspace id the body carries: a non-empty string `id`. */
  predicate HasWorkspaceId(body: Value)
    requires body.Obj?
  {
    Get(body, "id").Str? && Get(body, "id").s != ""
  }

  /** What `post_workspace` checks before it calls Orion, in its order; the id of a valid workspace. */
  function CheckPost(env: Env, body: Option<Value>, xTenantId: Option<string>, fiwareService: Option<string>)
    : (r: Result<(string, string), Reply>)
    ensures body.None? ==> r == Err(ErrorReply(400, "Invalid JSON body"))
    ensures body.Some? && !body.value.Obj? ==> r == Err(ErrorReply(400, "Body must be a JSON object"))
    ensures r.Ok? <==>
      && body.Some? && body.value.Obj?
      && OrionBase(env) != "" && SelectTenant(fiwareService, xTenantId).Some?
      && HasWorkspaceId(body.value) && Get(body.value, "type") == Str(WorkspaceType)
    ensures r.Ok? ==> r.value.0 == Get(body.value, "id").s && r.value.1 == SelectTenant(fiwareService, xTenantId).value
    ensures r.Err? ==> r.error.status in {400, 503}
  {
    match body
    case None => Err(ErrorReply(400, "Invalid JSON body"))
    case Some(b) =>
      if !b.Obj? then Err(ErrorReply(400, "Body must be a JSON object"))
      else if OrionBase(env) == "" then Err(ErrorReply(503, NotConfigured))
      else
        match SelectTenant(fiwareService, xTenantId)
        case None => Err(ErrorReply(400, TenantRequired))
        case Some(tenant) =>
          if !HasWorkspaceId(b) then Err(ErrorReply(400, "id required"))
          else if Get(b, "type") != Str(WorkspaceType) then Err(ErrorReply(400, "type must be DataHubWorkspace"))
          else Ok((Get(b, "id").s, tenant))
  }

  /** The order of the checks: configuration, then tenant, then id, then type. */
  lemma CheckPostOrder(env: Env, b: Value, xTenantId: Option<string>, fiwareService: Option<string>)
    requires b.Obj?
    ensures OrionBase(env) == "" ==> CheckPost(env, Some(b), xTenantId, fiwareService) == Err(ErrorReply(503, NotConfigured))
    ensures OrionBase(env) != "" && SelectTenant(fiwareService, xTenantId).None? ==>
      CheckPost(env, Some(b), xTenantId, fiwareService) == Err(ErrorReply(400, TenantRequired))
    ensures OrionBase(env) != "" && SelectTenant(fiwareService, xTenantId).Some? && !HasWorkspaceId(b) ==>
      CheckPost(env, Some(b), xTenantId, fiwareService) == Err(ErrorReply(400, "id required"))
  {
  }

  // ---------------------------------------------------------------- the patch body

  /** The fields a conflicting workspace is patched with, in the order they are copied. */
  const PatchKeys: seq<string> := ["name", "timeContext", "layout"]

  /** Whether the body has a key, and the entry copying it, as function values. */
  function PresentIn(body: Value): string -> bool
    requires body.Obj?
  {
    (k: string) => Has(body, k)
  }

  function CopiedFrom(body: Value): string -> (string, Value)
    requires body.Obj?
  {
    (k: string) => (k, Get(body, k))
  }

  /** The entries `patch_body` receives: each patchable key the body has, with the body's value. */
  function PatchFields(body: Value): seq<(string, Value)>
    requires body.Obj?
  {
    Select(PatchKeys, PresentIn(body), CopiedFrom(body))
  }

  /** The 409 path: copy `name`, `timeContext` and `layout`, each when the body has it. */
  method PatchBody(body: Value) returns (patch: seq<(string, Value)>)
    requires body.Obj?
    ensures patch == PatchFields(body)
  {
    assert PatchKeys[..1] == ["name"] && PatchKeys[..2] == ["name", "timeContext"];
    assert PatchKeys[..1][..0] == [] && PatchKeys[..2][..1] == PatchKeys[..1];
    patch := [];
    if Has(body, "name") {
      patch := patch + [("name", Get(body, "name"))];
    }
    assert patch == Select(PatchKeys[..1], PresentIn(body), CopiedFrom(body));
    if Has(body, "timeContext") {
      patch := patch + [("timeContext", Get(body, "timeContext"))];
    }
    assert patch == Select(PatchKeys[..2], PresentIn(body), CopiedFrom(body));
    if Has(body, "layout") {
      patch := patch + [("layout", Get(body, "layout"))];
    }
  }

  /** No patchable key is listed twice. */
  lemma PatchKeysDistinct()
    ensures forall i, j :: 0 <= i < j < |PatchKeys| ==> PatchKeys[i] != PatchKeys[j]
  {
    assert PatchKeys[0][0] == 'n' && PatchKeys[1][0] == 't' && PatchKeys[2][0] == 'l';
  }

  /**
   * The patch holds exactly the patchable fields the body has, each with the body's value, in the
   * order `name`, `timeContext`, `layout` and none twice; it is empty exactly when the body has none.
   */
  lemma PatchFieldsSpec(body: Value)
    requires body.Obj?
    ensures var p := PatchFields(body);
      && (forall i :: 0 <= i < |p| ==> p[i].0 in PatchKeys && Has(body, p[i].0) && p[i].1 == Get(body, p[i].0))
      && (forall k :: k in PatchKeys && Has(body, k) ==> exists i :: 0 <= i < |p| && p[i].0 == k)
      && (forall i, j :: 0 <= i < j < |p| ==> p[i].0 != p[j].0)
      && (p == [] <==> forall k :: k in PatchKeys ==> !Has(body, k))
  {
    var p := PatchFields(body);
    var idx := SelectInOrder(PatchKeys, PresentIn(body), CopiedFrom(body));
    PatchKeysDistinct();
    forall k | k in PatchKeys && Has(body, k) ensures exists i :: 0 <= i < |p| && p[i].0 == k {
      var j :| 0 <= j < |PatchKeys| && PatchKeys[j] == k;
      var i :| 0 <= i < |idx| && idx[i] == j;
      assert p[i].0 == k;
    }
  }

  // ---------------------------------------------------------------- Orion's replies

  /** A reply from Orion: its status, its text and, when the text is JSON, the decoded value. */
  datatype Upstream = Upstream(status: int, text: string, json: Option<Value>)

  /** A request to Orion: the URL, the JSON body (if any) and the headers; `Err(m)` when it raised. */
  type Call = (string, Value, Headers) -> Result<Upstream, string>

  /** `{"id": id, "status": status}`. */
  function WorkspaceReply(code: int, id: string, status: string): Reply {
    Reply(code, Obj([("id", Str(id)), ("status", Str(status))]))
  }

  /** The status an unexpected Orion status is passed on as: itself when it is an error, else 502. */
  function PassOn(status: int): (code: int)
    ensures 400 <= code < 600
    ensures 400 <= status < 600 ==> code == status
  {
    if 400 <= status < 600 then status else 502
  }

  /** The reply to an unexpected Orion reply: its text, or `fallback` when the text is empty. */
  function Rejected(r: Upstream, fallback: string): Reply {
    ErrorReply(PassOn(r.status), if r.text != "" then r.text else fallback)
  }

  /** The reply once the PATCH has been attempted. */
  function PatchReply(id: string, r2: Result<Upstream, string>): (reply: Reply)
    ensures r2.Err? ==> reply == ErrorReply(502, "Orion PATCH failed: " + r2.error)
    ensures r2.Ok? ==> (reply.status == 200 <==> r2.value.status in {200, 204})
    ensures r2.Ok? && reply.status != 200 ==> reply.status == 502
    ensures r2.Ok? && r2.value.status in {200, 204} ==> reply == WorkspaceReply(200, id, "updated")
    ensures r2.Ok? && r2.value.status !in {200, 204} ==>
      && reply.body.Obj?
      && Get(reply.body, "error") == Str(if r2.value.text != "" then r2.value.text else "PATCH failed")
      && Get(reply.body, "status") == Num(r2.value.status)
  {
    match r2
    case Err(m) => ErrorReply(502, "Orion PATCH failed: " + m)
    case Ok(u) =>
      if u.status == 200 || u.status == 204 then WorkspaceReply(200, id, "updated")
      else
        var body := Obj([("error", Str(if u.text != "" then u.text else "PATCH failed")), ("status", Num(u.status))]);
        assert "error" != "status" by { assert "error"[0] != "status"[0]; }
        assert Get(Obj(body.fields[1..]), "status") == Num(u.status);
        Reply(502, body)
  }

  /** Where one workspace's attributes are patched. */
  function AttrsUrl(base: string, id: string): string {
    base + "/ngsi-ld/v1/entities/" + id + "/attrs"
  }

  /** `post_workspace`, as a function of the request and of what Orion answers. */
  function PostOutcome(env: Env, body: Option<Value>, authorization: Option<string>, xTenantId: Option<string>,
                       fiwareService: Option<string>, post: Call, patch: Call): Reply {
    match CheckPost(env, body, xTenantId, fiwareService)
    case Err(e) => e
    case Ok((id, tenant)) =>
      var base := OrionBase(env);
      var headers := OrionHeaders(authorization, Some(tenant));
      match post(EntitiesUrl(base), body.value, headers)
      case Err(m) => ErrorReply(502, "Orion request failed: " + m)
      case Ok(r) =>
        if r.status == 201 then WorkspaceReply(201, id, "created")
        else if r.status == 409 then
          var fields := PatchFields(body.value);
          if fields == [] then WorkspaceReply(200, id, "exists")
          else PatchReply(id, patch(AttrsUrl(base, id), Obj(fields), headers))
        else Rejected(r, "Orion rejected the request")
  }

  /** `post_workspace`: check, create, and on a conflict patch the fields the body carries. */
  method PostWorkspace(env: Env, body: Option<Value>, authorization: Option<string>, xTenantId: Option<string>,
                       fiwareService: Option<string>, post: Call, patch: Call) returns (reply: Reply)
    ensures reply == PostOutcome(env, body, authorization, xTenantId, fiwareService, post, patch)
  {
    var checked := CheckPost(env, body, xTenantId, fiwareService);
    if checked.Err? {
      return checked.error;
    }
    var (id, tenant) := checked.value;
    var base := OrionBase(env);
    var headers := HeadersOrion(authorization, Some(tenant));
    var r := post(EntitiesUrl(base), body.value, headers);
    if r.Err? {
      return ErrorReply(502, "Orion request failed: " + r.error);
    }
    if r.value.status == 201 {
      return WorkspaceReply(201, id, "created");
    }
    if r.value.status == 409 {
      var fields := PatchBody(body.value);
      if fields == [] {
        return WorkspaceReply(200, id, "exists");
      }
      var r2 := patch(AttrsUrl(base, id), Obj(fields), headers);
      return PatchReply(id, r2);
    }
    return Rejected(r.value, "Orion rejected the request");
  }

  /** A request that fails the checks never reaches Orion: its reply does not depend on Orion. */
  lemma RejectedBeforeOrion(env: Env, body: Option<Value>, authorization: Option<string>, xTenantId: Option<string>,
                            fiwareService: Option<string>, post: Call, patch: Call, post2: Call, patch2: Call)
    requires CheckPost(env, body, xTenantId, fiwareService).Err?
    ensures PostOutcome(env, body, authorization, xTenantId, fiwareService, post, patch)
         == PostOutcome(env, body, authorization, xTenantId, fiwareService, post2, patch2)
    ensures PostOutcome(env, body, authorization, xTenantId, fiwareService, post, patch).status in {400, 503}
  {
  }

  /**
   * The upsert's status mapping for a valid workspace: a failed request is 502; Orion's 201 is
   * `created`; a 409 is answered by the PATCH of the body's fields, except that a body with
   * nothing to patch is `exists` without a PATCH; any other status is passed on with Orion's text
   * when it is an error status and is otherwise 502.
   */
  lemma PostStatusMapping(env: Env, body: Option<Value>, authorization: Option<string>, xTenantId: Option<string>,
                          fiwareService: Option<string>, post: Call, patch: Call, patch2: Call)
    requires CheckPost(env, body, xTenantId, fiwareService).Ok?
    ensures var id := CheckPost(env, body, xTenantId, fiwareService).value.0;
      var tenant := CheckPost(env, body, xTenantId, fiwareService).value.1;
      var r := post(EntitiesUrl(OrionBase(env)), body.value, OrionHeaders(authorization, Some(tenant)));
      var reply := PostOutcome(env, body, authorization, xTenantId, fiwareService, post, patch);
      && (r.Err? ==> reply == ErrorReply(502, "Orion request failed: " + r.error))
      && (r.Ok? && r.value.status == 201 ==> reply == WorkspaceReply(201, id, "created"))
      && (r.Ok? && r.value.status == 409 && PatchFields(body.value) == [] ==>
            reply == WorkspaceReply(200, id, "exists")
            && reply == PostOutcome(env, body, authorization, xTenantId, fiwareService, post, patch2))
      && (r.Ok? && r.value.status == 409 && PatchFields(body.value) != [] ==>
            reply == PatchReply(id, patch(AttrsUrl(OrionBase(env), id), Obj(PatchFields(body.value)),
                                          OrionHeaders(authorization, Some(tenant)))))
      && (r.Ok? && r.value.status != 201 && r.value.status != 409 ==>
            reply == Rejected(r.value, "Orion rejected the request")
            && reply.status == PassOn(r.value.status) && 400 <= reply.status < 600)
  {
  }

  // ---------------------------------------------------------------- listing

  /**
   * The reply to Orion's answer to the listing. A successful listing is always a JSON array:
   * Orion's list as it came, or `[]` when Orion answered anything else. A failed request is 502;
   * Orion's own error status is passed on when it is one (502 otherwise) with Orion's text or
   * "Orion error"; a body that is not JSON is the framework's 500.
   */
  function ListReply(answer: Result<Upstream, string>): (reply: Reply)
    ensures reply.status == 200 ==> reply.body.Arr?
    ensures reply.status != 200 ==> 400 <= reply.status < 600
    ensures reply.status == 200 <==> answer.Ok? && answer.value.status == 200 && answer.value.json.Some?
    ensures answer.Err? ==> reply == ErrorReply(502, "Orion request failed: " + answer.error)
    ensures answer.Ok? && answer.value.status != 200 ==>
      && reply == Rejected(answer.value, "Orion error")
      && (400 <= answer.value.status < 600 ==> reply.status == answer.value.status)
      && (!(400 <= answer.value.status < 600) ==> reply.status == 502)
    ensures answer.Ok? && answer.value.status == 200 && answer.value.json.None? ==> reply == InternalError
    ensures answer.Ok? && answer.value.status == 200 && answer.value.json.Some? ==>
      && (answer.value.json.value.Arr? ==> reply.body == answer.value.json.value)
      && (!answer.value.json.value.Arr? ==> reply.body == Arr([]))
  {
    match answer
    case Err(m) => ErrorReply(502, "Orion request failed: " + m)
    case Ok(r) =>
      if r.status != 200 then Rejected(r, "Orion error")
      else
        match r.json
        case None => InternalError
        case Some(data) => Reply(200, if data.Arr? then data else Arr([]))
  }

  /** `get_workspaces`: configuration, then tenant, then the listing of `DataHubWorkspace` entities. */
  function ListOutcome(env: Env, authorization: Option<string>, xTenantId: Option<string>,
                       fiwareService: Option<string>, get: Call): (reply: Reply)
    ensures OrionBase(env) == "" ==> reply == ErrorReply(503, NotConfigured)
    ensures OrionBase(env) != "" && SelectTenant(fiwareService, xTenantId).None? ==> reply == ErrorReply(400, TenantRequired)
    ensures OrionBase(env) != "" && SelectTenant(fiwareService, xTenantId).Some? ==>
      reply == ListReply(get(EntitiesUrl(OrionBase(env)), Obj([("type", Str(WorkspaceType))]),
                             OrionHeaders(authorization, SelectTenant(fiwareService, xTenantId))))
    ensures reply.status == 200 ==> reply.body.Arr?
    ensures reply.status != 200 ==> 400 <= reply.status < 600
  {
    var base := OrionBase(env);
    if base == "" then ErrorReply(503, NotConfigured)
    else
      match SelectTenant(fiwareService, xTenantId)
      case None => ErrorReply(400, TenantRequired)
      case Some(tenant) =>
        ListReply(get(EntitiesUrl(base), Obj([("type", Str(WorkspaceType))]), OrionHeaders(authorization, Some(tenant))))
  }
}
